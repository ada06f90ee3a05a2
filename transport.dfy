/** The HTTP transport (internal/transport.go): the mapping from errors
    to status codes, the Authorization-header and role gating in the
    request decoders, the response and error encoders writing to an
    `http.ResponseWriter`, the CORS wrapper, and the route table.

    JWT verification and JSON body decoding are foreign libraries; they
    appear as the oracle functions of `Oracle`. */
module Transport {
  import opened Errors
  import opened App
  import opened Strings
  import opened Strconv
  import opened Middleware
  import opened Endpoint

  const StatusOK: int := 200
  const StatusBadRequest: int := 400
  const StatusForbidden: int := 403
  const StatusNotFound: int := 404
  const StatusPreconditionRequired: int := 428
  const StatusInternalServerError: int := 500

  const ContentType: string := "Content-Type"
  const JsonContentType: string := "application/json; charset=utf-8"

  // ---------------------------------------------------------------------
  // Error to status

  /** `codeFrom(err)`: the first matching case of the switch wins. The
      cases are stated on the set of sentinels wrapped anywhere in err. */
  function CodeFrom(err: Error): (code: int)
    ensures ErrNotFound in Sentinels(err) ==> code == StatusNotFound
    ensures ErrNotFound !in Sentinels(err)
            && (ErrAlreadyExists in Sentinels(err) || ErrInconsistentIDs in Sentinels(err))
            ==> code == StatusBadRequest
    ensures ErrNotFound !in Sentinels(err) && ErrAlreadyExists !in Sentinels(err)
            && ErrInconsistentIDs !in Sentinels(err) && ErrForbidden in Sentinels(err)
            ==> code == StatusForbidden
    ensures ErrNotFound !in Sentinels(err) && ErrAlreadyExists !in Sentinels(err)
            && ErrInconsistentIDs !in Sentinels(err) && ErrForbidden !in Sentinels(err)
            && ErrPreconditionRequired in Sentinels(err)
            ==> code == StatusPreconditionRequired
    ensures ErrNotFound !in Sentinels(err) && ErrAlreadyExists !in Sentinels(err)
            && ErrInconsistentIDs !in Sentinels(err) && ErrForbidden !in Sentinels(err)
            && ErrPreconditionRequired !in Sentinels(err)
            ==> code == StatusInternalServerError
  {
    IsIffSentinel(err, ErrNotFound);
    IsIffSentinel(err, ErrAlreadyExists);
    IsIffSentinel(err, ErrInconsistentIDs);
    IsIffSentinel(err, ErrForbidden);
    IsIffSentinel(err, ErrPreconditionRequired);
    if Is(err, ErrNotFound) then StatusNotFound
    else if Is(err, ErrAlreadyExists) || Is(err, ErrInconsistentIDs) then StatusBadRequest
    else if Is(err, ErrForbidden) then StatusForbidden
    else if Is(err, ErrPreconditionRequired) then StatusPreconditionRequired
    else StatusInternalServerError
  }

  /** No error is encoded as a success. */
  lemma CodeFromIsError(err: Error)
    ensures CodeFrom(err) in {StatusBadRequest, StatusForbidden, StatusNotFound,
                              StatusPreconditionRequired, StatusInternalServerError}
  {
  }

  /** Wrapping an error with fmt.Errorf("...%w", err) keeps its status. */
  lemma CodeFromWrapped(prefix: string, err: Error)
    ensures CodeFrom(Wrapped(prefix, err)) == CodeFrom(err)
  {
  }

  // ---------------------------------------------------------------------
  // Requests and the token oracle

  /** An incoming request: the method, the URL path, the header (one value
      per key, as `Header.Get` returns it), the body, the path variables
      the router extracted, and the context. */
  datatype HttpRequest = HttpRequest(
    httpMethod: string,
    path: string,
    header: map<string, string>,
    body: string,
    vars: map<string, string>,
    ctx: Context)

  /** `Header.Get(key)`: the empty string for a missing key. */
  function HeaderGet(header: map<string, string>, key: string): (v: string)
    ensures key !in header ==> v == ""
    ensures key in header ==> v == header[key]
  {
    if key in header then header[key] else ""
  }

  /** A claim value: a JSON string, or anything else. */
  datatype Claim = StringClaim(value: string) | NonStringClaim

  /** A parsed token: whether its claims are `jwt.MapClaims`, whether it
      is valid, and the claims. */
  datatype Token = Token(claimsAreMap: bool, valid: bool, claims: map<string, Claim>)

  /** The foreign libraries: `jwt.Parse` with the HMAC key function, and
      the JSON decoder reading a Subject from a request body. */
  datatype Oracle = Oracle(
    parseToken: string -> Result<Token>,
    decodeSubject: string -> Result<Subject>)

  /** The user name and role read from a token. */
  datatype Credentials = Credentials(user: string, role: string)

  /** `claims[key].(string)`. */
  function ClaimString(claims: map<string, Claim>, key: string): (r: Option<string>)
    ensures r.Some? <==> key in claims && claims[key].StringClaim?
    ensures r.Some? ==> r.value == claims[key].value
  {
    if key in claims && claims[key].StringClaim? then Some(claims[key].value) else None
  }

  /** `extractTokenMetadata`. A parse failure is passed on; a valid token
      with map claims must carry string `username` and `role` claims; a
      token that parses without being both yields empty credentials. */
  function ExtractTokenMetadata(headerToken: string, o: Oracle): (r: Result<Credentials>)
    ensures o.parseToken(headerToken).Fail? ==> r == Fail(o.parseToken(headerToken).error)
    ensures o.parseToken(headerToken).Ok? ==>
      var t := o.parseToken(headerToken).value;
      if t.claimsAreMap && t.valid then
        && (r.Ok? <==> ClaimString(t.claims, "username").Some? && ClaimString(t.claims, "role").Some?)
        && (r.Ok? ==> r.value == Credentials(t.claims["username"].value, t.claims["role"].value))
      else r == Ok(Credentials("", ""))
  {
    match o.parseToken(headerToken)
    case Fail(e) => Fail(e)
    case Ok(t) =>
      if t.claimsAreMap && t.valid then
        match ClaimString(t.claims, "username")
        case None => Fail(Other("not username"))
        case Some(user) =>
          match ClaimString(t.claims, "role")
          case None => Fail(Other("not role"))
          case Some(role) => Ok(Credentials(user, role))
      else Ok(Credentials("", ""))
  }

  /** `getPermissionParams` on the Authorization header: it must split on
      ' ' into exactly two pieces (so it holds exactly one space), and any
      failure of the token is replaced by ErrPreconditionRequired. */
  function GetPermissionParams(authorization: string, o: Oracle): (r: Result<Credentials>)
    ensures r.Fail? ==> r.error == SentinelError(ErrPreconditionRequired)
    ensures Count(authorization, ' ') != 1 ==> r.Fail?
    ensures Count(authorization, ' ') == 1 ==>
      var token := Split(authorization, ' ')[1];
      && (r.Ok? <==> ExtractTokenMetadata(token, o).Ok?)
      && (r.Ok? ==> r.value == ExtractTokenMetadata(token, o).value)
  {
    var tb := Split(authorization, ' ');
    if |tb| != 2 then Fail(SentinelError(ErrPreconditionRequired))
    else
      match ExtractTokenMetadata(tb[1], o)
      case Fail(_) => Fail(SentinelError(ErrPreconditionRequired))
      case Ok(c) => Ok(c)
  }

  /** A header `scheme + " " + token` with no other space hands exactly
      token to the token parser, whatever the scheme word is. */
  lemma GetPermissionParamsToken(scheme: string, token: string, o: Oracle)
    requires ' ' !in scheme && ' ' !in token
    ensures GetPermissionParams(scheme + " " + token, o) ==
            match ExtractTokenMetadata(token, o)
            case Fail(_) => Fail(SentinelError(ErrPreconditionRequired))
            case Ok(c) => Ok(c)
  {
    SplitJoin([scheme, token], ' ');
    assert Join([scheme, token], ' ') == scheme + " " + token by {
      assert [scheme, token][1..] == [token];
    }
  }

  /** An empty header, a single word and a double space all fail the shape check. */
  lemma MalformedAuthorization(word: string, o: Oracle)
    requires ' ' !in word
    ensures GetPermissionParams("", o) == Fail(SentinelError(ErrPreconditionRequired))
    ensures GetPermissionParams(word, o) == Fail(SentinelError(ErrPreconditionRequired))
    ensures GetPermissionParams("Bearer  " + word, o) == Fail(SentinelError(ErrPreconditionRequired))
  {
    assert Count(word, ' ') == 0 by {
      SplitNoSeparator(word, ' ');
    }
    CountAppend("Bearer  ", word, ' ');
  }

  /** The role test `strings.ToLower(role) == "administrator"`: it accepts
      exactly the thirteen-letter spellings of "administrator" in any mix
      of cases (and with U+0130 for an i). */
  predicate IsAdministrator(role: string): (b: bool)
    ensures b <==> |role| == 13 && forall i :: 0 <= i < 13 ==> role[i] in Spellings("administrator"[i])
  {
    ToLowerEqualsWord(role, "administrator");
    ToLower(role) == "administrator"
  }

  lemma AdministratorExamples()
    ensures IsAdministrator("Administrator")
    ensures !IsAdministrator("admin")
  {
    var role, word := "Administrator", "administrator";
    assert role[1..] == word[1..];
    forall i | 0 <= i < 13
      ensures role[i] in Spellings(word[i])
    {
      if i > 0 {
        assert role[i] == role[1..][i - 1];
      }
    }
  }

  // ---------------------------------------------------------------------
  // Decoders

  /** The gate the GET, PUT and DELETE decoders share: the Authorization
      header first, then the role. None when the request passes. */
  function Gate(r: HttpRequest, o: Oracle): (g: Option<Error>)
    ensures GetPermissionParams(HeaderGet(r.header, "Authorization"), o).Fail? ==>
            g == Some(SentinelError(ErrPreconditionRequired))
    ensures GetPermissionParams(HeaderGet(r.header, "Authorization"), o).Ok? ==>
            (g.None? <==> IsAdministrator(GetPermissionParams(HeaderGet(r.header, "Authorization"), o).value.role))
    ensures g.Some? ==> g.value in {SentinelError(ErrPreconditionRequired), SentinelError(ErrForbidden)}
    ensures GetPermissionParams(HeaderGet(r.header, "Authorization"), o).Ok? && g.Some? ==>
            g == Some(SentinelError(ErrForbidden))
  {
    match GetPermissionParams(HeaderGet(r.header, "Authorization"), o)
    case Fail(e) => Some(e)
    case Ok(c) => if !IsAdministrator(c.role) then Some(SentinelError(ErrForbidden)) else None
  }

  /** `decodeGetSubjectsRequest`: the gate only; the request it builds
      leaves User and Role empty. */
  function DecodeGetSubjects(r: HttpRequest, o: Oracle): (d: Result<Request>)
    ensures d.Ok? <==> Gate(r, o).None?
    ensures d.Ok? ==> d.value == GetSubjectsRequest("", "")
    ensures d.Fail? ==> d.error == Gate(r, o).value
    ensures d.Fail? ==> d.error in {SentinelError(ErrPreconditionRequired), SentinelError(ErrForbidden)}
  {
    match Gate(r, o)
    case Some(e) => Fail(e)
    case None => Ok(GetSubjectsRequest("", ""))
  }

  /** `decodePostSubjectRequest`: no gate, only the body; a body decoding
      error is passed on unchanged. */
  function DecodePostSubject(r: HttpRequest, o: Oracle): (d: Result<Request>)
    ensures d.Ok? <==> o.decodeSubject(r.body).Ok?
    ensures d.Ok? ==> d.value.PostSubjectRequest? && d.value.subject == o.decodeSubject(r.body).value
    ensures d.Fail? ==> d.error == o.decodeSubject(r.body).error
  {
    match o.decodeSubject(r.body)
    case Fail(e) => Fail(e)
    case Ok(subject) => Ok(PostSubjectRequest(subject))
  }

  /** `decodePutSubjectRequest`: the gate, then the body; the body is only
      read once the gate has passed. */
  function DecodePutSubject(r: HttpRequest, o: Oracle): (d: Result<Request>)
    ensures d.Ok? <==> Gate(r, o).None? && o.decodeSubject(r.body).Ok?
    ensures d.Ok? ==> d.value.PutSubjectRequest? && d.value.subject == o.decodeSubject(r.body).value
    ensures d.Fail? && Gate(r, o).Some? ==> d.error == Gate(r, o).value
    ensures d.Fail? && Gate(r, o).None? ==> d.error == o.decodeSubject(r.body).error
  {
    match Gate(r, o)
    case Some(e) => Fail(e)
    case None =>
      match o.decodeSubject(r.body)
      case Fail(e) => Fail(e)
      case Ok(subject) => Ok(PutSubjectRequest(subject))
  }

  /** `value, ok := mux.Vars(r)["id"]`: the zero value "" when the key is
      missing, and ok tells the two apart. */
  function PathId(vars: map<string, string>): (r: (string, bool))
    ensures r.1 <==> "id" in vars
    ensures r.1 ==> r.0 == vars["id"]
    ensures !r.1 ==> r.0 == ""
  {
    if "id" in vars then (vars["id"], true) else ("", false)
  }

  /** `decodeDeleteSubjectRequest`: the gate, then Atoi of the path id, and
      only then the `ok` flag of the lookup. A missing id reads as "" and
      fails Atoi first, so ErrBadRouting is never returned. */
  function DecodeDeleteSubject(r: HttpRequest, o: Oracle): (d: Result<Request>)
    ensures Gate(r, o).Some? ==> d == Fail(Gate(r, o).value)
    ensures Gate(r, o).None? && Atoi(PathId(r.vars).0).Fail? ==> d == Fail(Atoi(PathId(r.vars).0).error)
    ensures Gate(r, o).None? && Atoi(PathId(r.vars).0).Ok? ==>
            "id" in r.vars && d == Ok(DeleteSubjectRequest(Atoi(r.vars["id"]).value))
    ensures d != Fail(SentinelError(ErrBadRouting))
  {
    match Gate(r, o)
    case Some(e) => Fail(e)
    case None =>
      var (value, ok) := PathId(r.vars);
      match Atoi(value)
      case Fail(e) => Fail(e)
      case Ok(id) =>
        if !ok then (AtoiEmpty(); Fail(SentinelError(ErrBadRouting)))
        else Ok(DeleteSubjectRequest(id))
  }

  /** The decoder of the route for op. */
  function Decode(op: Op, r: HttpRequest, o: Oracle): (d: Result<Request>)
    ensures d.Ok? ==> Accepts(op, d.value)
  {
    match op
    case GetSubjectsOp => DecodeGetSubjects(r, o)
    case AddSubjectOp => DecodePostSubject(r, o)
    case UpdateSubjectOp => DecodePutSubject(r, o)
    case DeleteSubjectOp => DecodeDeleteSubject(r, o)
  }

  /** The routes behind the gate. */
  predicate Gated(op: Op)
  {
    op != AddSubjectOp
  }

  /** On a gated route a bad Authorization header wins over everything
      else, and a non-administrator role wins over the body and the path. */
  lemma {:induction false} GateFirst(op: Op, r: HttpRequest, o: Oracle)
    requires Gated(op)
    ensures Gate(r, o).Some? ==> Decode(op, r, o) == Fail(Gate(r, o).value)
    ensures GetPermissionParams(HeaderGet(r.header, "Authorization"), o).Fail? ==>
            Decode(op, r, o) == Fail(SentinelError(ErrPreconditionRequired))
    ensures GetPermissionParams(HeaderGet(r.header, "Authorization"), o).Ok?
            && !IsAdministrator(GetPermissionParams(HeaderGet(r.header, "Authorization"), o).value.role) ==>
            Decode(op, r, o) == Fail(SentinelError(ErrForbidden))
  {
    var g := Gate(r, o);
    if g.Some? {
      match op
      case GetSubjectsOp =>
      case UpdateSubjectOp =>
      case DeleteSubjectOp =>
    }
  }

  /** The create route reads only the body: the header, the path and the
      path variables make no difference. */
  lemma PostIgnoresHeader(r1: HttpRequest, r2: HttpRequest, o: Oracle)
    requires r1.body == r2.body
    ensures Decode(AddSubjectOp, r1, o) == Decode(AddSubjectOp, r2, o)
  {
  }

  // ---------------------------------------------------------------------
  // The response writer and the encoders

  /** What a handler writes as a body: the JSON object {"error": message},
      or the JSON encoding of a response struct. */
  datatype Payload = ErrorPayload(message: string) | ResponsePayload(response: Response)

  /** The status a writer holds after a WriteHeader(code) or an implicit
      one: the first status written wins. */
  function Settled(status: Option<int>, code: int): (s: Option<int>)
    ensures s.Some?
    ensures status.Some? ==> s == status
    ensures status.None? ==> s == Some(code)
  {
    if status.Some? then status else Some(code)
  }

  /** `http.ResponseWriter`: the header map, the status once written, and
      the payloads written to the body. */
  class ResponseWriter {
    var header: map<string, string>
    var status: Option<int>
    var body: seq<Payload>

    constructor ()
      ensures header == map[] && status == None && body == []
    {
      header := map[];
      status := None;
      body := [];
    }

    /** `w.Header().Set(key, value)`. */
    method Set(key: string, value: string)
      modifies this
      ensures header == old(header)[key := value]
      ensures status == old(status) && body == old(body)
    {
      header := header[key := value];
    }

    /** `w.WriteHeader(code)`: a second call has no effect. */
    method WriteHeader(code: int)
      modifies this
      ensures status == Settled(old(status), code)
      ensures header == old(header) && body == old(body)
    {
      status := Settled(status, code);
    }

    /** `w.Write(...)`: writes status 200 first if no status was written. */
    method Write(p: Payload)
      modifies this
      ensures status == Settled(old(status), StatusOK)
      ensures body == old(body) + [p]
      ensures header == old(header)
    {
      status := Settled(status, StatusOK);
      body := body + [p];
    }
  }

  /** A status and the payload written with it. */
  datatype HttpReply = HttpReply(status: int, payload: Payload)

  /** What `encodeError` writes for err. */
  function ErrorReply(err: Error): (reply: HttpReply)
    ensures reply.status != StatusOK
    ensures reply.status == CodeFrom(err)
    ensures reply.payload == ErrorPayload(Message(err))
  {
    CodeFromIsError(err);
    HttpReply(CodeFrom(err), ErrorPayload(Message(err)))
  }

  /** `encodeError`. The Go function panics on a nil error; here err is
      non-nil by its type. */
  method EncodeError(err: Error, w: ResponseWriter)
    modifies w
    ensures w.header == old(w.header)[ContentType := JsonContentType]
    ensures w.status == Settled(old(w.status), ErrorReply(err).status)
    ensures w.body == old(w.body) + [ErrorReply(err).payload]
  {
    w.Set(ContentType, JsonContentType);
    w.WriteHeader(CodeFrom(err));
    w.Write(ErrorPayload(Message(err)));
  }

  /** Which errorer test `encodeResponse` applies: the one the code has
      (AsWritten), or the one the errorer interface is there for
      (Corrected). */
  datatype Variant = AsWritten | Corrected

  /** `response.(errorer)` as the code stands: none of the response
      structs declares an `error() error` method, so the assertion never
      succeeds. */
  function ErrorerAsWritten(response: Response): (e: Option<Error>)
    ensures e == None
  {
    None
  }

  /** `response.(errorer)` once each response struct returns its `Err`
      field from `error()`. */
  function Errorer(response: Response): (e: Option<Error>)
    ensures e == response.err
  {
    match response
    case GetSubjectsResponse(_, err) => err
    case PostSubjectResponse(err) => err
    case PutSubjectResponse(err) => err
    case DeleteSubjectResponse(err) => err
  }

  /** The errorer test of a variant. */
  function ErrorerOf(v: Variant, response: Response): Option<Error>
  {
    match v
    case AsWritten => ErrorerAsWritten(response)
    case Corrected => Errorer(response)
  }

  /** What `encodeResponse` writes for a response. As written, every
      response is a 200 with the response struct as body, whatever error
      it carries; corrected, a response carrying a service error is
      written as that error with its status. */
  function ResponseReply(v: Variant, response: Response): (reply: HttpReply)
    ensures v == AsWritten ==> reply == HttpReply(StatusOK, ResponsePayload(response))
    ensures v == Corrected ==> (reply.status == StatusOK <==> response.err.None?)
    ensures v == Corrected && response.err.Some? ==> reply == ErrorReply(response.err.value)
    ensures v == Corrected && response.err.None? ==> reply == HttpReply(StatusOK, ResponsePayload(response))
  {
    match ErrorerOf(v, response)
    case Some(e) => ErrorReply(e)
    case None => HttpReply(StatusOK, ResponsePayload(response))
  }

  /** `encodeResponse`. */
  method EncodeResponse(v: Variant, response: Response, w: ResponseWriter)
    modifies w
    ensures w.header == old(w.header)[ContentType := JsonContentType]
    ensures w.status == Settled(old(w.status), ResponseReply(v, response).status)
    ensures w.body == old(w.body) + [ResponseReply(v, response).payload]
  {
    match ErrorerOf(v, response)
    case Some(e) =>
      EncodeError(e, w);
    case None =>
      w.Set(ContentType, JsonContentType);
      w.Write(ResponsePayload(response));
  }

  /** As the code stands, a service error is written as status 200 with
      the response struct as body instead of with its error status. */
  lemma ServiceErrorHiddenAsWritten()
    ensures var response := DeleteSubjectResponse(Some(SentinelError(ErrNotFound)));
            && ResponseReply(AsWritten, response).status == StatusOK
            && ResponseReply(Corrected, response).status == StatusNotFound
  {
    assert Sentinels(SentinelError(ErrNotFound)) == {ErrNotFound};
  }

  // ---------------------------------------------------------------------
  // Handlers

  /** `httptransport.NewServer(endpoint, decode<op>, encodeResponse,
      ServerErrorEncoder(encodeError))` for the endpoint's operation. */
  datatype Server = Server(endpoint: Endpoint, oracle: Oracle, variant: Variant)
  {
    /** The status and payload the server writes for a request: the
        decoder's error with its status, or the encoded response of the
        endpoint, which as written always hides the service's error. */
    function Reply(r: HttpRequest): (reply: HttpReply)
      ensures Decode(endpoint.op, r, oracle).Fail? ==>
              var e := Decode(endpoint.op, r, oracle).error;
              reply.status == CodeFrom(e) && reply.payload == ErrorPayload(Message(e))
      ensures Decode(endpoint.op, r, oracle).Ok? ==>
              var response := endpoint.Outcome(r.ctx, Decode(endpoint.op, r, oracle).value).0;
              if variant == Corrected && response.err.Some? then
                reply.status == CodeFrom(response.err.value) && reply.payload == ErrorPayload(Message(response.err.value))
              else
                reply.status == StatusOK && reply.payload == ResponsePayload(response)
    {
      match Decode(endpoint.op, r, oracle)
      case Fail(e) => ErrorReply(e)
      case Ok(request) => ResponseReply(variant, endpoint.Outcome(r.ctx, request).0)
    }

    /** The service is called exactly when the decoder succeeds. */
    method ServeHTTP(w: ResponseWriter, r: HttpRequest)
      modifies w, endpoint.service.Repr()
      ensures w.header == old(w.header)[ContentType := JsonContentType]
      ensures w.status == Settled(old(w.status), Reply(r).status)
      ensures w.body == old(w.body) + [Reply(r).payload]
      ensures Decode(endpoint.op, r, oracle).Fail? ==> Unobserved(endpoint.service)
      ensures Decode(endpoint.op, r, oracle).Ok? ==>
              Observed(endpoint.service, endpoint.op,
                       endpoint.Outcome(r.ctx, Decode(endpoint.op, r, oracle).value).0.err)
    {
      var decoded := Decode(endpoint.op, r, oracle);
      match decoded
      case Fail(e) =>
        EncodeError(e, w);
      case Ok(request) =>
        // The endpoint's own error is always nil (Outcome), so go-kit's
        // error branch after the endpoint call is never taken.
        var response, _ := endpoint.Serve(r.ctx, request);
        EncodeResponse(variant, response, w);
    }
  }

  /** The HTTP-level statuses of a server: 428 and 403 from the gate, and
      200 exactly when the decoder succeeds (as written) or exactly when the
      decoder succeeds and the service returns no error (corrected). */
  lemma {:induction false} ServerStatus(s: Server, r: HttpRequest)
    ensures Gated(s.endpoint.op)
            && GetPermissionParams(HeaderGet(r.header, "Authorization"), s.oracle).Fail? ==>
            s.Reply(r).status == StatusPreconditionRequired
    ensures Gated(s.endpoint.op)
            && GetPermissionParams(HeaderGet(r.header, "Authorization"), s.oracle).Ok?
            && !IsAdministrator(GetPermissionParams(HeaderGet(r.header, "Authorization"), s.oracle).value.role) ==>
            s.Reply(r).status == StatusForbidden
    ensures s.variant == AsWritten ==>
            (s.Reply(r).status == StatusOK <==> Decode(s.endpoint.op, r, s.oracle).Ok?)
    ensures s.variant == Corrected ==>
            (s.Reply(r).status == StatusOK <==>
             Decode(s.endpoint.op, r, s.oracle).Ok?
             && s.endpoint.Outcome(r.ctx, Decode(s.endpoint.op, r, s.oracle).value).0.err.None?)
  {
    if Gated(s.endpoint.op) {
      GateFirst(s.endpoint.op, r, s.oracle);
    }
    assert Sentinels(SentinelError(ErrPreconditionRequired)) == {ErrPreconditionRequired};
    assert Sentinels(SentinelError(ErrForbidden)) == {ErrForbidden};
  }

  /** A DELETE whose path id is not an int64 in decimal is answered 500. */
  lemma DeleteBadIdStatus(s: Server, r: HttpRequest)
    requires s.endpoint.op == DeleteSubjectOp
    requires Gate(r, s.oracle).None? && Atoi(PathId(r.vars).0).Fail?
    ensures s.Reply(r).status == StatusInternalServerError
  {
  }

  const AllowMethods: string := "POST, GET, OPTIONS, PUT, DELETE"
  const AllowHeaders: string := "Authorization, Origin, Accept, Content-Type, Content-Length, Accept-Encoding"

  /** The Access-Control-Allow-Origin value: the request's Origin, or "*". */
  function AllowOrigin(r: HttpRequest): (origin: string)
    ensures HeaderGet(r.header, "Origin") != "" ==> origin == HeaderGet(r.header, "Origin")
    ensures HeaderGet(r.header, "Origin") == "" ==> origin == "*"
  {
    var origin := HeaderGet(r.header, "Origin");
    if origin != "" then origin else "*"
  }

  /** The header map after the three CORS headers are set. */
  function WithCors(header: map<string, string>, r: HttpRequest): (h: map<string, string>)
    ensures h.Keys == header.Keys + {"Access-Control-Allow-Origin", "Access-Control-Allow-Methods",
                                     "Access-Control-Allow-Headers"}
    ensures h["Access-Control-Allow-Origin"] == AllowOrigin(r)
    ensures h["Access-Control-Allow-Methods"] == AllowMethods
    ensures h["Access-Control-Allow-Headers"] == AllowHeaders
    ensures forall k ::
              (k in header && k != "Access-Control-Allow-Origin" && k != "Access-Control-Allow-Methods"
               && k != "Access-Control-Allow-Headers") ==> h[k] == header[k]
  {
    header["Access-Control-Allow-Origin" := AllowOrigin(r)]
          ["Access-Control-Allow-Methods" := AllowMethods]
          ["Access-Control-Allow-Headers" := AllowHeaders]
  }

  /** `accessControl(h)`. */
  datatype Handler = AccessControl(inner: Server)
  {
    /** The CORS headers are always set; an OPTIONS request stops there,
        writing nothing else and leaving the service untouched; any other
        request goes on to the server. */
    method ServeHTTP(w: ResponseWriter, r: HttpRequest)
      modifies w, inner.endpoint.service.Repr()
      ensures r.httpMethod == "OPTIONS" ==>
              && w.header == WithCors(old(w.header), r)
              && w.status == old(w.status) && w.body == old(w.body)
              && Unobserved(inner.endpoint.service)
      ensures r.httpMethod != "OPTIONS" ==>
              && w.header == WithCors(old(w.header), r)[ContentType := JsonContentType]
              && w.status == Settled(old(w.status), inner.Reply(r).status)
              && w.body == old(w.body) + [inner.Reply(r).payload]
      ensures r.httpMethod != "OPTIONS" && Decode(inner.endpoint.op, r, inner.oracle).Fail? ==>
              Unobserved(inner.endpoint.service)
      ensures r.httpMethod != "OPTIONS" && Decode(inner.endpoint.op, r, inner.oracle).Ok? ==>
              Observed(inner.endpoint.service, inner.endpoint.op,
                       inner.endpoint.Outcome(r.ctx, Decode(inner.endpoint.op, r, inner.oracle).value).0.err)
    {
      w.Set("Access-Control-Allow-Origin", AllowOrigin(r));
      w.Set("Access-Control-Allow-Methods", AllowMethods);
      w.Set("Access-Control-Allow-Headers", AllowHeaders);
      if r.httpMethod == "OPTIONS" {
        return;
      }
      inner.ServeHTTP(w, r);
    }
  }

  // ---------------------------------------------------------------------
  // Routes

  /** The route a request takes: its operation and the path variables.
      Routes are tried in the order MakeHTTPHandler registers them; the
      path template `{id}` matches one non-empty segment. None: no route
      of the subject API matches (mux answers itself, or the request goes
      to the metrics handler). */
  function Route(httpMethod: string, path: string): (m: Option<(Op, map<string, string>)>)
    ensures m.Some? && m.value.0 == DeleteSubjectOp ==>
            && "id" in m.value.1 && m.value.1["id"] != "" && '/' !in m.value.1["id"]
            && path == "/subject/" + m.value.1["id"]
    ensures m.Some? && m.value.0 != DeleteSubjectOp ==> m.value.1 == map[]
    ensures m.Some? ==> httpMethod == "OPTIONS" || httpMethod == MethodOf(m.value.0)
  {
    var segments := Split(path, '/');
    if (httpMethod == "OPTIONS" || httpMethod == "GET") && path == "/subjects" then Some((GetSubjectsOp, map[]))
    else if (httpMethod == "OPTIONS" || httpMethod == "POST") && path == "/subject" then Some((AddSubjectOp, map[]))
    else if httpMethod == "PUT" && path == "/subject" then Some((UpdateSubjectOp, map[]))
    else if (httpMethod == "OPTIONS" || httpMethod == "DELETE")
            && |segments| == 3 && segments[0] == "" && segments[1] == "subject" && segments[2] != "" then
      assert path == "/subject/" + segments[2] by {
        assert segments == ["", "subject", segments[2]];
        JoinThree("", "subject", segments[2], '/');
      }
      Some((DeleteSubjectOp, map["id" := segments[2]]))
    else None
  }

  /** The HTTP method of each route. */
  function MethodOf(op: Op): string
  {
    match op
    case GetSubjectsOp => "GET"
    case AddSubjectOp => "POST"
    case UpdateSubjectOp => "PUT"
    case DeleteSubjectOp => "DELETE"
  }

  /** Routes are tried in registration order, so a preflight OPTIONS of
      /subject goes to the create route, not the update route, and the
      metrics path is not a route of the subject API. */
  lemma RoutePrecedence()
    ensures Route("OPTIONS", "/subject") == Some((AddSubjectOp, map[]))
    ensures Route("POST", "/subject") == Some((AddSubjectOp, map[]))
    ensures Route("PUT", "/subject") == Some((UpdateSubjectOp, map[]))
    ensures Route("OPTIONS", "/subjects") == Some((GetSubjectsOp, map[]))
    ensures Route("GET", "/subjects") == Some((GetSubjectsOp, map[]))
    ensures Route("GET", "/subject") == None
    ensures Route("GET", "/metrics") == None
  {
  }

  /** Every DELETE of /subject/<id> reaches the delete route with that id. */
  lemma RouteDelete(id: string)
    requires id != "" && '/' !in id
    ensures Route("DELETE", "/subject/" + id) == Some((DeleteSubjectOp, map["id" := id]))
  {
    var parts := ["", "subject", id];
    assert forall i :: 0 <= i < |parts| ==> '/' !in parts[i];
    SplitJoin(parts, '/');
    JoinThree("", "subject", id, '/');
    assert Join(parts, '/') == "/subject/" + id;
  }

  /** A DELETE routed by the router always reaches Atoi with the id it
      matched, so the delete decoder's `ok` flag is always true. */
  lemma RoutedDeleteHasId(path: string)
    requires Route("DELETE", path).Some?
    ensures PathId(Route("DELETE", path).value.1).1
  {
  }

  /** `MakeHTTPHandler(s, logger)`: the four servers over the endpoints
      of `MakeServerEndpoints(s)`, each behind `accessControl`. */
  datatype Router = Router(service: Service, oracle: Oracle, variant: Variant)
  {
    /** The handler registered for op. */
    function HandlerFor(op: Op): (h: Handler)
      ensures h.inner.endpoint == Endpoint(op, service)
      ensures h.inner.oracle == oracle && h.inner.variant == variant
    {
      var endpoints := MakeServerEndpoints(service);
      var e :=
        match op
        case GetSubjectsOp => endpoints.getSubjectsEndpoint
        case AddSubjectOp => endpoints.postSubjectEndpoint
        case UpdateSubjectOp => endpoints.putSubjectEndpoint
        case DeleteSubjectOp => endpoints.deleteSubjectEndpoint;
      AccessControl(Server(e, oracle, variant))
    }

    /** Dispatch by route; handled is false when no route of the subject API
        matches, and then nothing is written and the service is not called.
        A routed OPTIONS request gets the CORS headers only; any other
        routed request gets its server's reply, and the service is called
        exactly when the route's decoder succeeds. */
    method ServeHTTP(w: ResponseWriter, r: HttpRequest) returns (handled: bool)
      modifies w, service.Repr()
      ensures handled <==> Route(r.httpMethod, r.path).Some?
      ensures !handled ==> unchanged(w) && Unobserved(service)
      ensures handled && r.httpMethod == "OPTIONS" ==>
              && w.header == WithCors(old(w.header), r)
              && w.status == old(w.status) && w.body == old(w.body)
              && Unobserved(service)
      ensures handled && r.httpMethod != "OPTIONS" ==>
              var op := Route(r.httpMethod, r.path).value.0;
              var routed := r.(vars := Route(r.httpMethod, r.path).value.1);
              var reply := Server(Endpoint(op, service), oracle, variant).Reply(routed);
              && w.header == WithCors(old(w.header), r)[ContentType := JsonContentType]
              && w.status == Settled(old(w.status), reply.status)
              && w.body == old(w.body) + [reply.payload]
              && (Decode(op, routed, oracle).Fail? ==> Unobserved(service))
              && (Decode(op, routed, oracle).Ok? ==>
                  Observed(service, op, Endpoint(op, service).Outcome(r.ctx, Decode(op, routed, oracle).value).0.err))
    {
      match Route(r.httpMethod, r.path)
      case None =>
        handled := false;
      case Some((op, vars)) =>
        handled := true;
        var routed := r.(vars := vars);
        assert AllowOrigin(routed) == AllowOrigin(r);
        HandlerFor(op).ServeHTTP(w, routed);
    }
  }

  /** `MakeHTTPHandler(s, logger)`: every route is served by the closure of
      `MakeServerEndpoints(s)` for its operation. */
  function MakeHTTPHandler(s: Service, o: Oracle, v: Variant): (router: Router)
    ensures router.service == s && router.oracle == o && router.variant == v
    ensures forall op :: router.HandlerFor(op).inner.endpoint == Endpoint(op, s)
    ensures var e := MakeServerEndpoints(s);
            && router.HandlerFor(GetSubjectsOp).inner.endpoint == e.getSubjectsEndpoint
            && router.HandlerFor(AddSubjectOp).inner.endpoint == e.postSubjectEndpoint
            && router.HandlerFor(UpdateSubjectOp).inner.endpoint == e.putSubjectEndpoint
            && router.HandlerFor(DeleteSubjectOp).inner.endpoint == e.deleteSubjectEndpoint
  {
    Router(s, o, v)
  }
}
