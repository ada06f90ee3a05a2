/** The go-kit endpoint adapters (internal/endpoint.go): one server-side
    endpoint per Service method, which turns a request struct into a call
    and the call's result into a response struct, and the client-side
    `Endpoints` methods, which unwrap those responses again.

    An `endpoint.Endpoint` is a Go closure over the service; here it is
    the value `Endpoint(op, service)`, which names the closure by the
    operation it was made for. */
module Endpoint {
  import opened Errors
  import opened App
  import opened Middleware

  /** The request structs. */
  datatype Request =
    | GetSubjectsRequest(user: string, role: string)
    | PostSubjectRequest(subject: Subject)
    | PutSubjectRequest(subject: Subject)
    | DeleteSubjectRequest(id: int)

  /** The response structs; each carries the error the service returned. */
  datatype Response =
    | GetSubjectsResponse(subjects: seq<Subject>, err: Option<Error>)
    | PostSubjectResponse(err: Option<Error>)
    | PutSubjectResponse(err: Option<Error>)
    | DeleteSubjectResponse(err: Option<Error>)

  /** The operation whose closure builds this kind of response. */
  function ResponseOp(response: Response): Op
  {
    match response
    case GetSubjectsResponse(_, _) => GetSubjectsOp
    case PostSubjectResponse(_) => AddSubjectOp
    case PutSubjectResponse(_) => UpdateSubjectOp
    case DeleteSubjectResponse(_) => DeleteSubjectOp
  }

  /** The requests the closure for op can take. The GET closure ignores its
      request; the other three type-assert it (a panic on any other type). */
  predicate Accepts(op: Op, request: Request)
  {
    match op
    case GetSubjectsOp => true
    case AddSubjectOp => request.PostSubjectRequest?
    case UpdateSubjectOp => request.PutSubjectRequest?
    case DeleteSubjectOp => request.DeleteSubjectRequest?
  }

  /** `Make<op>Endpoint(service)`, the closure as a value. */
  datatype Endpoint = Endpoint(op: Op, service: Service)
  {
    /** The service call the closure makes for a request. */
    function CallFor(request: Request): (c: Call)
      requires Accepts(op, request)
      ensures c.Op() == op
    {
      match op
      case GetSubjectsOp => GetSubjectsCall
      case AddSubjectOp => AddSubjectCall(request.subject)
      case UpdateSubjectOp => UpdateSubjectCall(request.subject)
      case DeleteSubjectOp => DeleteSubjectCall(request.id)
    }

    /** What the closure returns for a request: the response and the
        transport error. The transport error is always nil, the response
        is the one for this operation, and it carries exactly what the
        store at the bottom of the service answered, for the request's own
        arguments. */
    function Outcome(ctx: Context, request: Request): (r: (Response, Option<Error>))
      requires Accepts(op, request)
      ensures r.1 == None
      ensures ResponseOp(r.0) == op
      ensures op == GetSubjectsOp ==>
        r.0 == GetSubjectsResponse(service.Base().getSubjects(ctx).0, service.Base().getSubjects(ctx).1)
      ensures op == AddSubjectOp ==> r.0 == PostSubjectResponse(service.Base().addSubject(ctx, request.subject))
      ensures op == UpdateSubjectOp ==> r.0 == PutSubjectResponse(service.Base().updateSubject(ctx, request.subject))
      ensures op == DeleteSubjectOp ==> r.0 == DeleteSubjectResponse(service.Base().deleteSubject(ctx, request.id))
    {
      var reply := Answer(service.Base(), ctx, CallFor(request));
      var response :=
        match op
        case GetSubjectsOp => GetSubjectsResponse(reply.subjects, reply.err)
        case AddSubjectOp => PostSubjectResponse(reply.err)
        case UpdateSubjectOp => PutSubjectResponse(reply.err)
        case DeleteSubjectOp => DeleteSubjectResponse(reply.err);
      (response, None)
    }

    /** Calling the closure: it calls the matching service method, so the
        decorators of the service observe the call, and wraps the result. */
    method Serve(ctx: Context, request: Request) returns (response: Response, err: Option<Error>)
      requires Accepts(op, request)
      modifies service.Repr()
      ensures (response, err) == Outcome(ctx, request)
      ensures Observed(service, op, response.err)
    {
      match op
      case GetSubjectsOp =>
        var t, e := service.GetSubjects(ctx);
        response, err := GetSubjectsResponse(t, e), None;
      case AddSubjectOp =>
        var e := service.AddSubject(ctx, request.subject);
        response, err := PostSubjectResponse(e), None;
      case UpdateSubjectOp =>
        var e := service.UpdateSubject(ctx, request.subject);
        response, err := PutSubjectResponse(e), None;
      case DeleteSubjectOp =>
        var e := service.DeleteSubject(ctx, request.id);
        response, err := DeleteSubjectResponse(e), None;
    }
  }

  /** `MakeGetSubjectsEndpoint(s)`: whatever the request, the closure
      answers with the store's subjects and error, and a nil error. */
  function MakeGetSubjectsEndpoint(s: Service): (e: Endpoint)
    ensures e.op == GetSubjectsOp && e.service == s
    ensures forall ctx, request :: e.Outcome(ctx, request) ==
              (GetSubjectsResponse(s.Base().getSubjects(ctx).0, s.Base().getSubjects(ctx).1), None)
  {
    Endpoint(GetSubjectsOp, s)
  }

  /** `MakePostSubjectEndpoint(s)`: the closure adds the request's subject
      and carries the store's error in the response. */
  function MakePostSubjectEndpoint(s: Service): (e: Endpoint)
    ensures e.op == AddSubjectOp && e.service == s
    ensures forall ctx, subject :: e.Outcome(ctx, PostSubjectRequest(subject)) ==
              (PostSubjectResponse(s.Base().addSubject(ctx, subject)), None)
  {
    Endpoint(AddSubjectOp, s)
  }

  /** `MakePutSubjectEndpoint(s)`: the closure updates with the request's
      subject and carries the store's error in the response. */
  function MakePutSubjectEndpoint(s: Service): (e: Endpoint)
    ensures e.op == UpdateSubjectOp && e.service == s
    ensures forall ctx, subject :: e.Outcome(ctx, PutSubjectRequest(subject)) ==
              (PutSubjectResponse(s.Base().updateSubject(ctx, subject)), None)
  {
    Endpoint(UpdateSubjectOp, s)
  }

  /** `MakeDeleteSubjectEndpoint(s)`: the closure deletes the request's id
      and carries the store's error in the response. */
  function MakeDeleteSubjectEndpoint(s: Service): (e: Endpoint)
    ensures e.op == DeleteSubjectOp && e.service == s
    ensures forall ctx, id ::
              e.Outcome(ctx, DeleteSubjectRequest(id)) == (DeleteSubjectResponse(s.Base().deleteSubject(ctx, id)), None)
  {
    Endpoint(DeleteSubjectOp, s)
  }

  /** The client side of GetSubjects: an empty list and the endpoint's
      error when the endpoint failed, otherwise the response's fields. */
  function UnwrapGetSubjects(response: Response, err: Option<Error>): (r: (seq<Subject>, Option<Error>))
    requires err.Some? || response.GetSubjectsResponse?
    ensures err.Some? ==> r == ([], err)
    ensures err.None? ==> r == (response.subjects, response.err)
  {
    match err
    case Some(_) => ([], err)
    case None => (response.subjects, response.err)
  }

  /** The client side of the other three methods: the endpoint's error
      when there is one, otherwise the response's. */
  function UnwrapError(response: Response, err: Option<Error>): (r: Option<Error>)
    ensures err.Some? ==> r == err
    ensures err.None? ==> r == response.err
  {
    match err
    case Some(_) => err
    case None => response.err
  }

  /** The `Endpoints` struct. */
  datatype Endpoints = Endpoints(
    getSubjectsEndpoint: Endpoint,
    postSubjectEndpoint: Endpoint,
    putSubjectEndpoint: Endpoint,
    deleteSubjectEndpoint: Endpoint)
  {
    /** Each slot holds the closure for its own operation, so the client
        methods' type assertions succeed. */
    predicate Valid()
    {
      && getSubjectsEndpoint.op == GetSubjectsOp
      && postSubjectEndpoint.op == AddSubjectOp
      && putSubjectEndpoint.op == UpdateSubjectOp
      && deleteSubjectEndpoint.op == DeleteSubjectOp
    }

    /** What the client methods return. */
    function GetSubjectsOutcome(ctx: Context): (seq<Subject>, Option<Error>)
      requires Valid()
    {
      var (response, err) := getSubjectsEndpoint.Outcome(ctx, GetSubjectsRequest("", ""));
      UnwrapGetSubjects(response, err)
    }

    function PostSubjectOutcome(ctx: Context, subject: Subject): Option<Error>
      requires Valid()
    {
      var (response, err) := postSubjectEndpoint.Outcome(ctx, PostSubjectRequest(subject));
      UnwrapError(response, err)
    }

    function PutSubjectOutcome(ctx: Context, subject: Subject): Option<Error>
      requires Valid()
    {
      var (response, err) := putSubjectEndpoint.Outcome(ctx, PutSubjectRequest(subject));
      UnwrapError(response, err)
    }

    function DeleteSubjectOutcome(ctx: Context, id: int): Option<Error>
      requires Valid()
    {
      var (response, err) := deleteSubjectEndpoint.Outcome(ctx, DeleteSubjectRequest(id));
      UnwrapError(response, err)
    }

    method GetSubjects(ctx: Context) returns (subjects: seq<Subject>, err: Option<Error>)
      requires Valid()
      modifies getSubjectsEndpoint.service.Repr()
      ensures (subjects, err) == GetSubjectsOutcome(ctx)
      ensures Observed(getSubjectsEndpoint.service, GetSubjectsOp, err)
    {
      var response, e := getSubjectsEndpoint.Serve(ctx, GetSubjectsRequest("", ""));
      subjects, err := UnwrapGetSubjects(response, e).0, UnwrapGetSubjects(response, e).1;
    }

    method PostSubject(ctx: Context, subject: Subject) returns (err: Option<Error>)
      requires Valid()
      modifies postSubjectEndpoint.service.Repr()
      ensures err == PostSubjectOutcome(ctx, subject)
      ensures Observed(postSubjectEndpoint.service, AddSubjectOp, err)
    {
      var response, e := postSubjectEndpoint.Serve(ctx, PostSubjectRequest(subject));
      err := UnwrapError(response, e);
    }

    method PutSubject(ctx: Context, subject: Subject) returns (err: Option<Error>)
      requires Valid()
      modifies putSubjectEndpoint.service.Repr()
      ensures err == PutSubjectOutcome(ctx, subject)
      ensures Observed(putSubjectEndpoint.service, UpdateSubjectOp, err)
    {
      var response, e := putSubjectEndpoint.Serve(ctx, PutSubjectRequest(subject));
      err := UnwrapError(response, e);
    }

    method DeleteSubject(ctx: Context, id: int) returns (err: Option<Error>)
      requires Valid()
      modifies deleteSubjectEndpoint.service.Repr()
      ensures err == DeleteSubjectOutcome(ctx, id)
      ensures Observed(deleteSubjectEndpoint.service, DeleteSubjectOp, err)
    {
      var response, e := deleteSubjectEndpoint.Serve(ctx, DeleteSubjectRequest(id));
      err := UnwrapError(response, e);
    }
  }

  /** `MakeServerEndpoints(s)`: the four closures over the same service. */
  function MakeServerEndpoints(s: Service): (e: Endpoints)
    ensures e.Valid()
    ensures e.getSubjectsEndpoint.service == s && e.postSubjectEndpoint.service == s
    ensures e.putSubjectEndpoint.service == s && e.deleteSubjectEndpoint.service == s
  {
    Endpoints(MakeGetSubjectsEndpoint(s), MakePostSubjectEndpoint(s),
              MakePutSubjectEndpoint(s), MakeDeleteSubjectEndpoint(s))
  }

  /** Client over server is the service itself: each client method of
      `MakeServerEndpoints(s)` returns what the matching method of s returns. */
  lemma RoundTrip(s: Service, ctx: Context, subject: Subject, id: int)
    ensures MakeServerEndpoints(s).GetSubjectsOutcome(ctx) == s.Base().getSubjects(ctx)
    ensures MakeServerEndpoints(s).PostSubjectOutcome(ctx, subject) == s.Base().addSubject(ctx, subject)
    ensures MakeServerEndpoints(s).PutSubjectOutcome(ctx, subject) == s.Base().updateSubject(ctx, subject)
    ensures MakeServerEndpoints(s).DeleteSubjectOutcome(ctx, id) == s.Base().deleteSubject(ctx, id)
  {
  }
}
