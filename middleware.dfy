/** The four-operation Service interface (internal/service.go) and its
    logging and instrumenting decorators (internal/middleware.go).

    The decorators never change their own fields; what changes is the
    logger, the request counter and the latency histogram they point to,
    so those three are classes and the decorator chain is a value. The
    persistence layer at the bottom of the chain is an oracle: its answers
    are fixed functions of the request context and the arguments. */
module Middleware {
  import opened Errors
  import opened App

  /** The request's context.Context, opaque. */
  datatype Context = Context(id: nat)

  /** The persistence service (userService), as the answers it gives. */
  datatype Store = Store(
    getSubjects: Context -> (seq<Subject>, Option<Error>),
    addSubject: (Context, Subject) -> Option<Error>,
    updateSubject: (Context, Subject) -> Option<Error>,
    deleteSubject: (Context, int) -> Option<Error>)

  /** The four operations of the Service interface. */
  datatype Op = GetSubjectsOp | AddSubjectOp | UpdateSubjectOp | DeleteSubjectOp {

    /** The message the logging decorator logs for this operation. */
    function LogMessage(): string
    {
      match this
      case GetSubjectsOp => "method == GetSubjects"
      case AddSubjectOp => "method == AddSubject"
      case UpdateSubjectOp => "method == UpdateSubject"
      case DeleteSubjectOp => "method == DeleteSubject"
    }

    /** The `method` label the instrumenting decorator uses. */
    function MetricName(): string
    {
      match this
      case GetSubjectsOp => "getSubjects"
      case AddSubjectOp => "addSubject"
      case UpdateSubjectOp => "updateSubject"
      case DeleteSubjectOp => "deleteSubject"
    }
  }

  /** `fmt.Sprint(b)` for a bool. */
  function FormatBool(b: bool): string
  {
    if b then "true" else "false"
  }

  /** The label values `[method, <name>, error, <err != nil>]`. */
  function Lvs(op: Op, failed: bool): seq<string>
  {
    ["method", op.MetricName(), "error", FormatBool(failed)]
  }

  /** Different operations or error flags never share a label tuple. */
  lemma LvsInjective(op1: Op, failed1: bool, op2: Op, failed2: bool)
    ensures Lvs(op1, failed1) == Lvs(op2, failed2) <==> op1 == op2 && failed1 == failed2
  {
    if Lvs(op1, failed1) == Lvs(op2, failed2) {
      assert Lvs(op1, failed1)[1] == Lvs(op2, failed2)[1];
      assert Lvs(op1, failed1)[3] == Lvs(op2, failed2)[3];
    }
  }

  /** One logrus entry at Info level: its message and its "error" field. */
  datatype LogRecord = LogRecord(message: string, error: Option<Error>)

  /** The logrus logger, as the sequence of entries written to it. */
  class Logger {
    var records: seq<LogRecord>

    constructor ()
      ensures records == []
    {
      records := [];
    }

    /** `logger.WithFields({"error": err}).Info(message)`. */
    method Info(message: string, err: Option<Error>)
      modifies this
      ensures records == old(records) + [LogRecord(message, err)]
    {
      records := records + [LogRecord(message, err)];
    }
  }

  /** The count stored under a label tuple, 0 when there is none. */
  function CountOf(m: map<seq<string>, nat>, lvs: seq<string>): nat
  {
    if lvs in m then m[lvs] else 0
  }

  /** m after adding n under lvs. */
  function Bump(m: map<seq<string>, nat>, lvs: seq<string>, n: nat): (r: map<seq<string>, nat>)
    ensures CountOf(r, lvs) == CountOf(m, lvs) + n
    ensures forall k :: k != lvs ==> CountOf(r, k) == CountOf(m, k)
    ensures r.Keys <= m.Keys + {lvs}
  {
    if n == 0 then m else m[lvs := CountOf(m, lvs) + n]
  }

  /** The request counter, one count per label tuple. */
  class Counter {
    var counts: map<seq<string>, nat>

    constructor ()
      ensures counts == map[]
    {
      counts := map[];
    }

    /** `requestCount.With(lvs...).Add(delta)`. */
    method Add(lvs: seq<string>, delta: nat)
      modifies this
      ensures counts == Bump(old(counts), lvs, delta)
    {
      counts := Bump(counts, lvs, delta);
    }
  }

  /** The latency histogram, as the number of observations per label tuple
      (the observed durations are not modelled). */
  class Histogram {
    var observations: map<seq<string>, nat>

    constructor ()
      ensures observations == map[]
    {
      observations := map[];
    }

    /** `requestLatency.With(lvs...).Observe(...)`. */
    method Observe(lvs: seq<string>)
      modifies this
      ensures observations == Bump(old(observations), lvs, 1)
    {
      observations := Bump(observations, lvs, 1);
    }
  }

  function Repeat<T>(x: T, n: nat): (r: seq<T>)
    ensures |r| == n && forall i :: 0 <= i < n ==> r[i] == x
  {
    if n == 0 then [] else [x] + Repeat(x, n - 1)
  }

  lemma RepeatSucc<T>(x: T, n: nat)
    ensures Repeat(x, n) + [x] == Repeat(x, n + 1)
  {
    assert Repeat(x, n) + [x] == Repeat(x, n + 1);
  }

  lemma BumpTwice(m: map<seq<string>, nat>, lvs: seq<string>, a: nat, b: nat)
    ensures Bump(Bump(m, lvs, a), lvs, b) == Bump(m, lvs, a + b)
  {
  }

  /** One call of the Service interface, with its arguments. */
  datatype Call =
    | GetSubjectsCall
    | AddSubjectCall(subject: Subject)
    | UpdateSubjectCall(subject: Subject)
    | DeleteSubjectCall(id: int)
  {
    function Op(): Op
    {
      match this
      case GetSubjectsCall => GetSubjectsOp
      case AddSubjectCall(_) => AddSubjectOp
      case UpdateSubjectCall(_) => UpdateSubjectOp
      case DeleteSubjectCall(_) => DeleteSubjectOp
    }
  }

  /** What a call returns: the subjects (for GetSubjects; empty for the
      other three operations, which return only an error) and the error. */
  datatype Reply = Reply(subjects: seq<Subject>, err: Option<Error>)

  /** The store's answer to a call. */
  function Answer(store: Store, ctx: Context, call: Call): (r: Reply)
    ensures !call.GetSubjectsCall? ==> r.subjects == []
  {
    match call
    case GetSubjectsCall => Reply(store.getSubjects(ctx).0, store.getSubjects(ctx).1)
    case AddSubjectCall(subject) => Reply([], store.addSubject(ctx, subject))
    case UpdateSubjectCall(subject) => Reply([], store.updateSubject(ctx, subject))
    case DeleteSubjectCall(id) => Reply([], store.deleteSubject(ctx, id))
  }

  datatype Layer = BasicLayer | LoggingLayer | InstrumentingLayer

  /** A value of the Service interface: the persistence oracle, possibly
      wrapped in decorators. */
  datatype Service =
    | Basic(store: Store)
    | Logging(lm: LoggingMiddlewareImpl)
    | Instrumenting(im: InstrumentingMiddlewareImpl)
  {
    /** The persistence service at the bottom of the chain. */
    function Base(): Store
    {
      match this
      case Basic(store) => store
      case Logging(lm) => lm.next.Base()
      case Instrumenting(im) => im.next.Base()
    }

    function Loggers(): set<Logger>
    {
      match this
      case Basic(_) => {}
      case Logging(lm) => {lm.logger} + lm.next.Loggers()
      case Instrumenting(im) => im.next.Loggers()
    }

    function Counters(): set<Counter>
    {
      match this
      case Basic(_) => {}
      case Logging(lm) => lm.next.Counters()
      case Instrumenting(im) => {im.requestCount} + im.next.Counters()
    }

    function Histograms(): set<Histogram>
    {
      match this
      case Basic(_) => {}
      case Logging(lm) => lm.next.Histograms()
      case Instrumenting(im) => {im.requestLatency} + im.next.Histograms()
    }

    /** Every object a call through this chain may change. */
    function Repr(): set<object>
    {
      var loggers: set<object> := Loggers();
      var counters: set<object> := Counters();
      var histograms: set<object> := Histograms();
      loggers + counters + histograms
    }

    /** How many logging layers of the chain write to l. */
    function LogUses(l: Logger): nat
    {
      match this
      case Basic(_) => 0
      case Logging(lm) => (if lm.logger == l then 1 else 0) + lm.next.LogUses(l)
      case Instrumenting(im) => im.next.LogUses(l)
    }

    /** How many instrumenting layers of the chain count into c. */
    function CounterUses(c: Counter): nat
    {
      match this
      case Basic(_) => 0
      case Logging(lm) => lm.next.CounterUses(c)
      case Instrumenting(im) => (if im.requestCount == c then 1 else 0) + im.next.CounterUses(c)
    }

    /** How many instrumenting layers of the chain observe into h. */
    function HistogramUses(h: Histogram): nat
    {
      match this
      case Basic(_) => 0
      case Logging(lm) => lm.next.HistogramUses(h)
      case Instrumenting(im) => (if im.requestLatency == h then 1 else 0) + im.next.HistogramUses(h)
    }

    /** The layers from the outside in, ending with the base. */
    function Layers(): seq<Layer>
    {
      match this
      case Basic(_) => [BasicLayer]
      case Logging(lm) => [LoggingLayer] + lm.next.Layers()
      case Instrumenting(im) => [InstrumentingLayer] + im.next.Layers()
    }

    /** An object the chain does not hold is not used by it. */
    lemma {:induction false} UsesOutside()
      ensures forall l :: l !in Loggers() ==> LogUses(l) == 0
      ensures forall c :: c !in Counters() ==> CounterUses(c) == 0
      ensures forall h :: h !in Histograms() ==> HistogramUses(h) == 0
    {
      match this
      case Basic(_) =>
      case Logging(lm) => lm.next.UsesOutside();
      case Instrumenting(im) => im.next.UsesOutside();
    }

    /** A call through the chain: the base's answer, observed by every layer. */
    method Invoke(ctx: Context, call: Call) returns (reply: Reply)
      modifies Repr()
      ensures reply == Answer(Base(), ctx, call)
      ensures Observed(this, call.Op(), reply.err)
      decreases this
    {
      match this
      case Basic(store) => reply := Answer(store, ctx, call);
      case Logging(lm) => reply := lm.Invoke(ctx, call);
      case Instrumenting(im) => reply := im.Invoke(ctx, call);
    }

    // The four methods of the Service interface.

    method GetSubjects(ctx: Context) returns (subjects: seq<Subject>, err: Option<Error>)
      modifies Repr()
      ensures (subjects, err) == Base().getSubjects(ctx)
      ensures Observed(this, GetSubjectsOp, err)
    {
      var reply := Invoke(ctx, GetSubjectsCall);
      subjects, err := reply.subjects, reply.err;
    }

    method AddSubject(ctx: Context, subject: Subject) returns (err: Option<Error>)
      modifies Repr()
      ensures err == Base().addSubject(ctx, subject)
      ensures Observed(this, AddSubjectOp, err)
    {
      var reply := Invoke(ctx, AddSubjectCall(subject));
      err := reply.err;
    }

    method UpdateSubject(ctx: Context, subject: Subject) returns (err: Option<Error>)
      modifies Repr()
      ensures err == Base().updateSubject(ctx, subject)
      ensures Observed(this, UpdateSubjectOp, err)
    {
      var reply := Invoke(ctx, UpdateSubjectCall(subject));
      err := reply.err;
    }

    method DeleteSubject(ctx: Context, id: int) returns (err: Option<Error>)
      modifies Repr()
      ensures err == Base().deleteSubject(ctx, id)
      ensures Observed(this, DeleteSubjectOp, err)
    {
      var reply := Invoke(ctx, DeleteSubjectCall(id));
      err := reply.err;
    }
  }

  /** Each logger of s holds rec once more per logging layer that writes to it. */
  twostate predicate LogsObserved(s: Service, new rec: LogRecord)
    reads s.Loggers()
  {
    forall l :: l in s.Loggers() && old(allocated(l)) ==>
      l.records == old(l.records) + Repeat(rec, s.LogUses(l))
  }

  /** Each counter of s counts lvs once more per instrumenting layer that uses it. */
  twostate predicate CountsObserved(s: Service, lvs: seq<string>)
    reads s.Counters()
  {
    forall c :: c in s.Counters() && old(allocated(c)) ==>
      c.counts == Bump(old(c.counts), lvs, s.CounterUses(c))
  }

  /** Each histogram of s has one more observation under lvs per
      instrumenting layer that uses it. */
  twostate predicate LatenciesObserved(s: Service, lvs: seq<string>)
    reads s.Histograms()
  {
    forall h :: h in s.Histograms() && old(allocated(h)) ==>
      h.observations == Bump(old(h.observations), lvs, s.HistogramUses(h))
  }

  /** What one call of op that returned err leaves behind in the chain s:
      one log record per logging layer, one count and one latency
      observation per instrumenting layer, all labelled with op and with
      whether err is non-nil. The modifies clauses say nothing else changes. */
  twostate predicate Observed(s: Service, op: Op, new err: Option<Error>)
    reads s.Repr()
  {
    && LogsObserved(s, LogRecord(op.LogMessage(), err))
    && CountsObserved(s, Lvs(op, err.Some?))
    && LatenciesObserved(s, Lvs(op, err.Some?))
  }

  /** Nothing the chain s holds has changed: no record, count or observation. */
  twostate predicate Unobserved(s: Service)
    reads s.Repr()
  {
    && (forall l :: l in s.Loggers() && old(allocated(l)) ==> l.records == old(l.records))
    && (forall c :: c in s.Counters() && old(allocated(c)) ==> c.counts == old(c.counts))
    && (forall h :: h in s.Histograms() && old(allocated(h)) ==> h.observations == old(h.observations))
  }

  /** The logging decorator (loggingMiddleware). */
  datatype LoggingMiddlewareImpl = LoggingMiddlewareImpl(next: Service, logger: Logger)
  {
    /** The body shared by the four methods: delegate, then log one record
        naming the method and carrying the error it returned. */
    method Invoke(ctx: Context, call: Call) returns (reply: Reply)
      modifies Logging(this).Repr()
      ensures reply == Answer(next.Base(), ctx, call)
      ensures Observed(Logging(this), call.Op(), reply.err)
      decreases Logging(this), 0
    {
      reply := next.Invoke(ctx, call);
      label Inner:
      logger.Info(call.Op().LogMessage(), reply.err);
      ghost var s := Logging(this);
      ghost var rec := LogRecord(call.Op().LogMessage(), reply.err);
      ghost var lvs := Lvs(call.Op(), reply.err.Some?);
      next.UsesOutside();
      RepeatSucc(rec, next.LogUses(logger));
      forall l | l in s.Loggers() && old(allocated(l))
        ensures l.records == old(l.records) + Repeat(rec, s.LogUses(l))
      {
        if l != logger {
          assert l.records == old@Inner(l.records);
        }
      }
      forall c | c in s.Counters() && old(allocated(c))
        ensures c.counts == Bump(old(c.counts), lvs, s.CounterUses(c))
      {
        assert c.counts == old@Inner(c.counts);
      }
      forall h | h in s.Histograms() && old(allocated(h))
        ensures h.observations == Bump(old(h.observations), lvs, s.HistogramUses(h))
      {
        assert h.observations == old@Inner(h.observations);
      }
    }
  }

  /** The instrumenting decorator (instrumentingMiddleware). */
  datatype InstrumentingMiddlewareImpl = InstrumentingMiddlewareImpl(
    requestCount: Counter, requestLatency: Histogram, next: Service)
  {
    /** The body shared by the four methods: delegate, then add one to the
        counter and make one latency observation, both under the labels
        of the method and of whether the error it returned is non-nil. */
    method Invoke(ctx: Context, call: Call) returns (reply: Reply)
      modifies Instrumenting(this).Repr()
      ensures reply == Answer(next.Base(), ctx, call)
      ensures Observed(Instrumenting(this), call.Op(), reply.err)
      decreases Instrumenting(this), 0
    {
      reply := next.Invoke(ctx, call);
      label Inner:
      var lvs := Lvs(call.Op(), reply.err != None);
      requestCount.Add(lvs, 1);
      requestLatency.Observe(lvs);
      ghost var s := Instrumenting(this);
      ghost var rec := LogRecord(call.Op().LogMessage(), reply.err);
      next.UsesOutside();
      BumpTwice(old(requestCount.counts), lvs, next.CounterUses(requestCount), 1);
      BumpTwice(old(requestLatency.observations), lvs, next.HistogramUses(requestLatency), 1);
      forall l | l in s.Loggers() && old(allocated(l))
        ensures l.records == old(l.records) + Repeat(rec, s.LogUses(l))
      {
        assert l.records == old@Inner(l.records);
      }
      forall c | c in s.Counters() && old(allocated(c))
        ensures c.counts == Bump(old(c.counts), lvs, s.CounterUses(c))
      {
        if c != requestCount {
          assert c.counts == old@Inner(c.counts);
        }
      }
      forall h | h in s.Histograms() && old(allocated(h))
        ensures h.observations == Bump(old(h.observations), lvs, s.HistogramUses(h))
      {
        if h != requestLatency {
          assert h.observations == old@Inner(h.observations);
        }
      }
    }
  }

  /** Go's `Middleware`, a function from Service to Service. */
  type Middleware = Service -> Service

  /** `LoggingMiddleware(logger)`. */
  function LoggingMiddleware(logger: Logger): Middleware
  {
    next => Logging(LoggingMiddlewareImpl(next, logger))
  }

  /** `LoggingMiddleware(logger)(next)` puts one logging layer writing to
      logger in front of next, and changes nothing else about the chain. */
  lemma LoggingMiddlewareWraps(logger: Logger, next: Service)
    ensures LoggingMiddleware(logger)(next).Layers() == [LoggingLayer] + next.Layers()
    ensures LoggingMiddleware(logger)(next).Base() == next.Base()
    ensures LoggingMiddleware(logger)(next).Loggers() == {logger} + next.Loggers()
    ensures LoggingMiddleware(logger)(next).Counters() == next.Counters()
    ensures LoggingMiddleware(logger)(next).Histograms() == next.Histograms()
    ensures LoggingMiddleware(logger)(next).LogUses(logger) == next.LogUses(logger) + 1
    ensures forall l :: l != logger ==> LoggingMiddleware(logger)(next).LogUses(l) == next.LogUses(l)
    ensures forall c :: LoggingMiddleware(logger)(next).CounterUses(c) == next.CounterUses(c)
    ensures forall h :: LoggingMiddleware(logger)(next).HistogramUses(h) == next.HistogramUses(h)
  {
  }

  /** `InstrumentingMiddleware(requestCount, requestLatency)`. */
  function InstrumentingMiddleware(requestCount: Counter, requestLatency: Histogram): Middleware
  {
    next => Instrumenting(InstrumentingMiddlewareImpl(requestCount, requestLatency, next))
  }

  /** `InstrumentingMiddleware(c, h)(next)` puts one instrumenting layer
      counting into c and observing into h in front of next, and changes
      nothing else about the chain. */
  lemma InstrumentingMiddlewareWraps(requestCount: Counter, requestLatency: Histogram, next: Service)
    ensures InstrumentingMiddleware(requestCount, requestLatency)(next).Layers() == [InstrumentingLayer] + next.Layers()
    ensures InstrumentingMiddleware(requestCount, requestLatency)(next).Base() == next.Base()
    ensures InstrumentingMiddleware(requestCount, requestLatency)(next).Loggers() == next.Loggers()
    ensures InstrumentingMiddleware(requestCount, requestLatency)(next).Counters() == {requestCount} + next.Counters()
    ensures InstrumentingMiddleware(requestCount, requestLatency)(next).Histograms() == {requestLatency} + next.Histograms()
    ensures InstrumentingMiddleware(requestCount, requestLatency)(next).CounterUses(requestCount) ==
            next.CounterUses(requestCount) + 1
    ensures InstrumentingMiddleware(requestCount, requestLatency)(next).HistogramUses(requestLatency) ==
            next.HistogramUses(requestLatency) + 1
    ensures forall l :: InstrumentingMiddleware(requestCount, requestLatency)(next).LogUses(l) == next.LogUses(l)
    ensures forall c :: c != requestCount ==>
              InstrumentingMiddleware(requestCount, requestLatency)(next).CounterUses(c) == next.CounterUses(c)
    ensures forall h :: h != requestLatency ==>
              InstrumentingMiddleware(requestCount, requestLatency)(next).HistogramUses(h) == next.HistogramUses(h)
  {
  }

  /** `NewService`: the persistence service, then logging, then
      instrumenting, so the instrumenting layer is outermost. */
  function NewService(logger: Logger, requestCount: Counter, requestLatency: Histogram, store: Store): (s: Service)
    ensures s.Layers() == [InstrumentingLayer, LoggingLayer, BasicLayer]
    ensures s.Base() == store
    ensures s.Loggers() == {logger} && s.LogUses(logger) == 1
    ensures s.Counters() == {requestCount} && s.CounterUses(requestCount) == 1
    ensures s.Histograms() == {requestLatency} && s.HistogramUses(requestLatency) == 1
  {
    var base := Basic(store);
    assert base.Loggers() == {} && base.Counters() == {} && base.Histograms() == {};
    assert base.LogUses(logger) == 0 && base.Layers() == [BasicLayer];
    assert base.CounterUses(requestCount) == 0 && base.HistogramUses(requestLatency) == 0;
    var logged := LoggingMiddleware(logger)(base);
    LoggingMiddlewareWraps(logger, base);
    var svc := InstrumentingMiddleware(requestCount, requestLatency)(logged);
    InstrumentingMiddlewareWraps(requestCount, requestLatency, logged);
    svc
  }

  /** Through the service NewService builds, one call leaves exactly one log
      record, one count and one latency observation, all for that call. */
  twostate lemma NewServiceObservesOnce(logger: Logger, requestCount: Counter, requestLatency: Histogram,
                                        store: Store, op: Op, new err: Option<Error>)
    requires Observed(NewService(logger, requestCount, requestLatency, store), op, err)
    ensures logger.records == old(logger.records) + [LogRecord(op.LogMessage(), err)]
    ensures requestCount.counts == Bump(old(requestCount.counts), Lvs(op, err.Some?), 1)
    ensures forall lvs :: lvs != Lvs(op, err.Some?) ==>
              CountOf(requestCount.counts, lvs) == CountOf(old(requestCount.counts), lvs)
    ensures requestLatency.observations == Bump(old(requestLatency.observations), Lvs(op, err.Some?), 1)
  {
    var s := NewService(logger, requestCount, requestLatency, store);
    assert logger in s.Loggers() && requestCount in s.Counters() && requestLatency in s.Histograms();
    assert Repeat(LogRecord(op.LogMessage(), err), 1) == [LogRecord(op.LogMessage(), err)];
  }
}
