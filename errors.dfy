/** Go's `error` values as the service uses them: the package's sentinel
    errors, opaque errors, and errors that wrap others, with `errors.Is`
    as a search of the wrap tree. A nil error is `None`. */
module Errors {

  datatype Option<+T> = None | Some(value: T)

  /** A value or the error that replaced it (Go's `(T, error)` pairs). */
  datatype Result<+T> = Ok(value: T) | Fail(error: Error)

  /** The sentinel errors declared at package level in internal/transport.go. */
  datatype Sentinel =
    | ErrBadRouting
    | ErrNotFound
    | ErrAlreadyExists
    | ErrInconsistentIDs
    | ErrForbidden
    | ErrPreconditionRequired

  /** A non-nil Go error. */
  datatype Error =
    | SentinelError(tag: Sentinel)           // one of the package's errors.New values
    | Other(text: string)                    // an error that wraps nothing (errors.New, fmt.Errorf with %v, strconv)
    | Wrapped(prefix: string, inner: Error)  // fmt.Errorf(prefix + "%w", inner): one %w, at the end
    | Joined(errs: seq<Error>)               // errors.Join: the messages joined by newlines

  /** The text `errors.New` gave each sentinel. */
  function SentinelText(t: Sentinel): string
  {
    match t
    case ErrBadRouting => "inconsistent mapping between route and handler (programmer error)"
    case ErrNotFound => "not found"
    case ErrAlreadyExists => "this row is already exists"
    case ErrInconsistentIDs => "inconsistent IDs"
    case ErrForbidden => "role is not administrator"
    case ErrPreconditionRequired => "header get authorization"
  }

  /** `err.Error()`. */
  function Message(err: Error): string
    decreases err, 1
  {
    match err
    case SentinelError(t) => SentinelText(t)
    case Other(text) => text
    case Wrapped(prefix, inner) => prefix + Message(inner)
    case Joined(errs) => JoinedMessage(errs)
  }

  /** The messages of a joined error, one per line. */
  function JoinedMessage(errs: seq<Error>): string
    decreases errs, 0
  {
    if errs == [] then ""
    else if |errs| == 1 then Message(errs[0])
    else Message(errs[0]) + "\n" + JoinedMessage(errs[1..])
  }

  /** `errors.Is(err, target)`: target is found by unwrapping err, depth first. */
  function Is(err: Error, target: Sentinel): bool
  {
    match err
    case SentinelError(t) => t == target
    case Other(_) => false
    case Wrapped(_, inner) => Is(inner, target)
    case Joined(errs) => exists i :: 0 <= i < |errs| && Is(errs[i], target)
  }

  /** Every sentinel that occurs anywhere in the wrap tree of err
      (a definition independent of the search order of `Is`). */
  function Sentinels(err: Error): set<Sentinel>
    decreases err, 1
  {
    match err
    case SentinelError(t) => {t}
    case Other(_) => {}
    case Wrapped(_, inner) => Sentinels(inner)
    case Joined(errs) => SentinelsOf(errs)
  }

  function SentinelsOf(errs: seq<Error>): set<Sentinel>
    decreases errs, 0
  {
    if errs == [] then {} else Sentinels(errs[0]) + SentinelsOf(errs[1..])
  }

  /** `errors.Is` finds a sentinel exactly when it occurs in the wrap tree. */
  lemma {:induction false} IsIffSentinel(err: Error, target: Sentinel)
    ensures Is(err, target) <==> target in Sentinels(err)
    decreases err, 1
  {
    match err
    case SentinelError(_) =>
    case Other(_) =>
    case Wrapped(_, inner) => IsIffSentinel(inner, target);
    case Joined(errs) => IsIffSentinelOf(errs, target);
  }

  lemma {:induction false} IsIffSentinelOf(errs: seq<Error>, target: Sentinel)
    ensures (exists i :: 0 <= i < |errs| && Is(errs[i], target)) <==> target in SentinelsOf(errs)
    decreases errs, 0
  {
    if errs != [] {
      IsIffSentinel(errs[0], target);
      IsIffSentinelOf(errs[1..], target);
      if target in SentinelsOf(errs[1..]) {
        var i :| 0 <= i < |errs[1..]| && Is(errs[1..][i], target);
        assert Is(errs[i + 1], target);
      }
      if exists i :: 0 <= i < |errs| && Is(errs[i], target) {
        var i :| 0 <= i < |errs| && Is(errs[i], target);
        if i > 0 {
          assert Is(errs[1..][i - 1], target);
        }
      }
    }
  }
}
