/**
 * The completion coordinator that `multipart()` builds per request (index.js:116-165), as a pure
 * state machine. Its state is the four closure variables `completed`, `files`, `count` and
 * `callDoneOnNextEos`, plus whether the parser stream was destroyed and three ghost records:
 * whether Busboy's `finish` was seen, which parts' end-of-stream observers have fired, and the
 * log of calls made to the caller's `done`.
 *
 * The class `Multipart.Session` runs the same machine in place and is proved against `Step`.
 */
module Coordinator {
  import opened Wrappers

  /** One invocation of the caller's `done`. */
  datatype Call =
    | Immediate         // `done()` called synchronously from the last part's drain
    | Scheduled         // `setImmediate(done)` from the `finish` handler
    | Failed(err: Error) // `done(err)`
  {
    predicate IsSuccess() { !Failed? }
  }

  /** What Busboy, end-of-stream and the request stream can report to the coordinator. */
  datatype Event =
    | Discover                              // Busboy `file` event, handled by `wrap`
    | Drain(part: nat, failure: Option<Error>) // end-of-stream observer of part `part` (`waitForFiles`)
    | Finish                                // Busboy `finish`
    | RequestError(err: Error)              // `error` on the raw request

  datatype State = State(
    completed: bool,
    files: nat,
    count: nat,
    callDoneOnNextEos: bool,
    destroyed: bool,     // `stream.destroy()` was called on the parser
    finished: bool,      // Busboy's `finish` has been seen
    ended: set<nat>,     // parts whose end-of-stream observer has fired
    log: seq<Call>)      // every call to `done`, in order

  /** The state right after `multipart()` has set up the parser (index.js:116-119). */
  function Init(): (r: State)
  {
    State(false, 0, 0, false, false, false, {}, [])
  }

  /**
   * The guarantees of the collaborators that are out of the model: Busboy discovers no part
   * after `finish`, and each part's end-of-stream observer fires at most once, for a part
   * that was discovered.
   */
  predicate Enabled(s: State, e: Event)
  {
    match e
    case Discover => !s.finished
    case Drain(p, _) => p < s.files && p !in s.ended
    case Finish => true
    case RequestError(_) => true
  }

  /** `wrap` (index.js:143-148): count the part before its observer is attached. */
  function DiscoverStep(s: State): (r: State)
  {
    s.(files := s.files + 1)
  }

  /** `waitForFiles` (index.js:150-166) for part `p`. */
  function DrainStep(s: State, p: nat, err: Option<Error>): (r: State)
  {
    var s' := s.(ended := s.ended + {p});
    if err.Some? then
      s'.(completed := true, log := s.log + [Failed(err.value)])
    else if s.completed then
      s'
    else if s.callDoneOnNextEos && s.count + 1 == s.files then
      s'.(count := s.count + 1, completed := true, log := s.log + [Immediate])
    else
      s'.(count := s.count + 1)
  }

  /** The `finish` handler (index.js:129-137). */
  function FinishStep(s: State): (r: State)
  {
    var s' := s.(finished := true);
    if !s.completed && s.count == s.files then
      s'.(completed := true, log := s.log + [Scheduled])
    else
      s'.(callDoneOnNextEos := true)
  }

  /** The request's `error` handler (index.js:121-127). */
  function RequestErrorStep(s: State, err: Error): (r: State)
  {
    var s' := s.(destroyed := true);
    if !s.completed then
      s'.(completed := true, log := s.log + [Failed(err)])
    else
      s'
  }

  function Step(s: State, e: Event): (r: State)
  {
    match e
    case Discover => DiscoverStep(s)
    case Drain(p, err) => DrainStep(s, p, err)
    case Finish => FinishStep(s)
    case RequestError(err) => RequestErrorStep(s, err)
  }

  /** The state after the events `t`, in order. */
  function Run(s: State, t: seq<Event>): (r: State)
    decreases |t|
  {
    if t == [] then s else Run(Step(s, t[0]), t[1..])
  }

  /** Every event of `t` is one the collaborators can produce at that point. */
  predicate Admissible(s: State, t: seq<Event>)
    decreases |t|
  {
    t == [] || (Enabled(s, t[0]) && Admissible(Step(s, t[0]), t[1..]))
  }

  /** Neither a part nor the request reports an error. */
  predicate Clean(t: seq<Event>)
  {
    forall i :: 0 <= i < |t| ==> !t[i].RequestError? && !(t[i].Drain? && t[i].failure.Some?)
  }

  /** How many `finish` events `t` holds. */
  function Finishes(t: seq<Event>): (n: nat)
  {
    if t == [] then 0 else (if t[0].Finish? then 1 else 0) + Finishes(t[1..])
  }

  /** The `done(err)` call a part error makes, if `e` is one. */
  function PartErrorCall(e: Event): (r: seq<Call>)
  {
    if e.Drain? && e.failure.Some? then [Failed(e.failure.value)] else []
  }

  /** The `done(err)` calls that the part errors of `t` make, in order. */
  function PartErrorCalls(t: seq<Event>): (r: seq<Call>)
  {
    if t == [] then [] else PartErrorCall(t[0]) + PartErrorCalls(t[1..])
  }

  /** How many success calls a log holds. */
  function Successes(log: seq<Call>): (n: nat)
  {
    if log == [] then 0 else (if log[0].IsSuccess() then 1 else 0) + Successes(log[1..])
  }

  /**
   * The invariant every reachable state keeps. `count` never exceeds the number of observers
   * that fired, which never exceeds `files`; the latch is only set by `finish` and, while the
   * request is not complete, only when a part is still pending; `completed` is set exactly when
   * `done` has been called; only the first call can be a success, a success means `finish`
   * was seen and every discovered part drained, and no call follows a success.
   */
  ghost predicate Inv(s: State)
  {
    && (forall p :: p in s.ended ==> p < s.files)
    && s.count <= |s.ended|
    && (s.callDoneOnNextEos ==> s.finished)
    && (s.finished && !s.completed ==> s.callDoneOnNextEos)
    && (s.callDoneOnNextEos && !s.completed ==> s.count < s.files)
    && (s.completed <==> s.log != [])
    && (forall i :: 0 < i < |s.log| ==> s.log[i].Failed?)
    && (s.log != [] && s.log[0].IsSuccess() ==> s.finished && s.count == s.files && |s.log| == 1)
  }
}
