/**
 * `multipart(handler, done, opts)` (index.js:94-169): the entry guards, and the per-request
 * closure whose variables the event callbacks update in place. Busboy, end-of-stream and the
 * request stream are not modelled; each of their callbacks is a method of `Session`, and their
 * guarantees are the methods' preconditions. Calling the handler for a part is the caller's
 * business, after `Wrap` has counted the part.
 */
module Multipart {
  import opened Wrappers
  import opened Coordinator
  import CoordinatorProofs
  import Request

  /** What a call to `multipart` does before any parsing. */
  datatype Outcome =
    | Threw(message: string)  // a synchronous `throw new Error(message)`
    | Reported(call: Call)    // `done` was called at once and no parser was created
    | Parsing                 // a parser was created and piped

  const NOT_MULTIPART := Error("the request is not multipart")

  /** The closure of one `multipart()` call. */
  class Session {
    var completed: bool
    var files: nat
    var count: nat
    var callDoneOnNextEos: bool
    /** `stream.destroy()` has been called on the Busboy parser. */
    var destroyed: bool
    /** Busboy's `finish` has been seen. */
    ghost var finished: bool
    /** The parts whose end-of-stream observer has fired. */
    ghost var ended: set<nat>
    /** The calls made to `done`, in order. */
    ghost var log: seq<Call>

    ghost function Snapshot(): (s: State)
      reads this
    {
      State(completed, files, count, callDoneOnNextEos, destroyed, finished, ended, log)
    }

    ghost predicate Valid()
      reads this
    {
      Inv(Snapshot())
    }

    /** The four `var` declarations of index.js:116-119. */
    constructor ()
      ensures Valid() && Snapshot() == Init()
    {
      completed, files, count, callDoneOnNextEos, destroyed := false, 0, 0, false, false;
      finished, ended, log := false, {}, [];
      new;
      CoordinatorProofs.InitInv();
    }

    /**
     * `wrap`: Busboy reports a file part. Returns the number by which the part's end-of-stream
     * observer is known; the count is taken before the observer is attached and the handler
     * runs, so no drain can be reported for an uncounted part.
     */
    method Wrap() returns (part: nat)
      requires Valid() && !finished
      modifies this
      ensures Valid() && Snapshot() == Step(old(Snapshot()), Discover)
      ensures part == old(files) && files == old(files) + 1 && log == old(log)
    {
      CoordinatorProofs.StepPreservesInv(Snapshot(), Discover);
      part := files;
      files := files + 1;
    }

    /** `waitForFiles`: the end-of-stream observer of `part` fires, with or without an error. */
    method WaitForFiles(part: nat, err: Option<Error>)
      requires Valid() && part < files && part !in ended
      modifies this
      ensures Valid() && Snapshot() == Step(old(Snapshot()), Drain(part, err))
      ensures err.Some? ==> completed && log == old(log) + [Failed(err.value)]
      ensures err.None? && old(completed) ==> count == old(count) && log == old(log)
      ensures err.None? && !old(completed) ==> count == old(count) + 1
      ensures err.None? && !old(completed) ==>
        if old(callDoneOnNextEos) && count == files then completed && log == old(log) + [Immediate]
        else !completed && log == old(log)
    {
      CoordinatorProofs.StepPreservesInv(Snapshot(), Drain(part, err));
      ended := ended + {part};
      if err.Some? {
        completed := true;
        log := log + [Failed(err.value)];
        return;
      }
      if completed {
        return;
      }
      count := count + 1;
      if callDoneOnNextEos && count == files {
        completed := true;
        log := log + [Immediate];
      }
    }

    /** Busboy's `finish`. */
    method OnFinish()
      requires Valid()
      modifies this
      ensures Valid() && Snapshot() == Step(old(Snapshot()), Finish)
      ensures !old(completed) && old(count) == old(files) ==> completed && log == old(log) + [Scheduled]
      ensures old(completed) || old(count) != old(files) ==> callDoneOnNextEos && log == old(log)
    {
      CoordinatorProofs.StepPreservesInv(Snapshot(), Finish);
      finished := true;
      if !completed && count == files {
        completed := true;
        log := log + [Scheduled];
      } else {
        callDoneOnNextEos := true;
      }
    }

    /** The `error` listener on the raw request. */
    method OnRequestError(err: Error)
      requires Valid()
      modifies this
      ensures Valid() && Snapshot() == Step(old(Snapshot()), RequestError(err))
      ensures destroyed && completed
      ensures log == if old(completed) then old(log) else old(log) + [Failed(err)]
    {
      CoordinatorProofs.StepPreservesInv(Snapshot(), RequestError(err));
      destroyed := true;
      if !completed {
        completed := true;
        log := log + [Failed(err)];
      }
    }
  }

  /**
   * The guards of `multipart` (index.js:95-106) and the set-up of the closure: two throws when
   * `handler` or `done` is not a function, checked before anything else, then an immediate
   * `done(new Error('the request is not multipart'))` with no parser when the request is not
   * marked as multipart. Otherwise a fresh session starts.
   */
  method Start(req: Request.Message, handlerIsFunction: bool, doneIsFunction: bool)
    returns (outcome: Outcome, session: Session?)
    ensures !handlerIsFunction ==> outcome == Threw("handler must be a function")
    ensures handlerIsFunction && !doneIsFunction ==> outcome == Threw("the callback must be a function")
    ensures handlerIsFunction && doneIsFunction && !Request.IsMultipart(req) ==>
      outcome == Reported(Failed(NOT_MULTIPART))
    ensures outcome.Parsing? <==> handlerIsFunction && doneIsFunction && Request.IsMultipart(req)
    ensures session == null <==> !outcome.Parsing?
    ensures session != null ==> fresh(session) && session.Valid() && session.Snapshot() == Init()
  {
    session := null;
    if !handlerIsFunction {
      outcome := Threw("handler must be a function");
      return;
    }
    if !doneIsFunction {
      outcome := Threw("the callback must be a function");
      return;
    }
    if !Request.IsMultipart(req) {
      outcome := Reported(Failed(NOT_MULTIPART));
      return;
    }
    session := new Session();
    outcome := Parsing;
  }
}
