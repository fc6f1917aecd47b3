/**
 * What the completion coordinator of `multipart()` guarantees, proved about the state machine
 * of module `Coordinator`: the counter bound, the invariant every reachable state keeps, at most
 * one success call, independence from the order of `finish` and the last drain, and what
 * events after completion can still do.
 */
module CoordinatorProofs {
  import opened Wrappers
  import opened Coordinator

  /** A set of part numbers below `n` has at most `n` elements. */
  lemma {:induction false} BoundedSetSize(parts: set<nat>, n: nat)
    requires forall p :: p in parts ==> p < n
    ensures |parts| <= n
  {
    if n == 0 {
      assert forall p :: p !in parts;
      assert parts == {};
    } else {
      var rest := parts - {n - 1};
      BoundedSetSize(rest, n - 1);
      assert parts <= rest + {n - 1};
    }
  }

  /** `count <= files` (index.js:145, index.js:161): the counter of drained parts never passes
   *  the counter of discovered ones. */
  lemma CountBound(s: State)
    requires Inv(s)
    ensures s.count <= s.files
  {
    BoundedSetSize(s.ended, s.files);
  }

  lemma InitInv()
    ensures Inv(Init())
  {
  }

  /** Every event the collaborators can produce keeps the invariant. */
  lemma StepPreservesInv(s: State, e: Event)
    requires Inv(s) && Enabled(s, e)
    ensures Inv(Step(s, e))
  {
    match e
    case Discover =>
    case Drain(p, err) =>
      BoundedSetSize(s.ended, s.files);
      BoundedSetSize(s.ended + {p}, s.files);
    case Finish =>
      CountBound(s);
    case RequestError(_) =>
  }

  lemma {:induction false} RunPreservesInv(s: State, t: seq<Event>)
    requires Inv(s) && Admissible(s, t)
    ensures Inv(Run(s, t))
    decreases |t|
  {
    if t != [] {
      StepPreservesInv(s, t[0]);
      RunPreservesInv(Step(s, t[0]), t[1..]);
    }
  }

  /** Every state the coordinator can reach from its start keeps the invariant. */
  lemma Reachable(t: seq<Event>)
    requires Admissible(Init(), t)
    ensures Inv(Run(Init(), t))
    ensures Run(Init(), t).count <= Run(Init(), t).files
  {
    InitInv();
    RunPreservesInv(Init(), t);
    CountBound(Run(Init(), t));
  }

  lemma {:induction false} NoSuccessAmongFailures(log: seq<Call>)
    requires forall i :: 0 <= i < |log| ==> log[i].Failed?
    ensures Successes(log) == 0
  {
    if log != [] {
      NoSuccessAmongFailures(log[1..]);
    }
  }

  /**
   * `done` is called with success at most once per request, and a success call is the only
   * call, made only after `finish` was seen and with `count == files` (index.js:131-133,
   * index.js:162-164).
   */
  lemma AtMostOneSuccess(t: seq<Event>)
    requires Admissible(Init(), t)
    ensures Successes(Run(Init(), t).log) <= 1
    ensures Successes(Run(Init(), t).log) == 1 ==>
      var s := Run(Init(), t);
      |s.log| == 1 && s.log[0].IsSuccess() && s.finished && s.count == s.files
  {
    Reachable(t);
    var log := Run(Init(), t).log;
    if log != [] {
      NoSuccessAmongFailures(log[1..]);
    }
  }

  /**
   * After a success call nothing the collaborators can still report makes another call: a
   * success needs `count == files`, so every part has drained and no observer is left to fire
   * with an error (index.js:131-133, index.js:150-165).
   */
  lemma SuccessIsFinal(s: State, e: Event)
    requires Inv(s) && Enabled(s, e) && s.log != [] && s.log[0].IsSuccess()
    ensures Step(s, e).log == s.log
  {
    if e.Drain? {
      BoundedSetSize(s.ended, s.files);
      BoundedSetSize(s.ended + {e.part}, s.files);
    }
  }

  /** `finish` has been seen exactly when the start state had seen it or `t` holds one. */
  lemma {:induction false} FinishedAfter(s: State, t: seq<Event>)
    ensures Run(s, t).finished == (s.finished || Finishes(t) > 0)
    decreases |t|
  {
    if t != [] {
      FinishedAfter(Step(s, t[0]), t[1..]);
    }
  }

  /** Running `t` and then `e` is stepping `e` from the state after `t`. */
  lemma {:induction false} RunSnoc(s: State, t: seq<Event>, e: Event)
    ensures Run(s, t + [e]) == Step(Run(s, t), e)
    ensures Admissible(s, t + [e]) <==> Admissible(s, t) && Enabled(Run(s, t), e)
    ensures Finishes(t + [e]) == Finishes(t) + (if e.Finish? then 1 else 0)
    decreases |t|
  {
    if t == [] {
      assert t + [e] == [e];
    } else {
      assert (t + [e])[0] == t[0];
      assert (t + [e])[1..] == t[1..] + [e];
      RunSnoc(Step(s, t[0]), t[1..], e);
    }
  }

  /** The extra facts of a run in which nothing fails: every observer that fired counted its
   *  part, and every call made was a success. */
  ghost predicate CleanState(s: State)
  {
    s.count == |s.ended| && forall i :: 0 <= i < |s.log| ==> s.log[i].IsSuccess()
  }

  lemma CleanStep(s: State, e: Event)
    requires Inv(s) && CleanState(s) && Enabled(s, e)
    requires !e.RequestError? && !(e.Drain? && e.failure.Some?)
    ensures CleanState(Step(s, e))
  {
    if e.Drain? && s.completed {
      // after a success every discovered part has drained, so no observer is left to fire
      BoundedSetSize(s.ended + {e.part}, s.files);
      assert false;
    }
  }

  lemma {:induction false} CleanRun(s: State, t: seq<Event>)
    requires Inv(s) && CleanState(s) && Admissible(s, t) && Clean(t)
    ensures Inv(Run(s, t)) && CleanState(Run(s, t))
    decreases |t|
  {
    if t != [] {
      assert !t[0].RequestError? && !(t[0].Drain? && t[0].failure.Some?);
      StepPreservesInv(s, t[0]);
      CleanStep(s, t[0]);
      assert Clean(t[1..]) by {
        forall i | 0 <= i < |t[1..]|
          ensures !t[1..][i].RequestError? && !(t[1..][i].Drain? && t[1..][i].failure.Some?)
        {
          assert t[1..][i] == t[i + 1];
        }
      }
      CleanRun(Step(s, t[0]), t[1..]);
    }
  }

  /**
   * Order independence (index.js:131-135, index.js:162-165). Whatever the order in which the
   * discoveries, the drains of the parts and the single `finish` arrive, if nothing fails and
   * every discovered part has drained, `done` has been called exactly once, with success:
   * deferred through `setImmediate` when `finish` came last, synchronously when the last drain
   * came last.
   */
  lemma OrderIndependence(t: seq<Event>)
    requires Admissible(Init(), t) && Clean(t) && Finishes(t) == 1
    requires |Run(Init(), t).ended| == Run(Init(), t).files
    ensures t != []
    ensures t[|t| - 1].Finish? ==> Run(Init(), t).log == [Scheduled]
    ensures !t[|t| - 1].Finish? ==> Run(Init(), t).log == [Immediate]
  {
    assert t != [];
    var init, e := t[..|t| - 1], t[|t| - 1];
    assert t == init + [e];
    RunSnoc(Init(), init, e);
    assert Clean(init) by {
      forall i | 0 <= i < |init|
        ensures !init[i].RequestError? && !(init[i].Drain? && init[i].failure.Some?)
      {
        assert init[i] == t[i];
      }
    }
    InitInv();
    CleanRun(Init(), init);
    var s := Run(Init(), init);
    FinishedAfter(Init(), init);
    CountBound(s);
    assert !e.RequestError? && !(e.Drain? && e.failure.Some?);
    if e.Drain? {
      assert e.part !in s.ended;
      assert |s.ended + {e.part}| == |s.ended| + 1;
    }
  }

  /** One event after completion: only a part error adds a call, and only `finish` touches the latch. */
  lemma CompletedStep(s: State, e: Event)
    requires s.completed
    ensures Step(s, e).completed && Step(s, e).count == s.count
    ensures Step(s, e).log == s.log + PartErrorCall(e)
    ensures Step(s, e).callDoneOnNextEos == (s.callDoneOnNextEos || e.Finish?)
  {
  }

  /**
   * Once `completed` is set, no event adds a success call and a request error adds no call:
   * the only calls still made are the unguarded `done(err)` of later part errors
   * (index.js:123-126, index.js:150-159). The drain counter no longer moves, and a later
   * `finish` only sets the latch.
   */
  lemma {:induction false} CompletedIsFinal(s: State, t: seq<Event>)
    requires s.completed
    ensures Run(s, t).completed
    ensures Run(s, t).count == s.count
    ensures Run(s, t).log == s.log + PartErrorCalls(t)
    ensures Run(s, t).callDoneOnNextEos == (s.callDoneOnNextEos || Finishes(t) > 0)
    decreases |t|
  {
    if t != [] {
      CompletedStep(s, t[0]);
      CompletedIsFinal(Step(s, t[0]), t[1..]);
      assert s.log + PartErrorCall(t[0]) + PartErrorCalls(t[1..])
          == s.log + (PartErrorCall(t[0]) + PartErrorCalls(t[1..]));
    }
  }

  /** Two failing parts call `done` twice: the part-error path does not look at `completed`
   *  (index.js:150-155). */
  lemma RepeatedPartErrors(e1: Error, e2: Error)
    ensures var t := [Discover, Discover, Drain(0, Some(e1)), Drain(1, Some(e2))];
      Admissible(Init(), t) && Run(Init(), t).log == [Failed(e1), Failed(e2)]
  {
    var t := [Discover, Discover, Drain(0, Some(e1)), Drain(1, Some(e2))];
    var s1 := Step(Init(), Discover);
    var s2 := Step(s1, Discover);
    var s3 := Step(s2, Drain(0, Some(e1)));
    assert s3.completed && s3.log == [Failed(e1)];
    var s4 := Step(s3, Drain(1, Some(e2)));
    assert s4.log == [Failed(e1), Failed(e2)];
    assert t[1..] == [Discover, Drain(0, Some(e1)), Drain(1, Some(e2))];
    assert t[1..][1..] == [Drain(0, Some(e1)), Drain(1, Some(e2))];
    assert t[1..][1..][1..] == [Drain(1, Some(e2))];
    assert Run(s3, [Drain(1, Some(e2))]) == s4;
    assert Run(s2, t[1..][1..]) == s4;
    assert Run(s1, t[1..]) == s4;
    assert Admissible(s4, []);
    assert Admissible(s3, [Drain(1, Some(e2))]);
    assert Admissible(s2, t[1..][1..]);
    assert Admissible(s1, t[1..]);
  }
}
