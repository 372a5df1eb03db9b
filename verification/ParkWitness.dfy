/** Runs in which a cancel takes a coroutine past the wait for its subscribe: at the gate, in the drop, and after. */
module ParkWitness {
  import opened Common
  import opened Park

  ghost predicate Reached(s: State) {
    exists r: seq<State>, acts: seq<Action> :: Run(r, acts) && r[|acts|] == s
  }

  lemma ReachStep(s: State, a: Action)
    requires Reached(s) && Enabled(s, a)
    ensures Reached(Step(s, a))
  {
    hide Step, Enabled;
    var r: seq<State>, acts: seq<Action> :| Run(r, acts) && r[|acts|] == s;
    var r', acts' := r + [Step(s, a)], acts + [a];
    assert Run(r', acts') && r'[|acts'|] == Step(s, a);
  }

  lemma ReachInit()
    ensures Reached(Init)
  {
    var r, acts: seq<Action> := [Init], [];
    assert Run(r, acts) && r[|acts|] == Init;
  }

  const RESUMED: map<nat, Resumer> := map[1 := ByTimer]

  /** A park timed out while its subscribe is about to re-check the token; the coroutine is back. */
  const BACK: State :=
    State(Shared(2, true, None, true), Cancel(false, 0), Running, Recheck, [], map[], Out,
          Hist(1, RESUMED, {}, false, false, false))

  lemma ReachSuspended() returns (s: State)
    ensures Reached(s)
    ensures s == Init.(co := Suspended, kernel := AddTimer, hist := Init.hist.(round := 1))
  {
    ReachInit();
    ReachStep(Init, CoStep(true));
    var s1 := Step(Init, CoStep(true));
    ReachStep(s1, CoStep(true));
    var s2 := Step(s1, CoStep(true));
    ReachStep(s2, CoStep(true));
    var s3 := Step(s2, CoStep(true));
    ReachStep(s3, CoStep(true));
    var s4 := Step(s3, CoStep(true));
    ReachStep(s4, CoStep(true));
    s := Step(s4, CoStep(true));
  }

  /** The subscribe stores the coroutine, and a timer takes it. */
  lemma StoreAndTake(s: State) returns (s': State)
    requires Reached(s) && s.kernel == AddTimer && s.co.Suspended? && s.drop.Out?
    ensures Reached(s')
    ensures var hist := s.hist.(left := false, resumed := s.hist.resumed[s.hist.round := ByTimer]);
      var shared := s.shared.(waitKernel := true, waitCo := None);
      s' == s.(shared := shared, co := Back(false), kernel := Recheck, hist := hist)
  {
    ReachStep(s, KernelStep);
    var s1 := Step(s, KernelStep);
    ReachStep(s1, KernelStep);
    var s2 := Step(s1, KernelStep);
    ReachStep(s2, KernelStep);
    var s3 := Step(s2, KernelStep);
    ReachStep(s3, TimerFires);
    s' := Step(s3, TimerFires);
  }

  /** The coroutine takes its parity step and leaves the park; no token is there and no cancel is seen. */
  lemma LeavePark(s: State) returns (s': State)
    requires Reached(s) && s.co == Back(false) && !Token(s.shared.state) && 0 <= s.shared.state < WORDS
    requires !IsCanceled(s.cancel) && s.drop.Out?
    ensures Reached(s') && s' == s.(shared := s.shared.(state := AddTwo(s.shared.state)), co := Running)
  {
    AddTwoBits(s.shared.state);
    hide Token, Odd, AddTwo;
    ReachStep(s, CoStep(true));
    var s1 := Step(s, CoStep(true));
    ReachStep(s1, CoStep(true));
    var s2 := Step(s1, CoStep(true));
    ReachStep(s2, CoStep(true));
    s' := Step(s2, CoStep(true));
    assert s'.hist == s.hist;
  }

  lemma ReachBack()
    ensures Reached(BACK)
  {
    var s := ReachSuspended();
    var s1 := StoreAndTake(s);
    var s2 := LeavePark(s1);
    assert s2.hist == BACK.hist;
  }

  // ---------------------------------------------------------------- cancelled in the drop

  /** The park is gone while a subscribe is in flight. */
  predicate Dangling(s: State) { s.drop.Done? && InFlight(s) }

  /** The drop of a cancelled coroutine panics out of its wait. */
  lemma DropCanBeLeft()
    ensures exists s :: Reached(s) && Dangling(s) && s.drop == Done(Canceled) && !s.hist.torn && !s.hist.left
  {
    ReachBack();
    ReachStep(BACK, CancelSets);
    var s1 := Step(BACK, CancelSets);
    ReachStep(s1, StartDrop(true));
    var s2 := Step(s1, StartDrop(true));
    ReachStep(s2, DropStep(true));
    var s3 := Step(s2, DropStep(true));
    ReachStep(s3, DropStep(true));
    var s4 := Step(s3, DropStep(true));
    assert s4.drop == Spin(true);
    ReachStep(s4, DropStep(true));
    assert Dangling(Step(s4, DropStep(true)));
  }

  // ---------------------------------------------------------------- cancelled at the gate

  /** The next park is left at its gate, with the flag taken back and the subscribe still in flight. */
  const LEFT: State :=
    State(Shared(2, false, None, true), Cancel(true, 0), Running, Recheck, [], map[], Out,
          Hist(1, RESUMED, {}, false, true, false))

  lemma ReachLeft()
    ensures Reached(LEFT)
  {
    ReachBack();
    ReachStep(BACK, CoStep(true));
    var s1 := Step(BACK, CoStep(true));
    ReachStep(s1, CoStep(true));
    var s2 := Step(s1, CoStep(true));
    assert s2.co == Gate;
    ReachStep(s2, CoStep(true));
    var s3 := Step(s2, CoStep(true));
    assert s3.co == GateWait;
    ReachStep(s3, CoStep(true));
    var s4 := Step(s3, CoStep(true));
    assert s4.co == GateSpin;
    ReachStep(s4, CancelSets);
    var s5 := Step(s4, CancelSets);
    ReachStep(s5, CoStep(true));
    assert Step(s5, CoStep(true)) == LEFT;
  }

  /** The drop of such a park returns at its first load. */
  lemma GateCanBeLeft()
    ensures exists s :: Reached(s) && s.co.Running? && DropPasses(s) && InFlight(s) && !s.hist.torn
    ensures exists s :: Reached(s) && Dangling(s) && s.drop == Done(FlagClear) && !s.hist.torn
  {
    ReachLeft();
    assert DropPasses(LEFT) && InFlight(LEFT);
    ReachStep(LEFT, StartDrop(true));
    var s1 := Step(LEFT, StartDrop(true));
    ReachStep(s1, DropStep(true));
    assert Dangling(Step(s1, DropStep(true)));
  }

  // ---------------------------------------------------------------- parking again

  /** With cancellation disabled the next park suspends beside the subscribe that is still in flight. */
  const TORN: State :=
    State(Shared(0, false, None, true), Cancel(true, 1), Suspended, AddTimer, [Recheck], map[], Out,
          Hist(2, RESUMED, {}, true, true, true))

  lemma ReachTorn()
    ensures Reached(TORN)
  {
    ReachLeft();
    ReachStep(LEFT, Disable);
    var s1 := Step(LEFT, Disable);
    ReachStep(s1, CoStep(true));
    var s2 := Step(s1, CoStep(true));
    ReachStep(s2, CoStep(true));
    var s3 := Step(s2, CoStep(true));
    assert s3.co == Gate;
    ReachStep(s3, CoStep(true));
    var s4 := Step(s3, CoStep(true));
    assert s4.co == GateClear;
    ReachStep(s4, CoStep(true));
    var s5 := Step(s4, CoStep(true));
    assert s5.co == Yield && s5.shared.state == 0 && s5.hist.stray;
    ReachStep(s5, CoStep(true));
    assert Step(s5, CoStep(true)) == TORN;
  }

  /** Two subscribes of one park are in flight. */
  lemma SubscribesCanOverlap()
    ensures exists s :: Reached(s) && s.kernel != NotIn && s.older != []
  {
    ReachTorn();
    assert TORN.kernel != NotIn && TORN.older != [];
  }

  /** The first subscribe ends, and the second suspension is over as well. */
  lemma ReachOffByOne() returns (s: State)
    ensures Reached(s) && s.co.Running? && s.kernel == Recheck && s.older == []
    ensures s.shared == Shared(4, true, None, true) && s.drop.Out? && s.unparkers == map[]
  {
    ReachTorn();
    ReachStep(TORN, OlderStep(0));
    var s1 := Step(TORN, OlderStep(0));
    assert s1.older == [SetCancel];
    ReachStep(s1, OlderStep(0));
    var s2 := Step(s1, OlderStep(0));
    assert s2.older == [Finish];
    ReachStep(s2, OlderStep(0));
    var s3 := Step(s2, OlderStep(0));
    assert s3.older == [] && s3.shared.state == 2;
    var s4 := StoreAndTake(s3);
    s := LeavePark(s4);
  }

  /** A drop that waits with no subscribe in flight. */
  predicate Stuck(s: State) {
    && s.co.Running? && !InFlight(s) && s.unparkers == map[] && s.shared.waitCo == None
    && s.shared.waitKernel && Odd(s.shared.state) && !s.drop.Out? && !s.drop.Done?
  }

  /** After that a drop gets past a subscribe in flight, and waits when there is none. */
  lemma DropCanBeWrongBothWays()
    ensures exists s :: Reached(s) && s.co.Running? && s.shared.waitKernel && DropPasses(s) && InFlight(s)
    ensures exists s :: Reached(s) && Stuck(s)
  {
    var s := ReachOffByOne();
    assert DropPasses(s) && InFlight(s);
    ReachStep(s, KernelStep);
    var s1 := Step(s, KernelStep);
    assert s1.kernel == SetCancel;
    ReachStep(s1, KernelStep);
    var s2 := Step(s1, KernelStep);
    ReachStep(s2, KernelStep);
    var s3 := Step(s2, KernelStep);
    assert s3.shared.state == 6;
    ReachStep(s3, StartDrop(true));
    assert Stuck(Step(s3, StartDrop(true)));
  }

  /** It waits for good: only a cancel ends it. */
  lemma StuckStays(s: State, a: Action)
    requires Stuck(s) && Enabled(s, a)
    ensures Stuck(Step(s, a)) || (a == DropStep(true) && Step(s, a).drop == Done(Canceled))
  {
    hide Odd;
  }
}
