/** A run in which `is_empty` answers no although nothing waits: a block filled and drained up to its last claim. */
module SegQueueWitness {
  import opened Common
  import opened SegQueueSteps
  import opened SegQueueTheorems
  import opened SegQueueOwned

  ghost predicate Reached(s: State) {
    exists r: seq<State>, acts: seq<Action> :: Run(r, acts) && r[|r| - 1] == s
  }

  lemma ReachStep(s: State, a: Action)
    requires Reached(s) && Enabled(s, a)
    ensures Reached(Step(s, a))
  {
    hide Step, Enabled, Init;
    var r: seq<State>, acts: seq<Action> :| Run(r, acts) && r[|r| - 1] == s;
    var r', acts' := r + [Step(s, a)], acts + [a];
    assert Run(r', acts') && r'[|r'| - 1] == Step(s, a);
  }

  /** The slots before `k` of the first block are written. */
  ghost predicate WrittenBelow(c: Cells, k: nat) {
    c.destroyBit == {} && forall j: nat :: j < k ==> Pos(0, j) in c.writeBit && Pos(0, j) in c.value
  }

  const NO_CALLS: Calls := Calls(map[], map[], map[], map[], map[])

  /** `k` pushes into the first block are done, no pop was tried. */
  ghost predicate Filled(s: State, k: nat) {
    && s.calls == NO_CALLS && WrittenBelow(s.cells, k) && |s.log.pushed| == k
    && s.ends == (if k == 0 then Ends(Pos(0, 0), None, Index(Pos(0, 0), false), None, map[], 0)
                  else Ends(Pos(0, k), Some(0), Index(Pos(0, 0), false), Some(0), map[], 1))
  }

  /** The block is full, the next one is installed, and `k` pops are done. */
  ghost predicate Drained(s: State, k: nat) {
    && s.calls == NO_CALLS && WrittenBelow(s.cells, BLOCK_CAP) && |s.log.pushed| == BLOCK_CAP
    && s.ends == Ends(Pos(1, 0), Some(1), Index(Pos(0, k), k > 0), Some(0), map[0 := 1], 2)
  }

  /** A push claims the next slot once it knows the block. */
  lemma Claim(s: State, s0: State, v: Value, k: nat) returns (s': State)
    requires Reached(s) && k < BLOCK_CAP && |s0.log.pushed| == k && s0.calls == NO_CALLS
    requires s.ends == Ends(Pos(0, k), Some(0), Index(Pos(0, 0), false), Some(0), map[], 1)
    requires s.calls == NO_CALLS.(pushers := map[0 := TryTail(v, false, Pos(0, k), Some(0))])
    requires s.cells == s0.cells && s.log.pushed == s0.log.pushed
    ensures Reached(s') && s'.cells == s0.cells && |s'.log.pushed| == k + 1
    ensures s'.ends == s.ends.(tailIndex := Pos(0, k + 1))
    ensures var writer := if k + 1 == BLOCK_CAP then StoreTailBlock(v, true, 0) else WriteValue(v, 0);
      s'.calls == NO_CALLS.(writers := map[Pos(0, k) := writer])
  {
    ReachStep(s, Push(0, true));
    s' := Step(s, Push(0, true));
    assert s'.calls.pushers == map[];
  }

  /** A push writes its value and is done. */
  lemma WriteOut(s: State, v: Value, k: nat) returns (s': State)
    requires Reached(s) && k < BLOCK_CAP && WrittenBelow(s.cells, k)
    requires s.calls == NO_CALLS.(writers := map[Pos(0, k) := WriteValue(v, 0)])
    ensures Reached(s') && s'.calls == NO_CALLS && s'.ends == s.ends && s'.log == s.log && WrittenBelow(s'.cells, k + 1)
  {
    ReachStep(s, Write(Pos(0, k)));
    var s1 := Step(s, Write(Pos(0, k)));
    ReachStep(s1, Write(Pos(0, k)));
    s' := Step(s1, Write(Pos(0, k)));
    assert s'.calls.writers == map[];
  }

  lemma FirstPush(s: State, v: Value) returns (s': State)
    requires Reached(s) && Filled(s, 0)
    ensures Reached(s') && Filled(s', 1)
  {
    ReachStep(s, StartPush(0, v));
    var s1 := Step(s, StartPush(0, v));
    ReachStep(s1, Push(0, true));
    var s2 := Step(s1, Push(0, true));
    ReachStep(s2, Push(0, true));
    var s3 := Step(s2, Push(0, true));
    ReachStep(s3, Push(0, true));
    var s4 := Step(s3, Push(0, true));
    assert s4.calls.pushers == map[0 := StoreFirstHead(v, false, Pos(0, 0), 0)];
    ReachStep(s4, Push(0, true));
    var s5 := Step(s4, Push(0, true));
    assert s5.calls.pushers == map[0 := TryTail(v, false, Pos(0, 0), Some(0))];
    var s6 := Claim(s5, s, v, 0);
    s' := WriteOut(s6, v, 0);
  }

  /** A later push reads the tail and the block and claims its slot. */
  lemma NextClaim(s: State, v: Value, k: nat) returns (s': State)
    requires Reached(s) && Filled(s, k) && 0 < k < BLOCK_CAP
    ensures Reached(s') && s'.cells == s.cells && |s'.log.pushed| == k + 1
    ensures s'.ends == s.ends.(tailIndex := Pos(0, k + 1))
    ensures var writer := if k + 1 == BLOCK_CAP then StoreTailBlock(v, true, 0) else WriteValue(v, 0);
      s'.calls == NO_CALLS.(writers := map[Pos(0, k) := writer])
  {
    ReachStep(s, StartPush(0, v));
    var s1 := Step(s, StartPush(0, v));
    ReachStep(s1, Push(0, true));
    var s2 := Step(s1, Push(0, true));
    ReachStep(s2, Push(0, true));
    var s3 := Step(s2, Push(0, true));
    assert s3.calls.pushers == map[0 := TryTail(v, false, Pos(0, k), Some(0))];
    s' := Claim(s3, s, v, k);
  }

  lemma {:induction false} FillUp(v: Value, k: nat) returns (s: State)
    requires k < BLOCK_CAP
    ensures Reached(s) && Filled(s, k)
  {
    if k == 0 {
      s := State(Ends(Pos(0, 0), None, Index(Pos(0, 0), false), None, map[], 0), Cells(map[], {}, {}, {}, {}), NO_CALLS,
                 Log([], map[], {}, map[], None));
      assert Run([s], []) && [s][|[s]| - 1] == s;
    } else if k == 1 {
      var s0 := FillUp(v, 0);
      s := FirstPush(s0, v);
    } else {
      var s0 := FillUp(v, k - 1);
      var s1 := NextClaim(s0, v, k - 1);
      s := WriteOut(s1, v, k - 1);
    }
  }

  /** The last push of the block installs the next one. */
  lemma LastPush(s: State, v: Value) returns (s': State)
    requires Reached(s) && Filled(s, BLOCK_CAP - 1)
    ensures Reached(s') && Drained(s', 0)
  {
    var p := Pos(0, BLOCK_CAP - 1);
    var s1 := NextClaim(s, v, BLOCK_CAP - 1);
    ReachStep(s1, Write(p));
    var s2 := Step(s1, Write(p));
    ReachStep(s2, Write(p));
    var s3 := Step(s2, Write(p));
    ReachStep(s3, Write(p));
    var s4 := Step(s3, Write(p));
    assert s4.calls.writers == map[p := WriteValue(v, 0)];
    s' := WriteOut(s4, v, BLOCK_CAP - 1);
  }

  /** A pop up to its head CAS. */
  lemma PopClaim(s: State, k: nat) returns (s': State)
    requires Reached(s) && Drained(s, k) && k < BLOCK_CAP
    ensures Reached(s') && s'.cells == s.cells && s'.log == s.log
    ensures s'.ends == s.ends.(headIndex := Index(Pos(0, k + 1), true))
    ensures s'.calls == NO_CALLS.(readers := map[Pos(0, k) := if k + 1 == BLOCK_CAP then WaitNext(0) else WaitWrite(0)])
  {
    ReachStep(s, StartPop(0));
    var s1 := Step(s, StartPop(0));
    ReachStep(s1, Pop(0, true));
    var s2 := Step(s1, Pop(0, true));
    ReachStep(s2, Pop(0, true));
    var s3 := Step(s2, Pop(0, true));
    ReachStep(s3, Pop(0, true));
    var s4 := Step(s3, Pop(0, true));
    assert s4.calls.poppers == map[0 := TryHead(Index(Pos(0, k), k > 0), Index(Pos(0, k + 1), true), 0)];
    ReachStep(s4, Pop(0, true));
    s' := Step(s4, Pop(0, true));
    assert s'.calls.poppers == map[];
  }

  /** A pop of any slot but the last reads its value and returns. */
  lemma ReadOut(s: State, k: nat) returns (s': State)
    requires Reached(s) && k + 1 < BLOCK_CAP && WrittenBelow(s.cells, BLOCK_CAP)
    requires s.calls == NO_CALLS.(readers := map[Pos(0, k) := WaitWrite(0)])
    ensures Reached(s') && s'.calls == NO_CALLS && s'.ends == s.ends && s'.log.pushed == s.log.pushed
    ensures WrittenBelow(s'.cells, BLOCK_CAP)
  {
    var p := Pos(0, k);
    ReachStep(s, Read(p));
    var s1 := Step(s, Read(p));
    assert s1.calls.readers == map[p := ReadValue(0)];
    ReachStep(s1, Read(p));
    var s2 := Step(s1, Read(p));
    assert s2.calls.readers == map[p := SetRead(0, s.cells.value[p])];
    ReachStep(s2, Read(p));
    s' := Step(s2, Read(p));
    assert s'.calls.readers == map[];
  }

  lemma {:induction false} DrainTo(v: Value, k: nat) returns (s: State)
    requires k < BLOCK_CAP
    ensures Reached(s) && Drained(s, k)
  {
    if k == 0 {
      var s0 := FillUp(v, BLOCK_CAP - 1);
      s := LastPush(s0, v);
    } else {
      var s0 := DrainTo(v, k - 1);
      var s1 := PopClaim(s0, k - 1);
      s := ReadOut(s1, k - 1);
    }
  }

  /** Nothing waits, and yet the two indices differ. */
  ghost predicate EmptyButDenied(s: State) {
    && Queue(s) == [] && s.ends.headIndex.pos.off == BLOCK_CAP
    && s.ends.tailIndex == Pos(s.ends.headIndex.pos.lap + 1, 0)
  }

  /** 31 pushes and 31 pops, the last of them just past its head CAS, reach such a state. */
  lemma IsEmptyCanDeny(v: Value)
    ensures exists r: seq<State>, acts: seq<Action> :: Run(r, acts) && EmptyButDenied(r[|r| - 1])
  {
    var s0 := DrainTo(v, BLOCK_CAP - 1);
    var s := PopClaim(s0, BLOCK_CAP - 1);
    assert Popped(s) == BLOCK_CAP == |s.log.pushed|;
    hide Run;
    var r: seq<State>, acts: seq<Action> :| Run(r, acts) && r[|r| - 1] == s;
    assert Run(r, acts) && EmptyButDenied(r[|r| - 1]);
  }
}
