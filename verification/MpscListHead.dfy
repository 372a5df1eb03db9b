/** What the second answer of `push` means: the flag that tells a caller that its value is the first in the list. */
module MpscListHead {
  import opened Common
  import opened MpscListSteps
  import opened MpscListProof

  ghost predicate WasRemoved(fate: map<Nid, Fate>, n: Nid) {
    n in fate && fate[n].Removed?
  }

  /** While the node of the predecessor is in the chain, the pushed node is right behind it. */
  ghost predicate Behind(chain: seq<Nid>, fate: map<Nid, Fate>, n: Nid, prev: Nid) {
    && (forall k :: 0 <= k < |chain| && chain[k] == prev ==> k + 1 < |chain| && chain[k + 1] == n)
    && (prev in chain || WasRemoved(fate, prev) || n in fate)
  }

  ghost predicate BehindInv(chain: seq<Nid>, fate: map<Nid, Fate>, pushers: map<Nid, Pusher>) {
    && (forall n :: n in pushers ==> Behind(chain, fate, n, pushers[n].prev))
    && |chain| >= 1 && !WasRemoved(fate, chain[0])
  }

  ghost predicate KnownInv(mem: Mem, pushers: map<Nid, Pusher>) {
    forall n :: n in pushers ==> pushers[n].prev in mem.nodes || pushers[n].prev in mem.freed
  }

  ghost predicate HeadInv(s: State) {
    BehindInv(s.hist.chain, s.hist.fate, s.pushers) && KnownInv(s.mem, s.pushers)
  }

  // ---------------------------------------------------------------- how each step changes the chain

  lemma SwapBehind(chain: seq<Nid>, fate: map<Nid, Fate>, pushers: map<Nid, Pusher>, n: Nid)
    requires BehindInv(chain, fate, pushers) && Distinct(chain) && n !in chain
    requires forall m :: m in pushers ==> pushers[m].prev != n
    ensures BehindInv(chain + [n], fate, pushers[n := StorePrev(chain[|chain| - 1])])
  {
  }

  lemma TakeBehind(chain: seq<Nid>, fate: map<Nid, Fate>, pushers: map<Nid, Pusher>, f: Fate)
    requires BehindInv(chain, fate, pushers) && Distinct(chain) && |chain| >= 2 && f.Popped? && chain[1] !in fate
    ensures BehindInv(chain[1..], fate[chain[1] := f], pushers)
  {
    var chain', fate' := chain[1..], fate[chain[1] := f];
    forall n | n in pushers
      ensures Behind(chain', fate', n, pushers[n].prev)
    {
      var prev := pushers[n].prev;
      assert Behind(chain, fate, n, prev);
      assert chain == [chain[0]] + chain';
      forall k | 0 <= k < |chain'| && chain'[k] == prev
        ensures k + 1 < |chain'| && chain'[k + 1] == n
      {
        assert chain[k + 1] == prev;
      }
    }
  }

  lemma RemoveBehind(chain: seq<Nid>, fate: map<Nid, Fate>, pushers: map<Nid, Pusher>, k: int, f: Fate)
    requires BehindInv(chain, fate, pushers) && Distinct(chain) && 0 < k < |chain| && f.Removed?
    requires chain[k] !in pushers && chain[k] !in fate
    ensures BehindInv(chain[..k] + chain[k + 1..], fate[chain[k] := f], pushers)
  {
    var chain', fate' := chain[..k] + chain[k + 1..], fate[chain[k] := f];
    forall n | n in pushers
      ensures Behind(chain', fate', n, pushers[n].prev)
    {
      var prev := pushers[n].prev;
      assert Behind(chain, fate, n, prev);
      forall j | 0 <= j < |chain'| && chain'[j] == prev
        ensures j + 1 < |chain'| && chain'[j + 1] == n
      {
        assert chain[if j < k then j else j + 1] == prev;
      }
      if prev in chain && prev != chain[k] {
        var j :| 0 <= j < |chain| && chain[j] == prev;
        assert chain'[if j < k then j else j - 1] == prev;
      }
    }
  }

  /** A node that was allocated stays allocated or is freed. */
  lemma KnownStays(s: State, a: Action, n: Nid)
    requires Inv(s) && Enabled(s, a) && (n in s.mem.nodes || n in s.mem.freed)
    ensures n in Step(s, a).mem.nodes || n in Step(s, a).mem.freed
  {
    hide Inv, Without;
  }

  // ---------------------------------------------------------------- every step, every run

  /** Steps that leave the chain alone. */
  lemma SameChain(s: State, s': State)
    requires HeadInv(s) && s'.hist.chain == s.hist.chain && s'.hist.fate == s.hist.fate
    requires forall n :: n in s'.pushers ==> n in s.pushers && s'.pushers[n].prev == s.pushers[n].prev
    requires forall n :: n in s.mem.nodes || n in s.mem.freed ==> n in s'.mem.nodes || n in s'.mem.freed
    ensures HeadInv(s')
  {
    hide Behind, WasRemoved;
  }

  lemma SwapKeepsHead(s: State, n: Nid, v: Value)
    requires Inv(s) && HeadInv(s) && Enabled(s, StartPush(n, v))
    ensures HeadInv(PushSwap(s, n, v))
  {
    hide Inv, BehindInv;
    ChainEnds(s);
    SwapBehind(s.hist.chain, s.hist.fate, s.pushers, n);
  }

  lemma TakeKeepsHead(s: State)
    requires Inv(s) && HeadInv(s) && s.mem.nodes[s.tail].next.Some? && s.consumer.Spin?
    requires Enabled(s, Consume(true)) && !s.consumer.kind.Peek?
    ensures HeadInv(Step(s, Consume(true)))
  {
    hide Inv, BehindInv, Release, ClearLink;
    ChainEnds(s);
    Successor(s);
    WaitingHasNoFate(s, 1);
    var m := s.hist.chain[1];
    TakeBehind(s.hist.chain, s.hist.fate, s.pushers, Popped(s.mem.nodes[m].value));
    forall n | n in s.mem.nodes || n in s.mem.freed
      ensures n in Step(s, Consume(true)).mem.nodes || n in Step(s, Consume(true)).mem.freed
    {
      KnownStays(s, Consume(true), n);
    }
  }

  lemma RemoveKeepsHead(s: State, n: Nid)
    requires Inv(s) && HeadInv(s) && Enabled(s, RemoveEntry(n)) && Removable(s, n)
    ensures HeadInv(Remove(s, n))
  {
    hide Inv, BehindInv, Without;
    ChainEnds(s);
    var k := RemovableExactly(s, n);
    WaitingHasNoFate(s, k);
    WithoutAt(s.hist.chain, k);
    RemoveBehind(s.hist.chain, s.hist.fate, s.pushers, k, Removed(s.mem.nodes[n].value));
    RemoveResult(s, n, k);
    RemoveFields(s, n);
    forall m | m in s.mem.nodes || m in s.mem.freed
      ensures m in Step(s, RemoveEntry(n)).mem.nodes || m in Step(s, RemoveEntry(n)).mem.freed
    {
      KnownStays(s, RemoveEntry(n), m);
    }
    hide Remove;
  }

  lemma StepKeepsHead(s: State, a: Action)
    requires Inv(s) && HeadInv(s) && Enabled(s, a)
    ensures HeadInv(Step(s, a))
  {
    hide Inv, HeadInv, Release, ClearLink, Take, Unlink;
    forall n | n in s.mem.nodes || n in s.mem.freed
      ensures n in Step(s, a).mem.nodes || n in Step(s, a).mem.freed
    {
      KnownStays(s, a, n);
    }
    match a
    case StartPush(n, v) => SwapKeepsHead(s, n, v);
    case Consume(accept) =>
      if s.consumer.Spin? && s.consumer.kind != Peek && (s.consumer.kind != PopIf || accept) {
        TakeKeepsHead(s);
      } else {
        SameChain(s, Step(s, a));
      }
    case RemoveEntry(n) => if Removable(s, n) { RemoveKeepsHead(s, n); } else { SameChain(s, Step(s, a)); }
    case _ => SameChain(s, Step(s, a));
  }

  /** An answer is given once. */
  ghost predicate AnswersInv(s: State) {
    forall n :: n in s.hist.heads ==> n in s.hist.val && n !in s.pushers
  }

  lemma StepKeepsAnswers(s: State, a: Action)
    requires Inv(s) && AnswersInv(s) && Enabled(s, a)
    ensures AnswersInv(Step(s, a))
  {
    hide Inv, Release, ClearLink, SetNode, Without;
    if a.Push? { PushedHasValue(s, a.n); }
  }

  lemma PushedHasValue(s: State, n: Nid)
    requires Inv(s) && n in s.pushers
    ensures n in s.hist.val
  {
    hide ChainInv, LinksInv, RefsInv, ValuesInv, HistInv;
  }

  lemma {:induction false} RunHead(r: seq<State>, acts: seq<Action>, i: nat)
    requires Run(r, acts) && i < |r|
    ensures Inv(r[i]) && HeadInv(r[i]) && AnswersInv(r[i])
  {
    hide Inv, Step, Enabled;
    RunInv(r, acts, i);
    if i > 0 {
      hide HeadInv, AnswersInv;
      RunHead(r, acts, i - 1);
      StepKeepsHead(r[i - 1], acts[i - 1]);
      StepKeepsAnswers(r[i - 1], acts[i - 1]);
    }
  }

  // ---------------------------------------------------------------- the answer

  lemma TailIsPrevExactly(s: State, n: Nid)
    requires Inv(s) && HeadInv(s) && n in s.pushers
    ensures s.tail == s.pushers[n].prev <==>
      |s.hist.chain| > 1 && s.hist.chain[1] == n && !WasRemoved(s.hist.fate, s.pushers[n].prev)
  {
    hide Inv;
    ChainEnds(s);
    assert Behind(s.hist.chain, s.hist.fate, n, s.pushers[n].prev);
    if s.tail == s.pushers[n].prev { assert s.hist.chain[0] == s.pushers[n].prev; }
    if |s.hist.chain| > 1 && s.hist.chain[1] == n && !WasRemoved(s.hist.fate, s.pushers[n].prev) {
      WaitingHasNoFate(s, 1);
      var k :| 0 <= k < |s.hist.chain| && s.hist.chain[k] == s.pushers[n].prev;
      assert s.hist.chain[k + 1] == n;
    }
  }

  /**
   A push is told that it is first exactly when its value is the oldest one waiting at its load of the tail, and its
   predecessor was not removed through a handle meanwhile.
   */
  lemma IsHeadExactly(r: seq<State>, acts: seq<Action>, i: nat)
    requires Run(r, acts) && i < |acts| && acts[i].Push? && acts[i].n in r[i].pushers
    requires r[i].pushers[acts[i].n].ReadTail?
    ensures var s, n := r[i], acts[i].n;
      var live := Live(s.hist.order, s.hist.fate);
      n in r[i + 1].hist.heads <==> live != [] && live[0] == n && !WasRemoved(s.hist.fate, s.pushers[n].prev)
  {
    hide Inv, HeadInv, Live, WasRemoved;
    RunHead(r, acts, i);
    LiveIsChain(r[i]);
    TailIsPrevExactly(r[i], acts[i].n);
    assert r[i + 1] == Step(r[i], acts[i]);
  }

  // ---------------------------------------------------------------- a removed predecessor

  ghost predicate Reached(s: State) {
    exists r: seq<State>, acts: seq<Action> :: Run(r, acts) && r[|acts|] == s
  }

  lemma ReachStep(s: State, a: Action)
    requires Reached(s) && Enabled(s, a)
    ensures Reached(Step(s, a))
  {
    hide Step, Enabled, New;
    var r: seq<State>, acts: seq<Action> :| Run(r, acts) && r[|acts|] == s;
    var r', acts' := r + [Step(s, a)], acts + [a];
    assert Run(r', acts') && r'[|acts'|] == Step(s, a);
  }

  /** One push is done. */
  lemma ReachFirst(v: Value) returns (s: State)
    ensures Reached(s) && s.head == 1 && s.tail == 0 && s.pushers == map[] && s.consumer.Idle? && s.mem.freed == {}
    ensures s.mem.nodes == map[0 := Node(None, Some(1), None, 1), 1 := Node(Some(0), None, Some(v), REF_INIT)]
    ensures s.hist == Hist([0, 1], [1], map[1 := v], map[], {1}, {1})
  {
    var s0 := New(0);
    var r, acts: seq<Action> := [s0], [];
    assert Run(r, acts) && r[|acts|] == s0;
    ReachStep(s0, StartPush(1, v));
    var s1 := Step(s0, StartPush(1, v));
    ReachStep(s1, Push(1));
    var s2 := Step(s1, Push(1));
    ReachStep(s2, Push(1));
    var s3 := Step(s2, Push(1));
    ReachStep(s3, Push(1));
    s := Step(s3, Push(1));
  }

  /** A second push is linked behind the first and has still to load the tail. */
  lemma ReachSecond(v: Value) returns (s: State)
    ensures Reached(s) && s.tail == 0 && s.pushers == map[2 := ReadTail(1)] && s.consumer.Idle?
    ensures s.hist == Hist([0, 1, 2], [1, 2], map[1 := v, 2 := v], map[], {1, 2}, {1})
    ensures s.mem.nodes == map[0 := Node(None, Some(1), None, 1), 1 := Node(Some(0), Some(2), Some(v), REF_INIT),
                               2 := Node(Some(1), None, Some(v), REF_INIT)]
  {
    var s0 := ReachFirst(v);
    ReachStep(s0, StartPush(2, v));
    var s1 := Step(s0, StartPush(2, v));
    ReachStep(s1, Push(2));
    var s2 := Step(s1, Push(2));
    ReachStep(s2, Push(2));
    s := Step(s2, Push(2));
  }

  /** A push that makes its value the oldest waiting one, and is not told so. */
  ghost predicate MissesHead(s: State, n: Nid) {
    && Enabled(s, Push(n)) && s.pushers[n].ReadTail? && s.hist.chain == [s.tail, n]
    && n !in Step(s, Push(n)).hist.heads
  }

  /** The first value is removed through its handle before the second push loads the tail. */
  lemma RemovalHidesHead(v: Value)
    ensures exists s :: Reached(s) && MissesHead(s, 2)
  {
    var s := ReachSecond(v);
    var x := s.mem.nodes[1];
    assert IsLinked(x.refs) && Removable(s, 1) && Cleared(x.refs) == 2;
    assert RemoveSafe(s, 1);
    ReachStep(s, RemoveEntry(1));
    var s1 := Step(s, RemoveEntry(1));
    WithoutFirst();
    assert s1.hist.chain == [0, 2] && s1.tail == 0;
    assert 2 in s1.mem.nodes;
    assert MissesHead(s1, 2);
  }

  lemma WithoutFirst()
    ensures Without([0, 1, 2], 1) == [0, 2]
  {
    assert [0, 1, 2][1..] == [1, 2];
    assert [1, 2][1..] == [2];
    assert Without([1, 2], 1) == [2];
  }
}
