/** A run that fills the channel buffer to its bound, for every limit and every number of senders. */
module ChannelWitness {
  import opened Common
  import opened Channel
  import S = SemphoreSteps

  ghost predicate Reached(s: State) {
    exists r: seq<State>, acts: seq<Action> :: Run(r, acts) && r[|acts|] == s
  }

  lemma ReachStep(s: State, a: Action)
    requires Reached(s) && Enabled(s, a)
    ensures Reached(Step(s, a))
  {
    hide Step, Enabled, New;
    var r: seq<State>, acts: seq<Action> :| Run(r, acts) && r[|acts|] == s;
    var r', acts' := r + [Step(s, a)], acts + [a];
    assert Run(r', acts') && r'[|acts'|] == Step(s, a);
  }

  /** Senders below `i` have pushed, the others below `j` have seen room. */
  function Crowd(v: Value, i: nat, j: nat): map<Tid, Sender> {
    map t: Tid | t < j && Joined(t, j) :: if t < i then Post else Ready(v)
  }

  predicate Joined(t: Tid, j: nat) { t < j }

  lemma {:induction false} CrowdSize(v: Value, j: nat)
    ensures |Crowd(v, 0, j)| == j
  {
    if j > 0 {
      CrowdSize(v, j - 1);
      assert Crowd(v, 0, j) == Crowd(v, 0, j - 1)[j - 1 := Ready(v)];
    }
  }

  /** `n` values are in the buffer, and posts are named below `p`. */
  ghost predicate Holds(s: State, limit: nat, n: nat, p: nat, senders: map<Tid, Sender>) {
    && Reached(s) && s.limit == limit && |s.buffer| == n && s.senders == senders
    && s.receivers == map[] && s.ends == Ends(1, 1, false, false)
    && forall q: nat :: q >= p ==> Fresh(s.wake, q)
  }

  /** A sender finds the channel open and room in the buffer. */
  lemma SeesRoom(s: State, limit: nat, n: nat, p: nat, senders: map<Tid, Sender>, t: Tid, v: Value) returns (s': State)
    requires Holds(s, limit, n, p, senders) && n < limit && t !in senders
    ensures Holds(s', limit, n, p, senders[t := Ready(v)])
    ensures s'.sets.peak == if |senders| + 1 > s.sets.peak then |senders| + 1 else s.sets.peak
  {
    hide Reached, Fresh, S.Step, S.Enabled;
    assert Fresh(s.wake, p);
    ReachStep(s, StartSend(t, v, false));
    var s1 := Step(s, StartSend(t, v, false));
    ReachStep(s1, Send(t, p, false));
    var s2 := Step(s1, Send(t, p, false));
    ReachStep(s2, Send(t, p, false));
    s' := Step(s2, Send(t, p, false));
    assert s'.senders == senders[t := Ready(v)];
  }

  lemma Pushes(s: State, limit: nat, n: nat, p: nat, senders: map<Tid, Sender>, t: Tid) returns (s': State)
    requires Holds(s, limit, n, p, senders) && t in senders && senders[t].Ready?
    ensures Holds(s', limit, n + 1, p, senders[t := Post]) && s'.sets.peak == s.sets.peak
  {
    hide Reached, Fresh, S.Step, S.Enabled;
    assert Fresh(s.wake, p);
    ReachStep(s, Send(t, p, false));
    s' := Step(s, Send(t, p, false));
  }

  /** A send from start to end. */
  lemma SendOne(s: State, limit: nat, n: nat, v: Value) returns (s': State)
    requires Holds(s, limit, n, n, map[]) && n < limit && s.sets.peak <= 1
    ensures Holds(s', limit, n + 1, n + 1, map[]) && s'.sets.peak <= 1
  {
    var s1 := SeesRoom(s, limit, n, n, map[], 0, v);
    var s2 := Pushes(s1, limit, n, n, map[0 := Ready(v)], 0);
    hide Reached;
    assert Fresh(s2.wake, n);
    ReachStep(s2, Send(0, n, false));
    s' := Step(s2, Send(0, n, false));
    assert s'.senders == map[];
    assert s'.wake == S.Step(s2.wake, S.StartPost(n));
    forall q: nat | q >= n + 1
      ensures Fresh(s'.wake, q)
    {
      assert Fresh(s2.wake, q);
    }
  }

  lemma {:induction false} FillTo(limit: nat, n: nat, v: Value) returns (s: State)
    requires n <= limit
    ensures Holds(s, limit, n, n, map[]) && s.sets.peak <= 1
  {
    hide Holds;
    if n == 0 {
      s := New(limit);
      EmptyHolds(limit);
    } else {
      var s0 := FillTo(limit, n - 1, v);
      s := SendOne(s0, limit, n - 1, v);
    }
  }

  lemma EmptyHolds(limit: nat)
    ensures Holds(New(limit), limit, 0, 0, map[])
  {
    var r, acts: seq<Action> := [New(limit)], [];
    assert Run(r, acts) && r[|acts|] == New(limit);
  }

  /** One place is left, and `j` senders have seen it. */
  lemma {:induction false} Gather(limit: nat, j: nat, v: Value) returns (s: State)
    requires limit > 0
    ensures Holds(s, limit, limit - 1, limit - 1, Crowd(v, 0, j)) && s.sets.peak <= (if j > 1 then j else 1)
    ensures j <= s.sets.peak
  {
    hide Holds;
    if j == 0 {
      s := FillTo(limit, limit - 1, v);
      assert Crowd(v, 0, 0) == map[];
    } else {
      var s0 := Gather(limit, j - 1, v);
      CrowdSize(v, j - 1);
      s := SeesRoom(s0, limit, limit - 1, limit - 1, Crowd(v, 0, j - 1), j - 1, v);
      assert Crowd(v, 0, j) == Crowd(v, 0, j - 1)[j - 1 := Ready(v)];
    }
  }

  /** All of them push. */
  lemma {:induction false} Rush(limit: nat, i: nat, j: nat, v: Value) returns (s: State)
    requires limit > 0 && i <= j
    ensures Holds(s, limit, limit - 1 + i, limit - 1, Crowd(v, i, j)) && s.sets.peak <= (if j > 1 then j else 1)
    ensures j <= s.sets.peak
  {
    hide Holds;
    if i == 0 {
      s := Gather(limit, j, v);
    } else {
      var s0 := Rush(limit, i - 1, j, v);
      s := Pushes(s0, limit, limit - 1 + (i - 1), limit - 1, Crowd(v, i - 1, j), i - 1);
      assert Crowd(v, i, j) == Crowd(v, i - 1, j)[i - 1 := Post];
    }
  }

  /** The bound on the buffer is reached, whatever the limit and the number of senders. */
  lemma BoundIsReached(limit: nat, n: nat, v: Value)
    requires limit > 0 && n > 0
    ensures exists s :: Reached(s) && s.limit == limit && s.sets.peak == n && |s.buffer| == limit + n - 1
  {
    var s := Rush(limit, n, n, v);
    hide Reached;
    assert Reached(s) && s.limit == limit;
  }
}
