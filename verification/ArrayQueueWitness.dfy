/**
 What a call overtaken by a period can do, at every capacity: for each of the four compares a run of timely steps
 ends in a state where the next compare goes wrong.
 */
module ArrayQueueWitness {
  import opened Common
  import opened ArrayQueueWords
  import opened ArrayQueueSteps
  import opened ArrayQueueProof
  import opened ArrayQueueTheorems

  /** Some run of timely steps ends here. */
  ghost predicate Reached(c: Config, s: State) {
    exists r: seq<State>, acts: seq<Action> ::
      Run(r, acts) && r[0].cfg == c && TimelyBefore(r, acts, |acts|) && r[|acts|] == s
  }

  lemma ReachNew(c: Config)
    requires ValidConfig(c)
    ensures Reached(c, New(c))
  {
    hide Mul;
    var r := [New(c)];
    assert Run(r, []) && TimelyBefore(r, [], 0);
  }

  lemma ReachStep(c: Config, s: State, a: Action)
    requires Reached(c, s) && Enabled(s, a) && Timely(s, a)
    ensures Reached(c, Step(s, a))
  {
    hide Step, Enabled, New, Timely, ValidConfig;
    var r: seq<State>, acts: seq<Action> :|
      Run(r, acts) && r[0].cfg == c && TimelyBefore(r, acts, |acts|) && r[|acts|] == s;
    var r', acts' := r + [Step(s, a)], acts + [a];
    assert Run(r', acts') && TimelyBefore(r', acts', |acts'|) && r'[|acts'|] == Step(s, a);
  }

  lemma ReachedFacts(c: Config, s: State)
    requires Reached(c, s)
    ensures Inv(s) && ValidConfig(c) && s.cfg == c
  {
    hide Inv, Step, Enabled, New, Timely, ValidConfig;
    var r: seq<State>, acts: seq<Action> :|
      Run(r, acts) && r[0].cfg == c && TimelyBefore(r, acts, |acts|) && r[|acts|] == s;
    TimelyRunStands(r, acts, |acts|);
    RunInv(r, acts, |acts|);
    TicketsGrow(r, acts, 0, |acts|);
  }

  // ---------------------------------------------------------------- whole pushes and pops

  /** Tickets `h` to `t` wait, no call is at work on a cell, and these calls are on their way. */
  ghost predicate Calm(c: Config, s: State, h: nat, t: nat, pushers: map<Tid, Pusher>, poppers: map<Tid, Popper>) {
    && Reached(c, s) && s.log.popped == h && |s.log.pushed| == t
    && s.calls == Calls(pushers, map[], poppers, map[])
  }

  lemma IdleSlotFree(s: State)
    requires Inv(s) && Idle(s) && |s.log.pushed| < s.log.popped + s.cfg.cap
    ensures s.log.turn[Slot(s.cfg, |s.log.pushed|)] == Free(|s.log.pushed|)
  {
    hide Stamp, Slot, TurnStamp, WritersInv, ReadersInv, CellsInv, DeliveredInv, PushersInv, PoppersInv;
    var n := |s.log.pushed|;
    var turn := s.log.turn[Slot(s.cfg, n)];
    if turn.n <= n { SlotsEqual(s.cfg, turn.n, n); } else { SlotsEqual(s.cfg, n, turn.n); }
  }

  lemma CalmFacts(c: Config, s: State, h: nat, t: nat, pushers: map<Tid, Pusher>, poppers: map<Tid, Popper>)
    requires Calm(c, s, h, t, pushers, poppers)
    ensures Inv(s) && ValidConfig(c) && s.cfg == c && h <= t <= h + c.cap
    ensures c.cap > 0 && c.oneLap > 0 && Period(c) >= 2 * c.cap
    ensures s.ring.head == Stamp(c, h) && s.ring.tail == Stamp(c, t)
    ensures t < h + c.cap ==> StampAt(s, s.ring.tail) == s.ring.tail
    ensures h < t ==> StampAt(s, s.ring.head) == s.ring.head + 1
  {
    hide Inv, Mul, Stamp, Slot, StampAt, Reached, Period;
    ReachedFacts(c, s);
    EndsFacts(s);
    PeriodBound(c);
    FreeAtTail(s);
    FullAtHead(s);
    if t < h + c.cap { IdleSlotFree(s); }
    if h < t { IdleSlotFull(s, h); }
  }

  /** A push on its way has loaded the tail and is about to load the stamp. */
  lemma PushLoads(c: Config, s: State, h: nat, t: nat, pushers: map<Tid, Pusher>, poppers: map<Tid, Popper>, x: Tid,
                  v: Value)
    returns (s': State)
    requires Calm(c, s, h, t, pushers, poppers) && x !in pushers
    ensures s'.ring == s.ring && s'.log == s.log && s'.cfg == c
    ensures Calm(c, s', h, t, pushers[x := LoadStamp(v, s.ring.tail, t)], poppers)
  {
    hide Reached, Inv, ValidConfig, Period, Stamp, StampAt, NextStamp;
    CalmFacts(c, s, h, t, pushers, poppers);
    ReachStep(c, s, StartPush(x, v));
    var s1 := Step(s, StartPush(x, v));
    ReachStep(c, s1, Push(x, true));
    s' := Step(s1, Push(x, true));
    assert s'.calls.pushers == pushers[x := LoadStamp(v, s.ring.tail, t)];
  }

  /** It sees its slot free when the queue has room. */
  lemma PushSeesFree(c: Config, s: State, h: nat, t: nat, pushers: map<Tid, Pusher>, poppers: map<Tid, Popper>, x: Tid,
                     v: Value)
    returns (s': State)
    requires Calm(c, s, h, t, pushers, poppers) && x !in pushers && t < h + c.cap
    ensures Calm(c, s', h, t, pushers[x := TryTail(v, s.ring.tail, t)], poppers)
    ensures s'.ring == s.ring && s'.log == s.log && s'.cfg == c
  {
    hide Reached, Inv, ValidConfig, Period, Stamp, StampAt, NextStamp;
    CalmFacts(c, s, h, t, pushers, poppers);
    var s1 := PushLoads(c, s, h, t, pushers, poppers, x, v);
    CalmFacts(c, s1, h, t, s1.calls.pushers, poppers);
    ReachStep(c, s1, Push(x, true));
    s' := Step(s1, Push(x, true));
    assert s'.calls.pushers == pushers[x := TryTail(v, s.ring.tail, t)];
  }

  lemma PushOne(c: Config, s: State, h: nat, t: nat, pushers: map<Tid, Pusher>, poppers: map<Tid, Popper>, v: Value)
    returns (s': State)
    requires Calm(c, s, h, t, pushers, poppers) && 1 !in pushers && t < h + c.cap
    ensures Calm(c, s', h, t + 1, pushers, poppers)
  {
    hide Reached, Inv, ValidConfig, Period, Stamp, StampAt, NextStamp, SetAt;
    CalmFacts(c, s, h, t, pushers, poppers);
    var s1 := PushSeesFree(c, s, h, t, pushers, poppers, 1, v);
    ReachStep(c, s1, Push(1, true));
    var s2 := Step(s1, Push(1, true));
    ReachStep(c, s2, Write(t));
    var s3 := Step(s2, Write(t));
    ReachStep(c, s3, Write(t));
    s' := Step(s3, Write(t));
    assert s'.calls.pushers == pushers;
    assert s'.calls.writers == map[];
  }

  /** A pop on its way sees its slot full when a value waits. */
  lemma PopSeesFull(c: Config, s: State, h: nat, t: nat, pushers: map<Tid, Pusher>, poppers: map<Tid, Popper>, x: Tid)
    returns (s': State)
    requires Calm(c, s, h, t, pushers, poppers) && x !in poppers && h < t
    ensures Calm(c, s', h, t, pushers, poppers[x := TryHead(s.ring.head, h)])
    ensures s'.ring == s.ring && s'.log == s.log && s'.cfg == c
  {
    hide Reached, Inv, ValidConfig, Period, Stamp, StampAt, NextStamp;
    CalmFacts(c, s, h, t, pushers, poppers);
    ReachStep(c, s, StartPop(x));
    var s1 := Step(s, StartPop(x));
    ReachStep(c, s1, Pop(x, true));
    var s2 := Step(s1, Pop(x, true));
    assert s2.calls.poppers == poppers[x := LoadSlot(s.ring.head, h)];
    CalmFacts(c, s2, h, t, pushers, s2.calls.poppers);
    ReachStep(c, s2, Pop(x, true));
    s' := Step(s2, Pop(x, true));
    assert s'.calls.poppers == poppers[x := TryHead(s.ring.head, h)];
  }

  lemma PopOne(c: Config, s: State, h: nat, t: nat, pushers: map<Tid, Pusher>, poppers: map<Tid, Popper>)
    returns (s': State)
    requires Calm(c, s, h, t, pushers, poppers) && 1 !in poppers && h < t
    ensures Calm(c, s', h + 1, t, pushers, poppers)
  {
    hide Reached, Inv, ValidConfig, Period, Stamp, StampAt, NextStamp, SetAt;
    CalmFacts(c, s, h, t, pushers, poppers);
    var s1 := PopSeesFull(c, s, h, t, pushers, poppers, 1);
    ReachStep(c, s1, Pop(1, true));
    var s2 := Step(s1, Pop(1, true));
    ReachStep(c, s2, Read(h));
    var s3 := Step(s2, Read(h));
    ReachStep(c, s3, Read(h));
    s' := Step(s3, Read(h));
    assert s'.calls.poppers == poppers;
    assert s'.calls.readers == map[];
  }

  // ---------------------------------------------------------------- any number of them

  /** An empty queue stays so over `k` pushes, each popped again. */
  lemma {:induction false} Cycle(c: Config, s: State, h: nat, pushers: map<Tid, Pusher>, poppers: map<Tid, Popper>,
                                 v: Value, k: nat)
    returns (s': State)
    requires Calm(c, s, h, h, pushers, poppers) && 1 !in pushers && 1 !in poppers
    ensures Calm(c, s', h + k, h + k, pushers, poppers)
    decreases k
  {
    hide Calm, Inv, ValidConfig, Period, Stamp, StampAt;
    if k == 0 {
      s' := s;
    } else {
      CalmFacts(c, s, h, h, pushers, poppers);
      var s1 := PushOne(c, s, h, h, pushers, poppers, v);
      var s2 := PopOne(c, s1, h, h + 1, pushers, poppers);
      s' := Cycle(c, s2, h + 1, pushers, poppers, v, k - 1);
    }
  }

  lemma {:induction false} FillTo(c: Config, s: State, h: nat, t: nat, pushers: map<Tid, Pusher>,
                                  poppers: map<Tid, Popper>, v: Value)
    returns (s': State)
    requires Calm(c, s, h, t, pushers, poppers) && 1 !in pushers && t <= h + c.cap
    ensures Calm(c, s', h, h + c.cap, pushers, poppers)
    decreases h + c.cap - t
  {
    hide Calm, Inv, ValidConfig, Period, Stamp, StampAt;
    if t == h + c.cap {
      s' := s;
    } else {
      var s1 := PushOne(c, s, h, t, pushers, poppers, v);
      s' := FillTo(c, s1, h, t + 1, pushers, poppers, v);
    }
  }

  lemma {:induction false} DrainAll(c: Config, s: State, h: nat, t: nat, pushers: map<Tid, Pusher>,
                                    poppers: map<Tid, Popper>)
    returns (s': State)
    requires Calm(c, s, h, t, pushers, poppers) && 1 !in poppers && h <= t
    ensures Calm(c, s', t, t, pushers, poppers)
    decreases t - h
  {
    hide Calm, Inv, ValidConfig, Period, Stamp, StampAt;
    if h == t {
      s' := s;
    } else {
      var s1 := PopOne(c, s, h, t, pushers, poppers);
      s' := DrainAll(c, s1, h + 1, t, pushers, poppers);
    }
  }

  lemma CalmNew(c: Config)
    requires ValidConfig(c)
    ensures Calm(c, New(c), 0, 0, map[], map[])
  {
    hide Reached, ValidConfig;
    ReachNew(c);
  }

  // ---------------------------------------------------------------- the four stale compares

  /** The stale tail CAS succeeds on a full queue. */
  ghost predicate Overfills(s: State, a: Action) {
    Enabled(s, a) && |Queue(s)| == s.cfg.cap && |Queue(Step(s, a))| == s.cfg.cap + 1
  }

  lemma StaleTailOverfills(c: Config, v: Value)
    requires ValidConfig(c)
    ensures exists s :: Reached(c, s) && Overfills(s, Push(0, true))
  {
    hide ValidConfig, Reached, Inv, Stamp, Period, StampAt, NextStamp;
    CalmNew(c);
    CalmFacts(c, New(c), 0, 0, map[], map[]);
    var s1 := PushSeesFree(c, New(c), 0, 0, map[], map[], 0, v);
    var pushers := s1.calls.pushers;
    var s2 := Cycle(c, s1, 0, pushers, map[], v, Period(c) - c.cap);
    var s := FillTo(c, s2, Period(c) - c.cap, Period(c) - c.cap, pushers, map[], v);
    CalmFacts(c, s, Period(c) - c.cap, Period(c), pushers, map[]);
    TailCasSucceedsByPeriods(s, 0);
    assert Overfills(s, Push(0, true));
  }

  /** The stale head CAS succeeds on an empty queue: the pop owns a ticket that no push has won. */
  ghost predicate Underflows(s: State, a: Action) {
    && Enabled(s, a) && Queue(s) == []
    && Step(s, a).log.popped == |Step(s, a).log.pushed| + 1 && |s.log.pushed| in Step(s, a).calls.readers
  }

  lemma StaleHeadUnderflows(c: Config, v: Value)
    requires ValidConfig(c)
    ensures exists s :: Reached(c, s) && Underflows(s, Pop(0, true))
  {
    hide ValidConfig, Reached, Inv, Stamp, Period, StampAt, NextStamp;
    CalmNew(c);
    CalmFacts(c, New(c), 0, 0, map[], map[]);
    var s1 := PushOne(c, New(c), 0, 0, map[], map[], v);
    var s2 := PopSeesFull(c, s1, 0, 1, map[], map[], 0);
    var poppers := s2.calls.poppers;
    var s3 := PopOne(c, s2, 0, 1, map[], poppers);
    var s := Cycle(c, s3, 1, map[], poppers, v, Period(c) - 1);
    CalmFacts(c, s, Period(c), Period(c), map[], poppers);
    HeadCasSucceedsByPeriods(s, 0);
    assert Underflows(s, Pop(0, true));
  }

  /** The stale compare with the head refuses a value although the queue is empty. */
  ghost predicate RefusesWithRoom(s: State, a: Action) {
    && Enabled(s, a) && a.Push? && s.calls.pushers[a.t].CheckFull?
    && Queue(s) == [] && s.cfg.cap > 0 && a.t !in Step(s, a).calls.pushers
  }

  /** A push that finds the queue full is about to load the head. */
  lemma PushSeesFull(c: Config, s: State, v: Value) returns (s': State)
    requires Calm(c, s, 0, c.cap, map[], map[])
    ensures Calm(c, s', 0, c.cap, map[0 := CheckFull(v, s.ring.tail, c.cap)], map[])
  {
    hide Reached, Inv, ValidConfig, Period, Stamp, StampAt, NextStamp, WrappingAdd;
    CalmFacts(c, s, 0, c.cap, map[], map[]);
    var s1 := PushLoads(c, s, 0, c.cap, map[], map[], 0, v);
    CalmFacts(c, s1, 0, c.cap, s1.calls.pushers, map[]);
    FullStampReads(s1);
    ReachStep(c, s1, Push(0, true));
    s' := Step(s1, Push(0, true));
    assert s'.calls.pushers == map[0 := CheckFull(v, s.ring.tail, c.cap)];
  }

  /** In the first lap a full slot's stamp, one lap up, is one past the tail. */
  lemma FullStampReads(s: State)
    requires Inv(s) && s.log.popped == 0 && |s.log.pushed| == s.cfg.cap && s.cfg.oneLap > 0
    requires StampAt(s, s.ring.head) == s.ring.head + 1
    ensures StampAt(s, s.ring.tail) != s.ring.tail
    ensures WrappingAdd(StampAt(s, s.ring.tail), s.cfg.oneLap) == s.ring.tail + 1
  {
    hide Inv, Mul, Stamp, WrappingAdd, ValidConfig;
    EndsFacts(s);
    StampOfNextLap(s.cfg, 0);
    StampParts(s.cfg, 0);
    StampParts(s.cfg, s.cfg.cap);
    SlotOfNextLap(s.cfg, 0);
    FirstStamp(s.cfg);
    Wraps(0, s.cfg.oneLap, s.cfg.oneLap);
    Wraps(1, s.cfg.oneLap, s.cfg.oneLap + 1);
  }

  lemma FirstStamp(c: Config)
    requires ValidConfig(c)
    ensures Stamp(c, 0) == 0 && c.oneLap + 1 < WORDS
  {
    hide Mul;
    MulOne(c.oneLap);
    MulMonotone(2, c.laps, c.oneLap);
  }

  lemma StaleRefusalWithRoom(c: Config, v: Value)
    requires ValidConfig(c)
    ensures exists s :: Reached(c, s) && RefusesWithRoom(s, Push(0, true))
  {
    hide ValidConfig, Reached, Inv, Stamp, Period, StampAt, NextStamp;
    CalmNew(c);
    CalmFacts(c, New(c), 0, 0, map[], map[]);
    var s1 := FillTo(c, New(c), 0, 0, map[], map[], v);
    var s2 := PushSeesFull(c, s1, v);
    var pushers := s2.calls.pushers;
    var s3 := DrainAll(c, s2, 0, c.cap, pushers, map[]);
    var s := Cycle(c, s3, c.cap, pushers, map[], v, Period(c) - c.cap);
    CalmFacts(c, s, Period(c), Period(c), pushers, map[]);
    PushFailsExactlyWhenFull(s, 0, true);
    assert RefusesWithRoom(s, Push(0, true));
  }

  /** The stale compare with the tail answers nothing although the queue is full. */
  ghost predicate MissesValues(s: State, a: Action) {
    && Enabled(s, a) && a.Pop? && s.calls.poppers[a.t].CheckEmpty?
    && |Queue(s)| == s.cfg.cap > 0 && a.t !in Step(s, a).calls.poppers
  }

  /** A pop that finds the queue empty is about to load the tail. */
  lemma PopSeesFree(c: Config) returns (s: State)
    requires ValidConfig(c)
    ensures Calm(c, s, 0, 0, map[], map[0 := CheckEmpty(0, 0)])
  {
    hide Reached, Inv, ValidConfig, Period, StampAt, NextStamp;
    CalmNew(c);
    CalmFacts(c, New(c), 0, 0, map[], map[]);
    ReachStep(c, New(c), StartPop(0));
    var s1 := Step(New(c), StartPop(0));
    ReachStep(c, s1, Pop(0, true));
    var s2 := Step(s1, Pop(0, true));
    assert s2.calls.poppers == map[0 := LoadSlot(0, 0)];
    CalmFacts(c, s2, 0, 0, map[], s2.calls.poppers);
    ReachStep(c, s2, Pop(0, true));
    s := Step(s2, Pop(0, true));
    assert s.calls.poppers == map[0 := CheckEmpty(0, 0)];
  }

  lemma StaleAnswerMissesValues(c: Config, v: Value)
    requires ValidConfig(c)
    ensures exists s :: Reached(c, s) && MissesValues(s, Pop(0, true))
  {
    hide ValidConfig, Reached, Inv, Stamp, Period, StampAt, NextStamp;
    var s1 := PopSeesFree(c);
    CalmFacts(c, s1, 0, 0, map[], s1.calls.poppers);
    var poppers := s1.calls.poppers;
    var s2 := Cycle(c, s1, 0, map[], poppers, v, Period(c) - c.cap);
    var s := FillTo(c, s2, Period(c) - c.cap, Period(c) - c.cap, map[], poppers, v);
    CalmFacts(c, s, Period(c) - c.cap, Period(c), map[], poppers);
    PopFailsExactlyWhenEmpty(s, 0, true);
    assert MissesValues(s, Pop(0, true));
  }
}
