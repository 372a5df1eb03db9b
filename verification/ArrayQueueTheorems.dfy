/** What the bounded ring queue promises its users, over every run. */
module ArrayQueueTheorems {
  import opened Common
  import opened ArrayQueueWords
  import opened ArrayQueueSteps
  import opened ArrayQueueProof

  /** The abstract queue: values whose tail CAS succeeded and that no head CAS has taken. */
  function Queue(s: State): seq<Value> {
    if s.log.popped <= |s.log.pushed| then s.log.pushed[s.log.popped..] else []
  }

  // ---------------------------------------------------------------- bounded FIFO

  ghost predicate Stutter(s: State, s': State) {
    s'.log.pushed == s.log.pushed && s'.log.popped == s.log.popped
  }

  /** A successful tail CAS appends its call's value to a queue that was not full, and hands the call a slot. */
  ghost predicate Enqueue(s: State, s': State, t: Tid) {
    && t in s.calls.pushers && t !in s'.calls.pushers
    && |Queue(s)| < s.cfg.cap
    && Queue(s') == Queue(s) + [s.calls.pushers[t].v]
    && |s.log.pushed| in s'.calls.writers && |s.log.pushed| !in s.calls.writers
  }

  /** A successful head CAS removes the front of a queue that was not empty, and hands the call its slot. */
  ghost predicate Dequeue(s: State, s': State, t: Tid) {
    && t in s.calls.poppers && t !in s'.calls.poppers
    && Queue(s) != [] && Queue(s') == Queue(s)[1..]
    && s.log.popped in s'.calls.readers && s.log.popped !in s.calls.readers && s.log.popped !in s.log.delivered
    && s.log.popped !in s.calls.writers
  }

  lemma QueueGrows(s: State, s': State, v: Value)
    requires s.log.popped <= |s.log.pushed| && s'.log.pushed == s.log.pushed + [v] && s'.log.popped == s.log.popped
    ensures Queue(s') == Queue(s) + [v] && |Queue(s)| == |s.log.pushed| - s.log.popped
  {
  }

  lemma QueueShrinks(s: State, s': State)
    requires s.log.popped < |s.log.pushed| && s'.log.pushed == s.log.pushed && s'.log.popped == s.log.popped + 1
    ensures Queue(s) != [] && Queue(s') == Queue(s)[1..]
  {
  }

  lemma FreeSlotFacts(s: State)
    requires Inv(s) && s.log.turn[Slot(s.cfg, |s.log.pushed|)] == Free(|s.log.pushed|)
    ensures s.log.popped <= |s.log.pushed| < s.log.popped + s.cfg.cap
    ensures |s.log.pushed| !in s.calls.writers
  {
    hide Stamp, Slot, ReadersInv, CellsInv, DeliveredInv, PushersInv, PoppersInv;
  }

  lemma FullSlotFacts(s: State)
    requires Inv(s) && s.log.turn[Slot(s.cfg, s.log.popped)] == Full(s.log.popped)
    ensures s.log.popped < |s.log.pushed|
    ensures s.log.popped !in s.calls.writers && s.log.popped !in s.calls.readers && s.log.popped !in s.log.delivered
  {
    hide Stamp, Slot, CellsInv, PushersInv, PoppersInv;
  }

  ghost predicate RefinesBoundedFifo(s: State, a: Action, s': State) {
    || Stutter(s, s')
    || (a.Push? && Enqueue(s, s', a.t))
    || (a.Pop? && Dequeue(s, s', a.t))
  }

  /**
   A step is a step of a FIFO queue bounded by the capacity, or leaves that queue alone, whenever a CAS it wins finds
   its stamp. A step that keeps the invariant is one of these.
   */
  lemma StepRefinesBoundedFifo(s: State, a: Action)
    requires Inv(s) && Enabled(s, a)
    ensures Stands(s, a) <==> Inv(Step(s, a))
    ensures Stands(s, a) ==> RefinesBoundedFifo(s, a, Step(s, a))
    ensures Timely(s, a) ==> Stands(s, a)
  {
    hide Inv, Enqueue, Dequeue, Period, NextStamp, StampAt;
    StepKeepsInv(s, a);
    if Timely(s, a) { TimelyStands(s, a); }
    match a
    case Push(t, win) =>
      var c := s.calls.pushers[t];
      if c.TryTail? && win && s.ring.tail == c.tail && Stands(s, a) { PushRefines(s, t); }
    case Pop(t, win) =>
      var c := s.calls.poppers[t];
      if c.TryHead? && win && s.ring.head == c.head && Stands(s, a) { PopRefines(s, t); }
    case _ =>
  }

  lemma PushRefines(s: State, t: Tid)
    requires Inv(s) && t in s.calls.pushers && s.calls.pushers[t].TryTail?
    requires s.ring.tail == s.calls.pushers[t].tail && s.cfg.oneLap > 0 && Stands(s, Push(t, true))
    ensures Enqueue(s, Step(s, Push(t, true)), t)
  {
    hide Inv, Stamp, Slot, Period, NextStamp, Queue, StampAt;
    FreeAtTail(s);
    FreeSlotFacts(s);
    QueueGrows(s, Step(s, Push(t, true)), s.calls.pushers[t].v);
  }

  lemma PopRefines(s: State, t: Tid)
    requires Inv(s) && t in s.calls.poppers && s.calls.poppers[t].TryHead?
    requires s.ring.head == s.calls.poppers[t].head && s.cfg.oneLap > 0 && Stands(s, Pop(t, true))
    ensures Dequeue(s, Step(s, Pop(t, true)), t)
  {
    hide Inv, Stamp, Slot, Period, NextStamp, Queue, StampAt;
    FullAtHead(s);
    FullSlotFacts(s);
    QueueShrinks(s, Step(s, Pop(t, true)));
  }

  /**
   Over any run, step `i` is a step of the bounded queue when every CAS won so far found its stamp; timely calls
   always do.
   */
  lemma RunIsBoundedFifo(r: seq<State>, acts: seq<Action>, i: nat)
    requires Run(r, acts) && i < |acts|
    ensures TimelyBefore(r, acts, i + 1) ==> StandsBefore(r, acts, i + 1)
    ensures StandsBefore(r, acts, i + 1) ==>
      |Queue(r[i])| <= r[i].cfg.cap && RefinesBoundedFifo(r[i], acts[i], r[i + 1])
  {
    hide Inv, Step, RefinesBoundedFifo, Timely, Enabled, Stands;
    if TimelyBefore(r, acts, i + 1) { TimelyRunStands(r, acts, i + 1); }
    if StandsBefore(r, acts, i + 1) {
      assert StandsBefore(r, acts, i);
      RunInv(r, acts, i);
      EndsFacts(r[i]);
      assert Enabled(r[i], acts[i]) && Stands(r[i], acts[i]) && r[i + 1] == Step(r[i], acts[i]);
      StepRefinesBoundedFifo(r[i], acts[i]);
    }
  }

  // ---------------------------------------------------------------- refusals

  ghost predicate WholePeriods(c: Config, d: int) {
    Period(c) > 0 && d % Period(c) == 0
  }

  /**
   A push gives its value back exactly when its ticket is whole periods behind the ticket a lap after the head. A push
   that was not overtaken does so exactly when the queue is full at its load of the head and its tail was current.
   */
  lemma PushFailsExactlyWhenFull(s: State, t: Tid, win: bool)
    requires Inv(s) && Enabled(s, Push(t, win)) && s.calls.pushers[t].CheckFull?
    ensures t !in Step(s, Push(t, win)).calls.pushers <==>
      WholePeriods(s.cfg, s.log.popped + s.cfg.cap - s.calls.pushers[t].n)
    ensures Timely(s, Push(t, win)) ==>
      (t !in Step(s, Push(t, win)).calls.pushers <==>
        |Queue(s)| == s.cfg.cap && s.calls.pushers[t].n == |s.log.pushed|)
    ensures Stutter(s, Step(s, Push(t, win)))
  {
    hide Inv, Stamp, Slot, Period, WrappingAdd;
    var c := s.calls.pushers[t];
    PusherFacts(s, t);
    EndsFacts(s);
    StampOfNextLap(s.cfg, s.log.popped);
    StampsEqual(s.cfg, c.n, s.log.popped + s.cfg.cap);
  }

  /**
   A pop answers nothing exactly when its ticket is whole periods behind the tail. A pop that was not overtaken does
   so exactly when the queue is empty at its load of the tail and its head was current.
   */
  lemma PopFailsExactlyWhenEmpty(s: State, t: Tid, win: bool)
    requires Inv(s) && Enabled(s, Pop(t, win)) && s.calls.poppers[t].CheckEmpty?
    ensures t !in Step(s, Pop(t, win)).calls.poppers <==>
      WholePeriods(s.cfg, |s.log.pushed| - s.calls.poppers[t].n)
    ensures Timely(s, Pop(t, win)) ==>
      (t !in Step(s, Pop(t, win)).calls.poppers <==> Queue(s) == [] && s.calls.poppers[t].n == s.log.popped)
    ensures Stutter(s, Step(s, Pop(t, win)))
  {
    hide Inv, Stamp, Slot, Period;
    var c := s.calls.poppers[t];
    PopperFacts(s, t);
    EndsFacts(s);
    StampsEqual(s.cfg, c.n, |s.log.pushed|);
  }

  // ---------------------------------------------------------------- exclusive access and delivery

  /** The ticket a call at work on a cell has won. */
  predicate AtWork(s: State, n: nat) {
    n in s.calls.writers || n in s.calls.readers
  }

  /** No two calls are ever at work on the same cell, and none is both writing and reading. */
  lemma CellsAreExclusive(s: State, n: nat, m: nat)
    requires Inv(s) && AtWork(s, n) && AtWork(s, m)
    ensures n != m ==> Slot(s.cfg, n) != Slot(s.cfg, m)
    ensures !(n in s.calls.writers && n in s.calls.readers)
  {
    hide Stamp, Slot, CellsInv, DeliveredInv, PushersInv, PoppersInv;
  }

  /** Words a call may hold never leave the buffer and never overflow the `+ 1` of the code. */
  lemma WordsInBounds(s: State)
    requires Inv(s)
    ensures forall t :: t in s.calls.pushers && !s.calls.pushers[t].LoadTail? ==> WordOk(s.cfg, s.calls.pushers[t].tail)
    ensures forall t :: t in s.calls.poppers && !s.calls.poppers[t].LoadHead? ==> WordOk(s.cfg, s.calls.poppers[t].head)
    ensures forall n :: n in s.calls.writers ==> WordOk(s.cfg, s.calls.writers[n].tail)
    ensures forall n :: n in s.calls.readers ==> WordOk(s.cfg, s.calls.readers[n].head)
    ensures |s.ring.stamps| == s.cfg.cap
  {
    hide Stamp, Slot, WordOk, CellsInv, DeliveredInv, TurnInv;
    forall n: nat
      ensures WordOk(s.cfg, Stamp(s.cfg, n))
    {
      StampWordOk(s.cfg, n);
    }
  }

  ghost predicate WordOk(c: Config, w: int) {
    c.oneLap > 0 && 0 <= IndexOf(c, w) < c.cap && 0 <= w && w + 1 < WORDS
  }

  lemma StampWordOk(c: Config, n: nat)
    requires ValidConfig(c)
    ensures WordOk(c, Stamp(c, n))
  {
    StampParts(c, n);
  }

  /** A claimed value is with exactly one pop, or was returned by one, unchanged; nothing else is ever returned. */
  lemma DeliveredOnce(s: State, n: nat)
    requires Inv(s)
    ensures n < s.log.popped <==> n in s.calls.readers || n in s.log.delivered
    ensures !(n in s.calls.readers && n in s.log.delivered)
    ensures n in s.log.delivered ==> n < |s.log.pushed| && s.log.delivered[n] == Some(s.log.pushed[n])
    ensures n in s.calls.readers && s.calls.readers[n].ReadValue? ==>
      Slot(s.cfg, n) in s.ring.cells && s.ring.cells[Slot(s.cfg, n)] == s.log.pushed[n]
  {
    if n in s.calls.readers { ReaderFacts(s, n); }
  }

  /** A returned value is never changed by a later step. */
  lemma DeliveredStays(s: State, a: Action, n: nat)
    requires Inv(s) && Enabled(s, a) && n in s.log.delivered
    ensures n in Step(s, a).log.delivered && Step(s, a).log.delivered[n] == s.log.delivered[n]
  {
    hide Inv, NextStamp, StampAt, WrappingAdd, Period;
    if a.Read? {
      DeliveredOnce(s, n);
      DeliveredOnce(s, a.n);
    }
  }

  predicate Idle(s: State) {
    s.calls.writers == map[] && s.calls.readers == map[]
  }

  /**
   With no call at work on a cell, the slots of the waiting tickets hold the abstract queue, and all else was
   returned.
   */
  lemma IdleRingHoldsQueue(s: State, k: nat)
    requires Inv(s) && Idle(s)
    ensures k < |Queue(s)| ==>
      var i := Slot(s.cfg, s.log.popped + k); i in s.ring.cells && s.ring.cells[i] == Queue(s)[k]
    ensures k < s.log.popped ==> k in s.log.delivered && s.log.delivered[k] == Some(s.log.pushed[k])
  {
    hide Stamp, Slot, TurnStamp, WritersInv, ReadersInv, PushersInv, PoppersInv;
    if k < |Queue(s)| { IdleSlotFull(s, s.log.popped + k); }
  }

  lemma IdleSlotFull(s: State, n: nat)
    requires Inv(s) && Idle(s) && s.log.popped <= n < |s.log.pushed|
    ensures s.log.turn[Slot(s.cfg, n)] == Full(n)
  {
    hide Stamp, Slot, TurnStamp, WritersInv, ReadersInv, CellsInv, DeliveredInv, PushersInv, PoppersInv;
    var turn := s.log.turn[Slot(s.cfg, n)];
    if turn.n <= n {
      if turn.Full? && n == turn.n + s.cfg.cap { assert false; }
      SlotsEqual(s.cfg, turn.n, n);
    } else {
      SlotsEqual(s.cfg, n, turn.n);
    }
  }

  // ---------------------------------------------------------------- stale words

  /**
   What `Timely` is for: a tail CAS with an old word succeeds exactly when the tickets differ by whole periods. A full
   queue then takes one value too many, and the invariant is lost.
   */
  lemma TailCasSucceedsByPeriods(s: State, t: Tid)
    requires Inv(s) && t in s.calls.pushers && s.calls.pushers[t].TryTail?
    ensures var s' := Step(s, Push(t, true));
      && (t !in s'.calls.pushers <==> WholePeriods(s.cfg, |s.log.pushed| - s.calls.pushers[t].n))
      && (t !in s'.calls.pushers && |Queue(s)| == s.cfg.cap ==> |Queue(s')| == s.cfg.cap + 1 && !Inv(s'))
      && (t !in s'.calls.pushers && Timely(s, Push(t, true)) ==> s.calls.pushers[t].n == |s.log.pushed|)
  {
    hide Inv, Stamp, Slot, Period, NextStamp;
    var c := s.calls.pushers[t];
    PusherFacts(s, t);
    EndsFacts(s);
    StampsEqual(s.cfg, c.n, |s.log.pushed|);
    var s' := Step(s, Push(t, true));
    if |s'.log.pushed| > s'.log.popped + s'.cfg.cap && Inv(s') {
      EndsFacts(s');
      assert false;
    }
  }

  /** The same for the head. An empty queue then gives out a ticket that no push has won. */
  lemma HeadCasSucceedsByPeriods(s: State, t: Tid)
    requires Inv(s) && t in s.calls.poppers && s.calls.poppers[t].TryHead?
    ensures var s' := Step(s, Pop(t, true));
      && (t !in s'.calls.poppers <==> WholePeriods(s.cfg, s.log.popped - s.calls.poppers[t].n))
      && (t !in s'.calls.poppers && Queue(s) == [] ==>
            s'.log.popped == |s'.log.pushed| + 1 && |s.log.pushed| in s'.calls.readers && !Inv(s'))
      && (t !in s'.calls.poppers && Timely(s, Pop(t, true)) ==> s.calls.poppers[t].n == s.log.popped)
  {
    hide Inv, Stamp, Slot, Period, NextStamp;
    var c := s.calls.poppers[t];
    PopperFacts(s, t);
    EndsFacts(s);
    StampsEqual(s.cfg, c.n, s.log.popped);
    var s' := Step(s, Pop(t, true));
    if s'.log.popped > |s'.log.pushed| && Inv(s') {
      EndsFacts(s');
      assert false;
    }
  }

  /** A push refused by a queue with room, and a pop refused by a queue with values, were overtaken by a period. */
  lemma WrongRefusalIsStale(s: State, a: Action)
    requires Inv(s) && Enabled(s, a)
    ensures a.Push? && s.calls.pushers[a.t].CheckFull? && a.t !in Step(s, a).calls.pushers && |Queue(s)| < s.cfg.cap ==>
      !Timely(s, a) && s.log.popped + s.cfg.cap - s.calls.pushers[a.t].n >= Period(s.cfg)
    ensures a.Pop? && s.calls.poppers[a.t].CheckEmpty? && a.t !in Step(s, a).calls.poppers && Queue(s) != [] ==>
      !Timely(s, a) && |s.log.pushed| - s.calls.poppers[a.t].n >= Period(s.cfg)
  {
    hide Inv, Step, Period;
    EndsFacts(s);
    if a.Push? && s.calls.pushers[a.t].CheckFull? {
      PusherFacts(s, a.t);
      PushFailsExactlyWhenFull(s, a.t, a.win);
    }
    if a.Pop? && s.calls.poppers[a.t].CheckEmpty? {
      PopperFacts(s, a.t);
      PopFailsExactlyWhenEmpty(s, a.t, a.win);
    }
  }

  // ---------------------------------------------------------------- len, is_empty, is_full

  /** `len` once the two loads of the tail agree. */
  function LenOf(c: Config, head: int, tail: int): int
    requires c.oneLap > 0
  {
    var hix := IndexOf(c, head);
    var tix := IndexOf(c, tail);
    if hix < tix then tix - hix
    else if hix > tix then c.cap - hix + tix
    else if tail == head then 0
    else c.cap
  }

  /** The four cases of `len` count the claimed and untaken tickets. */
  lemma LenOfTickets(c: Config, h: nat, t: nat)
    requires ValidConfig(c) && h <= t <= h + c.cap
    ensures LenOf(c, Stamp(c, h), Stamp(c, t)) == t - h
  {
    hide Mul, Stamp, Slot, Period, IndexOf;
    StampParts(c, h);
    StampParts(c, t);
    StampsEqual(c, h, t);
    SlotDistance(c, h, t);
  }

  lemma SlotDistance(c: Config, h: nat, t: nat)
    requires c.cap > 0 && h <= t <= h + c.cap
    ensures Slot(c, h) < Slot(c, t) ==> t - h == Slot(c, t) - Slot(c, h)
    ensures Slot(c, h) > Slot(c, t) ==> t - h == c.cap - Slot(c, h) + Slot(c, t)
    ensures Slot(c, h) == Slot(c, t) ==> t == h || t == h + c.cap
  {
    hide Mul;
    DivMod(h, c.cap);
    DivMod(t, c.cap);
    MulOne(c.cap);
    var a, b := h / c.cap, t / c.cap;
    MulSum(a, 1, c.cap);
    MulSum(a, 2, c.cap);
    if b < a {
      MulMonotone(b + 1, a, c.cap);
      MulSum(b, 1, c.cap);
    } else if b > a + 1 {
      MulMonotone(a + 2, b, c.cap);
    }
  }

  lemma {:induction false} TicketsGrow(r: seq<State>, acts: seq<Action>, i: nat, j: nat)
    requires Run(r, acts) && i <= j < |r|
    ensures |r[i].log.pushed| <= |r[j].log.pushed| && r[i].log.popped <= r[j].log.popped && r[i].cfg == r[j].cfg
    decreases j - i
  {
    hide Inv, Step, Timely, Enabled;
    if i < j {
      TicketsGrow(r, acts, i, j - 1);
      assert Enabled(r[j - 1], acts[j - 1]) && r[j] == Step(r[j - 1], acts[j - 1]);
      StepGrows(r[j - 1], acts[j - 1]);
    }
  }

  lemma StepGrows(s: State, a: Action)
    requires Enabled(s, a)
    ensures |s.log.pushed| <= |Step(s, a).log.pushed| && s.log.popped <= Step(s, a).log.popped
    ensures s.cfg == Step(s, a).cfg
  {
    hide NextStamp, StampAt, WrappingAdd;
  }

  /**
   `len` under concurrency: the tail reads the same before and after exactly at whole periods of pushes in between. If
   there were fewer than a period, the answer was exact at the load of the head.
   */
  lemma LenIsExact(r: seq<State>, acts: seq<Action>, i: nat, j: nat, k: nat)
    requires Run(r, acts) && i <= j <= k < |r| && StandsBefore(r, acts, k)
    ensures ValidConfig(r[i].cfg)
    ensures r[i].ring.tail == r[k].ring.tail <==> WholePeriods(r[i].cfg, |r[k].log.pushed| - |r[i].log.pushed|)
    ensures r[i].ring.tail == r[k].ring.tail && |r[k].log.pushed| < |r[i].log.pushed| + Period(r[i].cfg) ==>
      LenOf(r[i].cfg, r[j].ring.head, r[i].ring.tail) == |Queue(r[j])|
  {
    hide Inv, Step, Period, Stamp;
    RunInv(r, acts, i);
    RunInv(r, acts, j);
    RunInv(r, acts, k);
    EndsFacts(r[i]);
    EndsFacts(r[j]);
    EndsFacts(r[k]);
    TicketsGrow(r, acts, i, j);
    TicketsGrow(r, acts, j, k);
    StampsEqual(r[i].cfg, |r[i].log.pushed|, |r[k].log.pushed|);
    LenOfTickets(r[j].cfg, r[j].log.popped, |r[j].log.pushed|);
  }

  /**
   `is_empty` loads the head, then the tail, and says yes exactly when the tickets differ by whole periods. Within a
   period a yes is exact at the load of the tail.
   */
  lemma IsEmptyIsExact(r: seq<State>, acts: seq<Action>, i: nat, j: nat)
    requires Run(r, acts) && i <= j < |r| && StandsBefore(r, acts, j)
    ensures r[j].ring.tail == r[i].ring.head <==> WholePeriods(r[i].cfg, |r[j].log.pushed| - r[i].log.popped)
    ensures |r[j].log.pushed| < r[i].log.popped + Period(r[i].cfg) ==>
      (r[j].ring.tail == r[i].ring.head <==> Queue(r[j]) == [] && r[j].log.popped == r[i].log.popped)
  {
    hide Inv, Step, Period, Stamp;
    assert StandsBefore(r, acts, i);
    RunInv(r, acts, i);
    RunInv(r, acts, j);
    EndsFacts(r[i]);
    EndsFacts(r[j]);
    TicketsGrow(r, acts, i, j);
    StampsEqual(r[i].cfg, r[i].log.popped, |r[j].log.pushed|);
  }

  /**
   `is_full` loads the tail, then the head, and says yes exactly when the tickets are a capacity apart, up to whole
   periods. Within a period a yes is exact at the load of the head.
   */
  lemma IsFullIsExact(r: seq<State>, acts: seq<Action>, i: nat, j: nat)
    requires Run(r, acts) && i <= j < |r| && StandsBefore(r, acts, j)
    ensures WrappingAdd(r[j].ring.head, r[i].cfg.oneLap) == r[i].ring.tail <==>
      WholePeriods(r[i].cfg, r[j].log.popped + r[i].cfg.cap - |r[i].log.pushed|)
    ensures r[j].log.popped + r[i].cfg.cap < |r[i].log.pushed| + Period(r[i].cfg) ==>
      (WrappingAdd(r[j].ring.head, r[i].cfg.oneLap) == r[i].ring.tail <==>
        |Queue(r[j])| == r[j].cfg.cap && |r[j].log.pushed| == |r[i].log.pushed|)
  {
    hide Inv, Step, Period, Stamp, WrappingAdd;
    assert StandsBefore(r, acts, i);
    RunInv(r, acts, i);
    RunInv(r, acts, j);
    EndsFacts(r[i]);
    EndsFacts(r[j]);
    TicketsGrow(r, acts, i, j);
    StampOfNextLap(r[j].cfg, r[j].log.popped);
    StampsEqual(r[i].cfg, |r[i].log.pushed|, r[j].log.popped + r[j].cfg.cap);
  }
}
