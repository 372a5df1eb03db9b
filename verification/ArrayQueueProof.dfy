/** What every step of the bounded ring queue keeps. */
module ArrayQueueProof {
  import opened Common
  import opened ArrayQueueWords
  import opened ArrayQueueSteps

  // ---------------------------------------------------------------- invariant

  ghost predicate EndsInv(c: Config, head: int, tail: int, h: nat, t: nat) {
    ValidConfig(c) && head == Stamp(c, h) && tail == Stamp(c, t) && h <= t <= h + c.cap
  }

  ghost function TurnStamp(c: Config, turn: Turn): int
    requires c.cap > 0 && c.laps > 0
  {
    match turn
    case Free(n) => Stamp(c, n)
    case Full(n) => Stamp(c, n) + 1
  }

  ghost predicate StampsInv(c: Config, stamps: seq<int>, turn: seq<Turn>)
    requires c.cap > 0 && c.laps > 0
  {
    && |stamps| == |turn| == c.cap
    && forall i :: 0 <= i < c.cap ==> Slot(c, turn[i].n) == i && stamps[i] == TurnStamp(c, turn[i])
  }

  /** Where the ticket of each slot stands against the two ends, and who is at work on it. */
  ghost predicate TurnInv(turn: seq<Turn>, cap: nat, h: nat, t: nat, writers: set<nat>, readers: set<nat>) {
    forall i :: 0 <= i < |turn| ==>
      match turn[i]
      case Free(n) => h <= n < h + cap && (n in writers <==> n < t)
      case Full(n) => n < t <= n + cap && (n in readers <==> n < h)
  }

  ghost predicate WritersInv(c: Config, writers: map<nat, Writer>, turn: seq<Turn>, cells: map<int, Value>,
      pushed: seq<Value>)
    requires c.cap > 0 && c.laps > 0 && |turn| == c.cap
  {
    forall n :: n in writers ==>
      && n < |pushed| && turn[Slot(c, n)] == Free(n) && writers[n].tail == Stamp(c, n)
      && match writers[n]
         case WriteValue(v, _) => v == pushed[n]
         case StoreFull(_) => Slot(c, n) in cells && cells[Slot(c, n)] == pushed[n]
  }

  ghost predicate ReadersInv(c: Config, readers: map<nat, Reader>, turn: seq<Turn>, h: nat, pushed: seq<Value>)
    requires c.cap > 0 && c.laps > 0 && |turn| == c.cap
  {
    forall n :: n in readers ==>
      && n < h && n < |pushed| && turn[Slot(c, n)] == Full(n) && readers[n].head == Stamp(c, n)
      && (readers[n].StoreFree? ==> readers[n].v == Some(pushed[n]))
  }

  ghost predicate CellsInv(turn: seq<Turn>, cells: map<int, Value>, readers: map<nat, Reader>, pushed: seq<Value>) {
    forall i :: 0 <= i < |turn| && turn[i].Full? && !(turn[i].n in readers && readers[turn[i].n].StoreFree?) ==>
      turn[i].n < |pushed| && i in cells && cells[i] == pushed[turn[i].n]
  }

  ghost predicate DeliveredInv(delivered: map<nat, Option<Value>>, readers: set<nat>, h: nat, pushed: seq<Value>) {
    && (forall n: nat :: n < h <==> n in readers || n in delivered)
    && (forall n :: n in delivered ==> n !in readers && n < |pushed| && delivered[n] == Some(pushed[n]))
  }

  ghost predicate PushersInv(c: Config, pushers: map<Tid, Pusher>, turn: seq<Turn>, t: nat)
    requires c.cap > 0 && c.laps > 0 && |turn| == c.cap
  {
    forall p :: p in pushers && !pushers[p].LoadTail? ==>
      && pushers[p].n <= t && pushers[p].tail == Stamp(c, pushers[p].n)
      && (pushers[p].TryTail? && pushers[p].n == t ==> turn[Slot(c, t)] == Free(t))
  }

  ghost predicate PoppersInv(c: Config, poppers: map<Tid, Popper>, turn: seq<Turn>, h: nat)
    requires c.cap > 0 && c.laps > 0 && |turn| == c.cap
  {
    forall p :: p in poppers && !poppers[p].LoadHead? ==>
      && poppers[p].n <= h && poppers[p].head == Stamp(c, poppers[p].n)
      && (poppers[p].TryHead? && poppers[p].n == h ==> turn[Slot(c, h)] == Full(h))
  }

  ghost predicate Inv(s: State) {
    && EndsInv(s.cfg, s.ring.head, s.ring.tail, s.log.popped, |s.log.pushed|)
    && StampsInv(s.cfg, s.ring.stamps, s.log.turn)
    && TurnInv(s.log.turn, s.cfg.cap, s.log.popped, |s.log.pushed|, s.calls.writers.Keys, s.calls.readers.Keys)
    && WritersInv(s.cfg, s.calls.writers, s.log.turn, s.ring.cells, s.log.pushed)
    && ReadersInv(s.cfg, s.calls.readers, s.log.turn, s.log.popped, s.log.pushed)
    && CellsInv(s.log.turn, s.ring.cells, s.calls.readers, s.log.pushed)
    && DeliveredInv(s.log.delivered, s.calls.readers.Keys, s.log.popped, s.log.pushed)
    && PushersInv(s.cfg, s.calls.pushers, s.log.turn, |s.log.pushed|)
    && PoppersInv(s.cfg, s.calls.poppers, s.log.turn, s.log.popped)
  }

  // ---------------------------------------------------------------- init

  lemma NewInv(c: Config)
    requires ValidConfig(c)
    ensures Inv(New(c))
  {
    hide Mul;
    MulOne(c.oneLap);
    MulOne(c.cap);
    forall i: nat | i < c.cap
      ensures Slot(c, i) == i && Stamp(c, i) == i
    {
      DivModUnique(i, c.cap, 0, i);
      MulOne(c.laps);
      DivModUnique(0, c.laps, 0, 0);
    }
  }

  // ---------------------------------------------------------------- push

  /** The code's tests on a slot stamp, read as tickets. */
  lemma StampReads(s: State, n: nat, w: int)
    requires Inv(s) && w == Stamp(s.cfg, n)
    ensures IndexOf(s.cfg, w) == Slot(s.cfg, n) < s.cfg.cap == |s.ring.stamps| == |s.log.turn|
    ensures StampAt(s, w) == TurnStamp(s.cfg, s.log.turn[Slot(s.cfg, n)])
  {
    hide Mul, Stamp, WritersInv, ReadersInv, TurnInv, CellsInv, DeliveredInv, PushersInv, PoppersInv;
    StampParts(s.cfg, n);
  }

  lemma PushStampMatches(s: State, n: nat, w: int)
    requires Inv(s) && w == Stamp(s.cfg, n) && n == |s.log.pushed| && StampAt(s, w) == w
    ensures IndexOf(s.cfg, w) == Slot(s.cfg, n) < |s.log.turn| && s.log.turn[Slot(s.cfg, n)] == Free(n)
  {
    hide Mul, Stamp, Slot, StampAt, WritersInv, ReadersInv, CellsInv, DeliveredInv, PushersInv, PoppersInv;
    StampReads(s, n, w);
    var turn := s.log.turn[Slot(s.cfg, n)];
    if turn.Full? {
      FullDiffersFromFree(s.cfg, turn.n, n);
    } else {
      StampsEqual(s.cfg, n, turn.n);
      StampsEqual(s.cfg, turn.n, n);
    }
  }

  lemma PopStampMatches(s: State, n: nat, w: int)
    requires Inv(s) && w == Stamp(s.cfg, n) && n == s.log.popped && StampAt(s, w) == w + 1
    ensures IndexOf(s.cfg, w) == Slot(s.cfg, n) < |s.log.turn| && s.log.turn[Slot(s.cfg, n)] == Full(n)
  {
    hide Mul, Stamp, Slot, StampAt, WritersInv, ReadersInv, CellsInv, DeliveredInv, PushersInv, PoppersInv;
    StampReads(s, n, w);
    var turn := s.log.turn[Slot(s.cfg, n)];
    if turn.Free? {
      FullDiffersFromFree(s.cfg, n, turn.n);
    } else {
      StampsEqual(s.cfg, n, turn.n);
      StampsEqual(s.cfg, turn.n, n);
    }
  }

  lemma PusherFacts(s: State, t: Tid)
    requires Inv(s) && t in s.calls.pushers && !s.calls.pushers[t].LoadTail?
    ensures var c := s.calls.pushers[t];
      ValidConfig(s.cfg) && c.n <= |s.log.pushed| && c.tail == Stamp(s.cfg, c.n)
    ensures var c := s.calls.pushers[t];
      c.TryTail? && c.n == |s.log.pushed| ==> |s.log.turn| == s.cfg.cap && s.log.turn[Slot(s.cfg, c.n)] == Free(c.n)
  {
  }

  lemma PopperFacts(s: State, t: Tid)
    requires Inv(s) && t in s.calls.poppers && !s.calls.poppers[t].LoadHead?
    ensures var c := s.calls.poppers[t];
      ValidConfig(s.cfg) && c.n <= s.log.popped && c.head == Stamp(s.cfg, c.n)
    ensures var c := s.calls.poppers[t];
      c.TryHead? && c.n == s.log.popped ==> |s.log.turn| == s.cfg.cap && s.log.turn[Slot(s.cfg, c.n)] == Full(c.n)
  {
  }

  lemma WithPusherKeepsInv(s: State, t: Tid, c: Pusher)
    requires Inv(s)
    requires !c.LoadTail? ==> c.n <= |s.log.pushed| && c.tail == Stamp(s.cfg, c.n)
    requires c.TryTail? && c.n == |s.log.pushed| ==> s.log.turn[Slot(s.cfg, c.n)] == Free(c.n)
    ensures Inv(WithPusher(s, t, c))
  {
    hide Mul, Stamp, Slot, EndsInv, StampsInv, TurnInv, WritersInv, ReadersInv, CellsInv, DeliveredInv, PoppersInv;
  }

  lemma PusherReadsStamp(s: State, t: Tid, win: bool)
    requires Inv(s) && t in s.calls.pushers && s.calls.pushers[t].LoadStamp?
    ensures Inv(PusherNext(s, t, win))
  {
    hide Inv, Mul, Stamp, Slot, StampAt, WithPusher;
    var c := s.calls.pushers[t];
    PusherFacts(s, t);
    if StampAt(s, c.tail) == c.tail {
      if c.n == |s.log.pushed| { PushStampMatches(s, c.n, c.tail); }
      WithPusherKeepsInv(s, t, TryTail(c.v, c.tail, c.n));
    } else {
      WithPusherKeepsInv(s, t, CheckFull(c.v, c.tail, c.n));
      WithPusherKeepsInv(s, t, LoadTail(c.v));
    }
  }

  lemma ReloadKeepsInv(s: State, t: Tid, v: Value)
    requires Inv(s)
    ensures Inv(WithPusher(s, t, Reload(s, v)))
  {
    hide Inv, WithPusher;
    EndsFacts(s);
    WithPusherKeepsInv(s, t, Reload(s, v));
  }

  lemma EndsFacts(s: State)
    requires Inv(s)
    ensures ValidConfig(s.cfg) && s.ring.tail == Stamp(s.cfg, |s.log.pushed|)
    ensures s.ring.head == Stamp(s.cfg, s.log.popped)
    ensures s.log.popped <= |s.log.pushed| <= s.log.popped + s.cfg.cap && |s.log.turn| == s.cfg.cap
  {
  }

  lemma EndPushKeepsInv(s: State, t: Tid)
    requires Inv(s)
    ensures Inv(EndPush(s, t))
  {
    hide Mul, Stamp, Slot, EndsInv, StampsInv, TurnInv, WritersInv, ReadersInv, CellsInv, DeliveredInv, PoppersInv;
  }

  /** The claimed ticket is free, so it is less than a capacity ahead of the pops. */
  lemma ClaimTailTurns(c: Config, turn: seq<Turn>, h: nat, t: nat, writers: set<nat>, readers: set<nat>)
    requires c.cap > 0 && |turn| == c.cap && turn[Slot(c, t)] == Free(t)
    requires forall i :: 0 <= i < c.cap ==> Slot(c, turn[i].n) == i
    requires TurnInv(turn, c.cap, h, t, writers, readers)
    ensures t < h + c.cap
    ensures TurnInv(turn, c.cap, h, t + 1, writers + {t}, readers)
  {
    hide Slot;
    forall i | 0 <= i < |turn| && turn[i].Full?
      ensures turn[i].n + c.cap != t
    {
      SlotOfNextLap(c, turn[i].n);
    }
  }

  lemma ClaimTailKeepsInv(s: State, t: Tid, v: Value)
    requires Inv(s) && s.log.turn[Slot(s.cfg, |s.log.pushed|)] == Free(|s.log.pushed|)
    ensures Inv(ClaimTail(s, t, v, s.ring.tail))
  {
    hide Inv, Mul, Stamp, Slot, NextStamp;
    EndsFacts(s);
    var s' := ClaimTail(s, t, v, s.ring.tail);
    ClaimTailEnds(s, t, v);
    ClaimTailCalls(s, t, v);
    ClaimTailRest(s, t, v);
    InvFromParts(s');
  }

  lemma ClaimTailEnds(s: State, t: Tid, v: Value)
    requires Inv(s) && s.log.turn[Slot(s.cfg, |s.log.pushed|)] == Free(|s.log.pushed|)
    ensures var s' := ClaimTail(s, t, v, s.ring.tail);
      && EndsInv(s'.cfg, s'.ring.head, s'.ring.tail, s'.log.popped, |s'.log.pushed|)
      && StampsInv(s'.cfg, s'.ring.stamps, s'.log.turn)
      && TurnInv(s'.log.turn, s'.cfg.cap, s'.log.popped, |s'.log.pushed|, s'.calls.writers.Keys, s'.calls.readers.Keys)
  {
    hide Mul, Stamp, Slot, NextStamp, TurnInv, WritersInv, ReadersInv, CellsInv, DeliveredInv, PushersInv, PoppersInv;
    var n := |s.log.pushed|;
    NextStampOk(s.cfg, n);
    ClaimTailTurns(s.cfg, s.log.turn, s.log.popped, n, s.calls.writers.Keys, s.calls.readers.Keys);
    assert ClaimTail(s, t, v, s.ring.tail).calls.writers.Keys == s.calls.writers.Keys + {n};
  }

  lemma ClaimTailCalls(s: State, t: Tid, v: Value)
    requires Inv(s) && s.log.turn[Slot(s.cfg, |s.log.pushed|)] == Free(|s.log.pushed|)
    ensures var s' := ClaimTail(s, t, v, s.ring.tail);
      && |s'.log.turn| == s'.cfg.cap
      && WritersInv(s'.cfg, s'.calls.writers, s'.log.turn, s'.ring.cells, s'.log.pushed)
      && ReadersInv(s'.cfg, s'.calls.readers, s'.log.turn, s'.log.popped, s'.log.pushed)
      && CellsInv(s'.log.turn, s'.ring.cells, s'.calls.readers, s'.log.pushed)
  {
    hide Mul, Stamp, Slot, NextStamp, TurnInv, DeliveredInv, PushersInv, PoppersInv;
  }

  lemma ClaimTailRest(s: State, t: Tid, v: Value)
    requires Inv(s) && s.log.turn[Slot(s.cfg, |s.log.pushed|)] == Free(|s.log.pushed|)
    ensures var s' := ClaimTail(s, t, v, s.ring.tail);
      && |s'.log.turn| == s'.cfg.cap
      && DeliveredInv(s'.log.delivered, s'.calls.readers.Keys, s'.log.popped, s'.log.pushed)
      && PushersInv(s'.cfg, s'.calls.pushers, s'.log.turn, |s'.log.pushed|)
      && PoppersInv(s'.cfg, s'.calls.poppers, s'.log.turn, s'.log.popped)
  {
    hide Mul, Stamp, Slot, NextStamp, TurnInv, WritersInv, CellsInv, PoppersInv;
  }

  lemma InvFromParts(s: State)
    requires EndsInv(s.cfg, s.ring.head, s.ring.tail, s.log.popped, |s.log.pushed|)
    requires StampsInv(s.cfg, s.ring.stamps, s.log.turn)
    requires TurnInv(s.log.turn, s.cfg.cap, s.log.popped, |s.log.pushed|, s.calls.writers.Keys, s.calls.readers.Keys)
    requires WritersInv(s.cfg, s.calls.writers, s.log.turn, s.ring.cells, s.log.pushed)
    requires ReadersInv(s.cfg, s.calls.readers, s.log.turn, s.log.popped, s.log.pushed)
    requires CellsInv(s.log.turn, s.ring.cells, s.calls.readers, s.log.pushed)
    requires DeliveredInv(s.log.delivered, s.calls.readers.Keys, s.log.popped, s.log.pushed)
    requires PushersInv(s.cfg, s.calls.pushers, s.log.turn, |s.log.pushed|)
    requires PoppersInv(s.cfg, s.calls.poppers, s.log.turn, s.log.popped)
    ensures Inv(s)
  {
    hide EndsInv, StampsInv, TurnInv, WritersInv, ReadersInv, CellsInv, DeliveredInv, PushersInv, PoppersInv;
  }

  /** The slot at the tail carries the tail as its stamp exactly when it is free for the next ticket. */
  lemma FreeAtTail(s: State)
    requires Inv(s)
    ensures ValidConfig(s.cfg) && |s.log.turn| == s.cfg.cap
    ensures StampAt(s, s.ring.tail) == s.ring.tail <==>
      s.log.turn[Slot(s.cfg, |s.log.pushed|)] == Free(|s.log.pushed|)
  {
    hide Inv, Mul, Stamp, Slot, StampAt;
    EndsFacts(s);
    StampReads(s, |s.log.pushed|, s.ring.tail);
    if StampAt(s, s.ring.tail) == s.ring.tail { PushStampMatches(s, |s.log.pushed|, s.ring.tail); }
  }

  lemma FullAtHead(s: State)
    requires Inv(s)
    ensures ValidConfig(s.cfg) && |s.log.turn| == s.cfg.cap
    ensures StampAt(s, s.ring.head) == s.ring.head + 1 <==> s.log.turn[Slot(s.cfg, s.log.popped)] == Full(s.log.popped)
  {
    hide Inv, Mul, Stamp, Slot, StampAt;
    EndsFacts(s);
    StampReads(s, s.log.popped, s.ring.head);
    if StampAt(s, s.ring.head) == s.ring.head + 1 { PopStampMatches(s, s.log.popped, s.ring.head); }
  }

  /** Claiming a slot that is not free breaks the invariant. */
  lemma ClaimBusyTail(s: State, t: Tid, v: Value)
    requires Inv(s) && s.log.turn[Slot(s.cfg, |s.log.pushed|)] != Free(|s.log.pushed|)
    ensures !Inv(ClaimTail(s, t, v, s.ring.tail))
  {
    hide Mul, Stamp, Slot, NextStamp, TurnInv, ReadersInv, CellsInv, DeliveredInv, PushersInv, PoppersInv;
    assert |s.log.pushed| in ClaimTail(s, t, v, s.ring.tail).calls.writers;
  }

  lemma ClaimBusyHead(s: State, t: Tid)
    requires Inv(s) && s.log.turn[Slot(s.cfg, s.log.popped)] != Full(s.log.popped)
    ensures !Inv(ClaimHead(s, t, s.ring.head))
  {
    hide Mul, Stamp, Slot, NextStamp, TurnInv, WritersInv, CellsInv, DeliveredInv, PushersInv, PoppersInv;
    assert s.log.popped in ClaimHead(s, t, s.ring.head).calls.readers;
  }

  lemma PusherTriesTail(s: State, t: Tid, win: bool)
    requires Inv(s) && t in s.calls.pushers && s.calls.pushers[t].TryTail? && s.cfg.oneLap > 0
    ensures Inv(PusherNext(s, t, win)) <==> Stands(s, Push(t, win))
  {
    hide Inv, Mul, Stamp, Slot, Period, ClaimTail, WithPusher, StampAt;
    var c := s.calls.pushers[t];
    if win && s.ring.tail == c.tail {
      FreeAtTail(s);
      if StampAt(s, s.ring.tail) == s.ring.tail { ClaimTailKeepsInv(s, t, c.v); } else { ClaimBusyTail(s, t, c.v); }
    } else {
      ReloadKeepsInv(s, t, c.v);
    }
  }

  lemma PusherKeepsInv(s: State, t: Tid, win: bool)
    requires Inv(s) && t in s.calls.pushers && s.cfg.oneLap > 0
    ensures Inv(PusherNext(s, t, win)) <==> Stands(s, Push(t, win))
  {
    hide Inv, EndPush, WithPusher, Period, ClaimTail, StampAt;
    var c := s.calls.pushers[t];
    match c
    case LoadTail(v) => ReloadKeepsInv(s, t, v);
    case LoadStamp(_, _, _) => PusherReadsStamp(s, t, win);
    case TryTail(_, _, _) => PusherTriesTail(s, t, win);
    case CheckFull(v, _, _) =>
      EndPushKeepsInv(s, t);
      WithPusherKeepsInv(s, t, LoadTail(v));
  }

  // ---------------------------------------------------------------- write

  lemma WriterFacts(s: State, n: nat)
    requires Inv(s) && n in s.calls.writers
    ensures ValidConfig(s.cfg) && n < |s.log.pushed| && |s.log.turn| == |s.ring.stamps| == s.cfg.cap
    ensures s.log.turn[Slot(s.cfg, n)] == Free(n) && s.calls.writers[n].tail == Stamp(s.cfg, n)
    ensures IndexOf(s.cfg, s.calls.writers[n].tail) == Slot(s.cfg, n)
    ensures s.log.popped <= n
  {
    hide Stamp, Slot, ReadersInv, CellsInv, DeliveredInv, PushersInv, PoppersInv;
    StampParts(s.cfg, n);
  }

  lemma WriteValueKeepsInv(s: State, n: nat)
    requires Inv(s) && n in s.calls.writers && s.calls.writers[n].WriteValue?
    ensures Inv(WriterNext(s, n))
  {
    hide Inv, Mul, Stamp, Slot, IndexOf;
    WriterFacts(s, n);
    WriteValueParts(s, n);
  }

  lemma WriteValueParts(s: State, n: nat)
    requires Inv(s) && n in s.calls.writers && s.calls.writers[n].WriteValue?
    requires IndexOf(s.cfg, s.calls.writers[n].tail) == Slot(s.cfg, n)
    ensures Inv(WriterNext(s, n))
  {
    hide Mul, Stamp, Slot, IndexOf, TurnInv, ReadersInv, DeliveredInv, PushersInv, PoppersInv;
    var s' := WriterNext(s, n);
    assert s'.calls.writers.Keys == s.calls.writers.Keys;
    assert s.log.turn[Slot(s.cfg, n)] == Free(n);
  }

  lemma StoreFullKeepsInv(s: State, n: nat)
    requires Inv(s) && n in s.calls.writers && s.calls.writers[n].StoreFull?
    ensures Inv(WriterNext(s, n))
  {
    hide Inv, Mul, Stamp, Slot, IndexOf;
    WriterFacts(s, n);
    StoreFullTurns(s, n);
    StoreFullCalls(s, n);
    StoreFullRest(s, n);
    InvFromParts(WriterNext(s, n));
  }

  lemma StoreFullTurns(s: State, n: nat)
    requires Inv(s) && n in s.calls.writers && s.calls.writers[n].StoreFull?
    ensures var s' := WriterNext(s, n);
      && EndsInv(s'.cfg, s'.ring.head, s'.ring.tail, s'.log.popped, |s'.log.pushed|)
      && StampsInv(s'.cfg, s'.ring.stamps, s'.log.turn)
      && TurnInv(s'.log.turn, s'.cfg.cap, s'.log.popped, |s'.log.pushed|, s'.calls.writers.Keys, s'.calls.readers.Keys)
  {
    hide Mul, Stamp, Slot, IndexOf, WritersInv, CellsInv, DeliveredInv, PushersInv, PoppersInv;
    WriterFacts(s, n);
    assert n !in s.calls.readers;
  }

  lemma StoreFullCalls(s: State, n: nat)
    requires Inv(s) && n in s.calls.writers && s.calls.writers[n].StoreFull?
    ensures var s' := WriterNext(s, n);
      && |s'.log.turn| == s'.cfg.cap
      && WritersInv(s'.cfg, s'.calls.writers, s'.log.turn, s'.ring.cells, s'.log.pushed)
      && ReadersInv(s'.cfg, s'.calls.readers, s'.log.turn, s'.log.popped, s'.log.pushed)
      && CellsInv(s'.log.turn, s'.ring.cells, s'.calls.readers, s'.log.pushed)
  {
    hide Mul, Stamp, Slot, IndexOf, StampsInv, TurnInv, DeliveredInv, PushersInv, PoppersInv;
    WriterFacts(s, n);
  }

  lemma StoreFullRest(s: State, n: nat)
    requires Inv(s) && n in s.calls.writers && s.calls.writers[n].StoreFull?
    ensures var s' := WriterNext(s, n);
      && |s'.log.turn| == s'.cfg.cap
      && DeliveredInv(s'.log.delivered, s'.calls.readers.Keys, s'.log.popped, s'.log.pushed)
      && PushersInv(s'.cfg, s'.calls.pushers, s'.log.turn, |s'.log.pushed|)
      && PoppersInv(s'.cfg, s'.calls.poppers, s'.log.turn, s'.log.popped)
  {
    hide Mul, Stamp, Slot, IndexOf, TurnInv, WritersInv, CellsInv, ReadersInv, DeliveredInv;
    WriterFacts(s, n);
  }

  // ---------------------------------------------------------------- pop

  lemma WithPopperKeepsInv(s: State, t: Tid, c: Popper)
    requires Inv(s)
    requires !c.LoadHead? ==> c.n <= s.log.popped && c.head == Stamp(s.cfg, c.n)
    requires c.TryHead? && c.n == s.log.popped ==> s.log.turn[Slot(s.cfg, c.n)] == Full(c.n)
    ensures Inv(WithPopper(s, t, c))
  {
    hide Mul, Stamp, Slot, EndsInv, StampsInv, TurnInv, WritersInv, ReadersInv, CellsInv, DeliveredInv, PushersInv;
  }

  lemma EndPopKeepsInv(s: State, t: Tid)
    requires Inv(s)
    ensures Inv(EndPop(s, t))
  {
    hide Mul, Stamp, Slot, EndsInv, StampsInv, TurnInv, WritersInv, ReadersInv, CellsInv, DeliveredInv, PushersInv;
  }

  lemma ReloadHeadKeepsInv(s: State, t: Tid)
    requires Inv(s)
    ensures Inv(WithPopper(s, t, LoadSlot(s.ring.head, s.log.popped)))
  {
    hide Inv, WithPopper;
    EndsFacts(s);
    WithPopperKeepsInv(s, t, LoadSlot(s.ring.head, s.log.popped));
  }

  lemma PopperReadsStamp(s: State, t: Tid, win: bool)
    requires Inv(s) && t in s.calls.poppers && s.calls.poppers[t].LoadSlot?
    ensures Inv(PopperNext(s, t, win))
  {
    hide Inv, Mul, Stamp, Slot, StampAt, WithPopper;
    var c := s.calls.poppers[t];
    PopperFacts(s, t);
    if StampAt(s, c.head) == c.head + 1 {
      if c.n == s.log.popped { PopStampMatches(s, c.n, c.head); }
      WithPopperKeepsInv(s, t, TryHead(c.head, c.n));
    } else {
      WithPopperKeepsInv(s, t, CheckEmpty(c.head, c.n));
      WithPopperKeepsInv(s, t, LoadHead);
    }
  }

  lemma ClaimHeadKeepsInv(s: State, t: Tid)
    requires Inv(s) && s.log.turn[Slot(s.cfg, s.log.popped)] == Full(s.log.popped)
    ensures Inv(ClaimHead(s, t, s.ring.head))
  {
    hide Inv, Mul, Stamp, Slot, NextStamp;
    ClaimHeadEnds(s, t);
    ClaimHeadCalls(s, t);
    ClaimHeadRest(s, t);
    InvFromParts(ClaimHead(s, t, s.ring.head));
  }

  lemma ClaimHeadEnds(s: State, t: Tid)
    requires Inv(s) && s.log.turn[Slot(s.cfg, s.log.popped)] == Full(s.log.popped)
    ensures var s' := ClaimHead(s, t, s.ring.head);
      && EndsInv(s'.cfg, s'.ring.head, s'.ring.tail, s'.log.popped, |s'.log.pushed|)
      && StampsInv(s'.cfg, s'.ring.stamps, s'.log.turn)
      && TurnInv(s'.log.turn, s'.cfg.cap, s'.log.popped, |s'.log.pushed|, s'.calls.writers.Keys, s'.calls.readers.Keys)
  {
    hide Mul, Stamp, Slot, NextStamp, WritersInv, ReadersInv, CellsInv, DeliveredInv, PushersInv, PoppersInv;
    NextStampOk(s.cfg, s.log.popped);
  }

  lemma ClaimHeadCalls(s: State, t: Tid)
    requires Inv(s) && s.log.turn[Slot(s.cfg, s.log.popped)] == Full(s.log.popped)
    ensures var s' := ClaimHead(s, t, s.ring.head);
      && |s'.log.turn| == s'.cfg.cap
      && WritersInv(s'.cfg, s'.calls.writers, s'.log.turn, s'.ring.cells, s'.log.pushed)
      && ReadersInv(s'.cfg, s'.calls.readers, s'.log.turn, s'.log.popped, s'.log.pushed)
      && CellsInv(s'.log.turn, s'.ring.cells, s'.calls.readers, s'.log.pushed)
  {
    hide Mul, Stamp, Slot, NextStamp, DeliveredInv, PushersInv, PoppersInv, WritersInv;
  }

  lemma ClaimHeadRest(s: State, t: Tid)
    requires Inv(s) && s.log.turn[Slot(s.cfg, s.log.popped)] == Full(s.log.popped)
    ensures var s' := ClaimHead(s, t, s.ring.head);
      && |s'.log.turn| == s'.cfg.cap
      && DeliveredInv(s'.log.delivered, s'.calls.readers.Keys, s'.log.popped, s'.log.pushed)
      && PushersInv(s'.cfg, s'.calls.pushers, s'.log.turn, |s'.log.pushed|)
      && PoppersInv(s'.cfg, s'.calls.poppers, s'.log.turn, s'.log.popped)
  {
    hide Mul, Stamp, Slot, NextStamp, TurnInv, WritersInv, CellsInv, PushersInv;
  }

  lemma PopperTriesHead(s: State, t: Tid, win: bool)
    requires Inv(s) && t in s.calls.poppers && s.calls.poppers[t].TryHead? && s.cfg.oneLap > 0
    ensures Inv(PopperNext(s, t, win)) <==> Stands(s, Pop(t, win))
  {
    hide Inv, Mul, Stamp, Slot, Period, ClaimHead, WithPopper, StampAt;
    var c := s.calls.poppers[t];
    if win && s.ring.head == c.head {
      FullAtHead(s);
      if StampAt(s, s.ring.head) == s.ring.head + 1 { ClaimHeadKeepsInv(s, t); } else { ClaimBusyHead(s, t); }
    } else {
      ReloadHeadKeepsInv(s, t);
    }
  }

  lemma PopperKeepsInv(s: State, t: Tid, win: bool)
    requires Inv(s) && t in s.calls.poppers && s.cfg.oneLap > 0
    ensures Inv(PopperNext(s, t, win)) <==> Stands(s, Pop(t, win))
  {
    hide Inv, EndPop, WithPopper, Period, ClaimHead, StampAt;
    match s.calls.poppers[t]
    case LoadHead => ReloadHeadKeepsInv(s, t);
    case LoadSlot(_, _) => PopperReadsStamp(s, t, win);
    case TryHead(_, _) => PopperTriesHead(s, t, win);
    case CheckEmpty(_, _) =>
      EndPopKeepsInv(s, t);
      WithPopperKeepsInv(s, t, LoadHead);
  }

  // ---------------------------------------------------------------- read

  lemma ReaderFacts(s: State, n: nat)
    requires Inv(s) && n in s.calls.readers
    ensures ValidConfig(s.cfg) && n < s.log.popped <= |s.log.pushed| && |s.log.turn| == |s.ring.stamps| == s.cfg.cap
    ensures s.log.turn[Slot(s.cfg, n)] == Full(n) && s.calls.readers[n].head == Stamp(s.cfg, n)
    ensures IndexOf(s.cfg, s.calls.readers[n].head) == Slot(s.cfg, n)
    ensures |s.log.pushed| <= n + s.cfg.cap
    ensures s.calls.readers[n].StoreFree? ==> s.calls.readers[n].v == Some(s.log.pushed[n])
    ensures s.calls.readers[n].ReadValue? ==>
      Slot(s.cfg, n) in s.ring.cells && s.ring.cells[Slot(s.cfg, n)] == s.log.pushed[n]
  {
    hide Stamp, Slot, WritersInv, DeliveredInv, PushersInv, PoppersInv;
    StampParts(s.cfg, n);
  }

  lemma ReadValueKeepsInv(s: State, n: nat)
    requires Inv(s) && n in s.calls.readers && s.calls.readers[n].ReadValue?
    ensures Inv(ReaderNext(s, n))
  {
    hide Inv, Mul, Stamp, Slot, IndexOf;
    ReaderFacts(s, n);
    ReadValueParts(s, n);
  }

  lemma ReadValueParts(s: State, n: nat)
    requires Inv(s) && n in s.calls.readers && s.calls.readers[n].ReadValue? && n < |s.log.pushed|
    requires var i := Slot(s.cfg, n);
      IndexOf(s.cfg, s.calls.readers[n].head) == i && i in s.ring.cells && s.ring.cells[i] == s.log.pushed[n]
    ensures Inv(ReaderNext(s, n))
  {
    hide Mul, Stamp, Slot, IndexOf, TurnStamp, TurnInv, DeliveredInv, PushersInv, PoppersInv;
    var s' := ReaderNext(s, n);
    assert s'.calls.readers.Keys == s.calls.readers.Keys;
    assert s.log.turn[Slot(s.cfg, n)] == Full(n);
  }

  lemma StoreFreeKeepsInv(s: State, n: nat)
    requires Inv(s) && n in s.calls.readers && s.calls.readers[n].StoreFree?
    ensures Inv(ReaderNext(s, n))
  {
    hide Inv, Mul, Stamp, Slot, IndexOf;
    ReaderFacts(s, n);
    StoreFreeTurns(s, n);
    StoreFreeCalls(s, n);
    StoreFreeRest(s, n);
    InvFromParts(ReaderNext(s, n));
  }

  lemma StoreFreeTurns(s: State, n: nat)
    requires Inv(s) && n in s.calls.readers && s.calls.readers[n].StoreFree?
    ensures var s' := ReaderNext(s, n);
      && EndsInv(s'.cfg, s'.ring.head, s'.ring.tail, s'.log.popped, |s'.log.pushed|)
      && StampsInv(s'.cfg, s'.ring.stamps, s'.log.turn)
      && TurnInv(s'.log.turn, s'.cfg.cap, s'.log.popped, |s'.log.pushed|, s'.calls.writers.Keys, s'.calls.readers.Keys)
  {
    hide Mul, Stamp, Slot, IndexOf, WrappingAdd, ReadersInv, CellsInv, DeliveredInv, PushersInv, PoppersInv;
    ReaderFacts(s, n);
    StampOfNextLap(s.cfg, n);
    SlotOfNextLap(s.cfg, n);
    assert n + s.cfg.cap !in s.calls.writers;
  }

  lemma StoreFreeCalls(s: State, n: nat)
    requires Inv(s) && n in s.calls.readers && s.calls.readers[n].StoreFree?
    ensures var s' := ReaderNext(s, n);
      && |s'.log.turn| == s'.cfg.cap
      && WritersInv(s'.cfg, s'.calls.writers, s'.log.turn, s'.ring.cells, s'.log.pushed)
      && ReadersInv(s'.cfg, s'.calls.readers, s'.log.turn, s'.log.popped, s'.log.pushed)
      && CellsInv(s'.log.turn, s'.ring.cells, s'.calls.readers, s'.log.pushed)
  {
    hide Mul, Stamp, Slot, IndexOf, WrappingAdd, TurnStamp, TurnInv, DeliveredInv, PushersInv, PoppersInv;
    ReaderFacts(s, n);
  }

  lemma StoreFreeRest(s: State, n: nat)
    requires Inv(s) && n in s.calls.readers && s.calls.readers[n].StoreFree?
    ensures var s' := ReaderNext(s, n);
      && |s'.log.turn| == s'.cfg.cap
      && DeliveredInv(s'.log.delivered, s'.calls.readers.Keys, s'.log.popped, s'.log.pushed)
      && PushersInv(s'.cfg, s'.calls.pushers, s'.log.turn, |s'.log.pushed|)
      && PoppersInv(s'.cfg, s'.calls.poppers, s'.log.turn, s'.log.popped)
  {
    hide Mul, Stamp, Slot, IndexOf, WrappingAdd, TurnInv, WritersInv, CellsInv, ReadersInv;
    ReaderFacts(s, n);
  }

  // ---------------------------------------------------------------- every step, every run

  /** A step keeps the invariant if and only if the CAS it may win finds its stamp. */
  lemma StepKeepsInv(s: State, a: Action)
    requires Inv(s) && Enabled(s, a)
    ensures Inv(Step(s, a)) <==> Stands(s, a)
  {
    hide Inv, PusherNext, PopperNext, WriterNext, ReaderNext, WithPusher, WithPopper, StampAt;
    match a
    case StartPush(t, v) => WithPusherKeepsInv(s, t, LoadTail(v));
    case Push(t, win) => PusherKeepsInv(s, t, win);
    case Write(n) => if s.calls.writers[n].WriteValue? { WriteValueKeepsInv(s, n); } else { StoreFullKeepsInv(s, n); }
    case StartPop(t) => WithPopperKeepsInv(s, t, LoadHead);
    case Pop(t, win) => PopperKeepsInv(s, t, win);
    case Read(n) => if s.calls.readers[n].ReadValue? { ReadValueKeepsInv(s, n); } else { StoreFreeKeepsInv(s, n); }
  }

  /** A call that was not overtaken by a period finds its stamp. */
  lemma TimelyStands(s: State, a: Action)
    requires Inv(s) && Enabled(s, a) && Timely(s, a)
    ensures Stands(s, a)
  {
    hide Inv, Mul, Stamp, Slot, Period, StampAt;
    match a
    case Push(t, win) =>
      var c := s.calls.pushers[t];
      if c.TryTail? && s.ring.tail == c.tail {
        PusherFacts(s, t);
        EndsFacts(s);
        StampsEqual(s.cfg, c.n, |s.log.pushed|);
        FreeAtTail(s);
      }
    case Pop(t, win) =>
      var c := s.calls.poppers[t];
      if c.TryHead? && s.ring.head == c.head {
        PopperFacts(s, t);
        EndsFacts(s);
        StampsEqual(s.cfg, c.n, s.log.popped);
        FullAtHead(s);
      }
    case _ =>
  }

  /** The invariant holds in every state of a run up to the first CAS that does not find its stamp. */
  lemma {:induction false} RunInv(r: seq<State>, acts: seq<Action>, i: nat)
    requires Run(r, acts) && i < |r| && StandsBefore(r, acts, i)
    ensures Inv(r[i])
  {
    hide Inv, Step, Enabled, Stands;
    if i == 0 {
      NewInv(r[0].cfg);
    } else {
      assert StandsBefore(r, acts, i - 1);
      RunInv(r, acts, i - 1);
      assert Stands(r[i - 1], acts[i - 1]);
      StepKeepsInv(r[i - 1], acts[i - 1]);
    }
  }

  /** It holds no further than that: the condition is exact. */
  lemma {:induction false} RunInvExactly(r: seq<State>, acts: seq<Action>, i: nat)
    requires Run(r, acts) && i < |r|
    ensures StandsBefore(r, acts, i) <==> forall j :: 0 <= j <= i ==> Inv(r[j])
  {
    hide Inv, Step, Enabled, Stands;
    if StandsBefore(r, acts, i) {
      forall j: nat | j <= i
        ensures Inv(r[j])
      {
        assert StandsBefore(r, acts, j);
        RunInv(r, acts, j);
      }
    }
    if forall j :: 0 <= j <= i ==> Inv(r[j]) {
      forall j: nat | j < i
        ensures Stands(r[j], acts[j])
      {
        assert Inv(r[j]) && Inv(r[j + 1]);
        StepKeepsInv(r[j], acts[j]);
      }
    }
  }

  /** A run of timely calls is such a run. */
  lemma {:induction false} TimelyRunStands(r: seq<State>, acts: seq<Action>, i: nat)
    requires Run(r, acts) && i < |r| && TimelyBefore(r, acts, i)
    ensures StandsBefore(r, acts, i)
  {
    hide Inv, Step, Enabled, Stands, Timely;
    if i > 0 {
      assert TimelyBefore(r, acts, i - 1);
      TimelyRunStands(r, acts, i - 1);
      RunInv(r, acts, i - 1);
      assert Timely(r[i - 1], acts[i - 1]);
      TimelyStands(r[i - 1], acts[i - 1]);
    }
  }
}
