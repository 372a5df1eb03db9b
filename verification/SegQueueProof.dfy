/** Every step of the segmented queue keeps the invariant. */
module SegQueueProof {
  import opened Common
  import opened SegQueueSteps
  import opened SegQueueInvariant

  /** What the invariant says about one pushing call. */
  lemma PusherFacts(s: State, t: Tid)
    requires Inv(s)
    ensures s.ends.tailIndex.off <= BLOCK_CAP
    ensures t in s.calls.pushers ==> PusherOk(s.calls.pushers[t], s.ends.tailIndex, s.ends.published, s.ends.headBlock)
    ensures t in s.calls.pushers && s.calls.pushers[t].LoadTailBlock? ==>
      var c := s.calls.pushers[t];
      var next := TryTail(c.v, c.spare, c.tail, s.ends.tailBlock);
      PusherOk(next, s.ends.tailIndex, s.ends.published, s.ends.headBlock)
  {
  }

  /** What the invariant says about one writing call. */
  lemma WriterFacts(s: State, p: Pos)
    requires Inv(s) && p in s.calls.writers
    ensures WriterOk(p, s.calls.writers[p], s.cells.value, s.log.pushed, s.ends.tailIndex, s.ends.tailBlock,
                     s.ends.next)
    ensures s.ends.published > 0
  {
  }

  /** What the invariant says about one popping call. */
  lemma PopperFacts(s: State, t: Tid)
    requires Inv(s)
    ensures s.ends.tailIndex.off <= BLOCK_CAP && AtMost(s.ends.headIndex.pos, s.ends.tailIndex)
    ensures PopperOk(LoadHeadBlock(s.ends.headIndex), s.ends.headIndex, s.ends.headBlock, s.ends.tailIndex)
    ensures t in s.calls.poppers ==> PopperOk(s.calls.poppers[t], s.ends.headIndex, s.ends.headBlock, s.ends.tailIndex)
    ensures t in s.calls.poppers && s.calls.poppers[t].LoadHeadBlock? ==>
      var next := CheckTail(s.calls.poppers[t].head, s.ends.headBlock);
      PopperOk(next, s.ends.headIndex, s.ends.headBlock, s.ends.tailIndex)
  {
  }

  /** What the invariant says about one reading call. */
  lemma ReaderFacts(s: State, p: Pos)
    requires Inv(s) && p in s.calls.readers
    ensures IsSlot(p) && Before(p, s.ends.headIndex.pos)
    ensures ReaderOk(p, s.calls.readers[p], s.ends.headIndex.pos, s.ends.headBlock, s.ends.next)
    ensures ReaderTaken(p, s.calls.readers[p], s.log.taken, s.cells.readBit, s.cells.writeBit, s.cells.value)
    ensures p in s.cells.writeBit ==> p in s.cells.value
    ensures forall k :: k in s.ends.next ==> s.ends.next[k] == k + 1
  {
  }

  lemma PushLoadKeepsInv(s: State, t: Tid, c: Pusher)
    requires Inv(s)
    requires t in s.calls.pushers ==> !s.calls.pushers[t].StoreFirstHead?
    requires PusherOk(c, s.ends.tailIndex, s.ends.published, s.ends.headBlock) && !c.StoreFirstHead?
    ensures Inv(s.(calls := s.calls.(pushers := s.calls.pushers[t := c])))
  {
    PusherMoves(s.calls.pushers, t, c, s.ends.tailIndex, s.ends.published, s.ends.headBlock, s.log.installer);
  }

  lemma InstallFirstKeepsInv(s: State, t: Tid, v: Value, spare: bool, tail: Pos)
    requires Inv(s)
    requires t in s.calls.pushers && s.calls.pushers[t].TryTail? && s.calls.pushers[t].tail == tail
    requires s.calls.pushers[t].seen.None?
    ensures Inv(InstallFirst(s, t, v, spare, tail))
  {
    assert PusherOk(s.calls.pushers[t], s.ends.tailIndex, s.ends.published, s.ends.headBlock);
    if s.ends.tailBlock.None? {
      FirstBlock(s, t, StoreFirstHead(v, spare, tail, s.ends.published));
    } else {
      PushLoadKeepsInv(s, t, LoadTail(v, true));
    }
  }

  lemma ClaimTailKeepsInv(s: State, t: Tid, v: Value, spare: bool, tail: Pos, block: nat)
    requires Inv(s)
    requires t in s.calls.pushers && s.calls.pushers[t].TryTail? && s.calls.pushers[t].tail == tail
    requires s.calls.pushers[t].seen == Some(block)
    requires s.ends.tailIndex == tail && IsSlot(tail) && (tail.off + 1 == BLOCK_CAP ==> spare)
    ensures Inv(ClaimTail(s, t, v, spare, tail, block))
  {
    hide LinkInv, HeadInv, WriteInv, ReadInv, TakenInv, FirstInv, WritersInv, PoppersInv;
    assert PusherOk(s.calls.pushers[t], s.ends.tailIndex, s.ends.published, s.ends.headBlock);
    var s' := ClaimTail(s, t, v, spare, tail, block);
    var w := s'.calls.writers[tail];
    TailAdvances(s, s'.ends.tailIndex);
    PusherLeaves(s.calls.pushers, t, s'.ends.tailIndex, s.ends.published, s.ends.headBlock, s.log.installer);
    ClaimTailIndex(tail, w, v, s.ends.tailBlock, s.ends.published, s.log.pushed, s.calls.writers, s.ends.next);
    ClaimTailWrites(tail, w, v, s.calls.writers, s.cells.writeBit, s.cells.value, s.log.pushed);
    ClaimTailWriters(tail, w, v, s.calls.writers, s.cells.writeBit, s.cells.value, s.log.pushed, s.ends.tailBlock,
                     s.ends.next);
  }

  lemma PushTryKeepsInv(s: State, t: Tid, win: bool)
    requires Inv(s)
    requires t in s.calls.pushers && s.calls.pushers[t].TryTail?
    ensures Inv(PushTry(s, t, s.calls.pushers[t], win))
  {
    hide Inv;
    var c := s.calls.pushers[t];
    var spare := c.spare || c.tail.off + 1 == BLOCK_CAP;
    PusherFacts(s, t);
    if c.tail.off == BLOCK_CAP {
      PushLoadKeepsInv(s, t, LoadTail(c.v, c.spare));
    } else if c.seen.None? {
      InstallFirstKeepsInv(s, t, c.v, spare, c.tail);
    } else if win && s.ends.tailIndex == c.tail {
      ClaimTailKeepsInv(s, t, c.v, spare, c.tail, c.seen.value);
    } else {
      PushLoadKeepsInv(s, t, LoadTailBlock(c.v, spare, s.ends.tailIndex));
    }
  }

  lemma StoreFirstHeadKeepsInv(s: State, t: Tid)
    requires Inv(s) && t in s.calls.pushers && s.calls.pushers[t].StoreFirstHead?
    ensures Inv(PusherNext(s, t, false))
  {
    PusherFacts(s, t);
    FirstHead(s, t, PusherNext(s, t, false).calls.pushers[t]);
  }

  lemma PusherNextKeepsInv(s: State, t: Tid, win: bool)
    requires Inv(s) && t in s.calls.pushers
    ensures Inv(PusherNext(s, t, win))
  {
    hide Inv;
    PusherFacts(s, t);
    match s.calls.pushers[t]
    case LoadTail(v, spare) => PushLoadKeepsInv(s, t, LoadTailBlock(v, spare, s.ends.tailIndex));
    case LoadTailBlock(v, spare, tail) => PushLoadKeepsInv(s, t, TryTail(v, spare, tail, s.ends.tailBlock));
    case TryTail(_, _, _, _) => PushTryKeepsInv(s, t, win);
    case StoreFirstHead(_, _, _, _) => StoreFirstHeadKeepsInv(s, t);
  }

  lemma InstallKeepsInv(s: State, p: Pos)
    requires Inv(s) && p in s.calls.writers && s.calls.writers[p].StoreTailBlock?
    ensures Inv(WriterNext(s, p))
  {
    WriterFacts(s, p);
    hide TailInv, LinkInv, HeadInv, WriteInv, WritersInv, PushersInv, FirstInv;
    InstallBlock(p, WriterNext(s, p).calls.writers[p], s);
    PublishedGrows(s);
  }

  lemma EnterKeepsInv(s: State, p: Pos)
    requires Inv(s) && p in s.calls.writers && s.calls.writers[p].StoreTailIndex?
    ensures Inv(WriterNext(s, p))
  {
    hide TailInv, LinkInv, HeadInv, WriteInv, WritersInv, PushersInv, FirstInv, PoppersInv;
    EnterBlock(p, WriterNext(s, p).calls.writers[p], s);
    TailAdvances(s, WriterNext(s, p).ends.tailIndex);
  }

  lemma LinkKeepsInv(s: State, p: Pos)
    requires Inv(s) && p in s.calls.writers && s.calls.writers[p].StoreNext?
    ensures Inv(WriterNext(s, p))
  {
    hide TailInv, LinkInv, HeadInv, WriteInv, WritersInv, ReadersInv;
    LinkBlock(p, WriterNext(s, p).calls.writers[p], s);
    NextGrows(p.lap, p.lap + 1, s.calls.readers, s.ends.headIndex.pos, s.ends.headBlock, s.ends.next);
  }

  lemma FillKeepsInv(s: State, p: Pos)
    requires Inv(s) && p in s.calls.writers && s.calls.writers[p].WriteValue?
    ensures Inv(WriterNext(s, p))
  {
    hide TailInv, LinkInv, HeadInv, WriteInv, ReadInv, TakenInv, DestroyersInv, WritersInv, ReadersInv, ReadersTaken;
    assert p == Pos(p.lap, p.off);
    WriterMoves(p, SetWrite(p.lap), s);
    FillCell(p, s);
    ValueGrows(p, s.calls.writers[p].v, s);
  }

  lemma FinishWriteKeepsInv(s: State, p: Pos)
    requires Inv(s) && p in s.calls.writers && s.calls.writers[p].SetWrite?
    ensures Inv(WriterNext(s, p))
  {
    hide TailInv, LinkInv, HeadInv, WriteInv, ReadInv, TakenInv, DestroyersInv, WritersInv, ReadersInv, ReadersTaken;
    assert p == Pos(p.lap, p.off);
    WriterMoves(p, s.calls.writers[p], s);
    FinishWrite(p, s);
  }

  lemma WriterNextKeepsInv(s: State, p: Pos)
    requires Inv(s) && p in s.calls.writers
    ensures Inv(WriterNext(s, p))
  {
    hide Inv, WriterNext;
    match s.calls.writers[p]
    case StoreTailBlock(_, _, _) => InstallKeepsInv(s, p);
    case StoreTailIndex(_, _, _) => EnterKeepsInv(s, p);
    case StoreNext(_, _, _) => LinkKeepsInv(s, p);
    case WriteValue(_, _) => FillKeepsInv(s, p);
    case SetWrite(_) => FinishWriteKeepsInv(s, p);
  }

  lemma PopLoadKeepsInv(s: State, t: Tid, c: Popper)
    requires Inv(s)
    ensures PopperOk(c, s.ends.headIndex, s.ends.headBlock, s.ends.tailIndex) ==>
        Inv(s.(calls := s.calls.(poppers := s.calls.poppers[t := c])))
    ensures Inv(s.(calls := s.calls.(poppers := s.calls.poppers - {t})))
  {
    PopperMoves(s.calls.poppers, t, c, s.ends.headIndex, s.ends.headBlock, s.ends.tailIndex);
  }

  lemma ClaimHeadKeepsInv(s: State, t: Tid)
    requires Inv(s)
    requires t in s.calls.poppers && s.calls.poppers[t].TryHead? && s.calls.poppers[t].head == s.ends.headIndex
    ensures var c := s.calls.poppers[t]; Inv(ClaimHead(s, t, c.head, c.newHead, c.block))
  {
    hide WriteInv, ReadInv, TakenInv, WritersInv, PoppersInv, ReadersInv, ReadersTaken, DestroyersInv;
    var c := s.calls.poppers[t];
    var s' := ClaimHead(s, t, c.head, c.newHead, c.block);
    var p := s.ends.headIndex.pos;
    ClaimHeadIndex(s, t);
    ClaimHeadReaders(p, s'.calls.readers[p], s);
    UnpoppedNotInDestroy(s, p);
    ClaimHeadReads(p, s'.calls.readers[p], s.calls.readers, s.calls.destroyers, s.log.delivered);
    ClaimHeadPoppers(s.calls.poppers, t, s.ends.headIndex, c.newHead, s.ends.headBlock, s.ends.tailIndex);
  }

  lemma PopCheckKeepsInv(s: State, t: Tid)
    requires Inv(s) && t in s.calls.poppers && s.calls.poppers[t].CheckTail?
    ensures Inv(PopCheck(s, t, s.calls.poppers[t].head, s.calls.poppers[t].seen))
  {
    hide Inv;
    PopperFacts(s, t);
    var CheckTail(head, seen) := s.calls.poppers[t];
    if IsSlot(head.pos) && (head.hasNext || head.pos != s.ends.tailIndex) && seen.Some? {
      var more := head.hasNext || head.pos.lap != s.ends.tailIndex.lap;
      CheckTailOk(head, seen.value, s.ends.headIndex, s.ends.headBlock, s.ends.tailIndex);
      PopLoadKeepsInv(s, t, TryHead(head, Index(Pos(head.pos.lap, head.pos.off + 1), more), seen.value));
    } else {
      PopLoadKeepsInv(s, t, LoadHead);
    }
  }

  lemma PopperNextKeepsInv(s: State, t: Tid, win: bool)
    requires Inv(s) && t in s.calls.poppers
    ensures Inv(PopperNext(s, t, win))
  {
    hide Inv;
    PopperFacts(s, t);
    match s.calls.poppers[t]
    case LoadHead => PopLoadKeepsInv(s, t, LoadHeadBlock(s.ends.headIndex));
    case LoadHeadBlock(head) => PopLoadKeepsInv(s, t, CheckTail(head, s.ends.headBlock));
    case CheckTail(_, _) => PopCheckKeepsInv(s, t);
    case TryHead(head, _, _) =>
      if win && s.ends.headIndex == head {
        ClaimHeadKeepsInv(s, t);
      } else {
        PopLoadKeepsInv(s, t, LoadHeadBlock(s.ends.headIndex));
      }
  }

  lemma ReadLoadKeepsInv(s: State, p: Pos)
    requires Inv(s) && p in s.calls.readers
    requires s.calls.readers[p].WaitNext? || s.calls.readers[p].LoadNextNext? || s.calls.readers[p].WaitWrite?
    ensures Inv(ReaderNext(s, p))
  {
    ReaderFacts(s, p);
    hide TailInv, WriteInv, ReadInv, TakenInv, HeadInv, LinkInv, ReadersInv, ReadersTaken;
    assert p == Pos(p.lap, p.off);
    if ReaderNext(s, p) != s {
      ReaderMoves(p, ReaderNext(s, p).calls.readers[p], s);
    }
  }

  lemma LeaveKeepsInv(s: State, p: Pos)
    requires Inv(s) && p in s.calls.readers
    requires s.calls.readers[p].StoreHeadBlock? || s.calls.readers[p].StoreHeadIndex?
    ensures Inv(ReaderNext(s, p))
  {
    if s.calls.readers[p].StoreHeadBlock? {
      HeadBlockMoves(p, s.calls.readers[p].next, s);
      HeadBlockSeen(s.calls.readers[p].next, s);
    } else {
      HeadEnters(p, s);
      HeadEntersSeen(ReaderNext(s, p).ends.headIndex, s);
    }
  }

  lemma TakeValueKeepsInv(s: State, p: Pos)
    requires Inv(s)
    requires p in s.calls.readers && s.calls.readers[p].ReadValue? && p in s.cells.value && p.off + 1 < BLOCK_CAP
    ensures Inv(TakeValue(s, p, p.lap, s.cells.value[p]))
  {
    ReaderFacts(s, p);
    hide TailInv, LinkInv, HeadInv, WriteInv, ReadInv, TakenInv, DestroyersInv, PhaseInv, ReadersInv, ReadersTaken;
    assert p == Pos(p.lap, p.off);
    TakeCell(p, s);
    ReadCell(p, s.log.taken, s.ends.headIndex.pos, s.cells.writeBit, s.cells.readBit, s.log.delivered, s.cells.value);
    ReadCellPhase(p, s.calls.destroyers, s.log.parked, s.cells.freed, s.log.taken, s.cells.destroyBit);
  }

  lemma RetireBlockKeepsInv(s: State, p: Pos)
    requires Inv(s)
    requires p in s.calls.readers && s.calls.readers[p].ReadValue? && p in s.cells.value && p.off + 1 == BLOCK_CAP
    ensures Inv(RetireBlock(s, p, p.lap, s.cells.value[p]))
  {
    ReaderFacts(s, p);
    hide TailInv, LinkInv, HeadInv, WriteInv, ReadInv, TakenInv, DestroyersInv, PhaseInv, ReadersInv, ReadersTaken;
    assert p == Pos(p.lap, p.off);
    var d := Destroyer(p, s.cells.value[p], 0, false);
    TakeCell(p, s);
    ReadCell(p, s.log.taken, s.ends.headIndex.pos, s.cells.writeBit, s.cells.readBit, s.log.delivered, s.cells.value);
    RetirePhase(p.lap, d, s.calls.destroyers, s.log.parked, s.cells.freed, s.log.taken, s.cells.destroyBit);
    RetireReads(p, d, s.ends.headIndex.pos, s.calls.readers, s.calls.destroyers, s.log.delivered);
    RetireDestroyers(p, d, s);
  }

  lemma ReturnValueKeepsInv(s: State, p: Pos)
    requires Inv(s)
    requires p in s.calls.readers && s.calls.readers[p].SetRead? && p !in s.cells.destroyBit
    ensures Inv(ReturnValue(s, p, p.lap, s.calls.readers[p].v))
  {
    ReaderFacts(s, p);
    hide TailInv, LinkInv, HeadInv, WriteInv, ReadInv, TakenInv, DestroyersInv, ParkedInv, FreedInv, PhaseInv,
        ReadersInv, ReadersTaken, DestroyerOk, ReaderOk, ReaderTaken;
    assert p == Pos(p.lap, p.off);
    SetReadParked(p, s.log.parked, s.cells.readBit, s.cells.destroyBit);
    SetReadDestroyers(p, s.calls.destroyers, s.cells.readBit, s.cells.destroyBit, s.log.taken, s.cells.value);
    SetReadFreed(p, s.cells.freed, s.cells.readBit);
    SetReadTaken(p, true, s.ends.headIndex.pos, s.log.taken, s.cells.writeBit, s.cells.readBit, s.log.delivered,
                 s.cells.value);
    DeliverReads(p, s.calls.readers[p].v, s.ends.headIndex.pos, s.calls.readers, s.calls.destroyers, s.log.delivered);
    ReaderLeaves(p, s);
  }

  lemma InheritDestroyKeepsInv(s: State, p: Pos)
    requires Inv(s)
    requires p in s.calls.readers && s.calls.readers[p].SetRead? && p in s.cells.destroyBit
    ensures Inv(InheritDestroy(s, p, p.lap, s.calls.readers[p].v))
  {
    ReaderFacts(s, p);
    hide TailInv, LinkInv, HeadInv, WriteInv, ReadInv, TakenInv, DestroyersInv, ParkedInv, FreedInv, PhaseInv,
        ReadersInv, ReadersTaken, ReaderOk;
    assert p == Pos(p.lap, p.off);
    InheritParts(p, s.calls.readers[p].v, s);
    SetReadTaken(p, false, s.ends.headIndex.pos, s.log.taken, s.cells.writeBit, s.cells.readBit, s.log.delivered,
                 s.cells.value);
    ReaderLeaves(p, s);
  }

  lemma ReaderNextKeepsInv(s: State, p: Pos)
    requires Inv(s) && p in s.calls.readers
    ensures Inv(ReaderNext(s, p))
  {
    hide Inv;
    ReaderFacts(s, p);
    assert p == Pos(p.lap, p.off);
    match s.calls.readers[p]
    case ReadValue(_) => if p.off + 1 == BLOCK_CAP { RetireBlockKeepsInv(s, p); } else { TakeValueKeepsInv(s, p); }
    case SetRead(_, _) =>
      if p in s.cells.destroyBit { InheritDestroyKeepsInv(s, p); } else { ReturnValueKeepsInv(s, p); }
    case StoreHeadBlock(_, _, _) => LeaveKeepsInv(s, p);
    case StoreHeadIndex(_, _, _) => LeaveKeepsInv(s, p);
    case _ => ReadLoadKeepsInv(s, p);
  }

  /** What the invariant says about one destroying call. */
  lemma DestroyerFacts(s: State, k: nat)
    requires Inv(s) && k in s.calls.destroyers
    ensures DestroyerOk(k, s.calls.destroyers[k], s.cells.readBit, s.cells.destroyBit, s.log.taken, s.cells.value)
    ensures k !in s.log.parked && k !in s.cells.freed
    ensures IsSlot(s.calls.destroyers[k].slot) && Before(s.calls.destroyers[k].slot, s.ends.headIndex.pos)
  {
  }

  lemma DestroyGoKeepsInv(s: State, k: nat, d: Destroyer)
    requires Inv(s) && k in s.calls.destroyers && d.slot == s.calls.destroyers[k].slot
    requires DestroyerOk(k, d, s.cells.readBit, s.cells.destroyBit, s.log.taken, s.cells.value)
    ensures Inv(DestroyGo(s, k, d))
  {
    hide TailInv, LinkInv, HeadInv, WriteInv, ReadInv, TakenInv, DestroyersInv, ParkedInv, FreedInv, PhaseInv,
        ReadersInv, ReadersTaken, DestroyerOk, ReaderOk, ReaderTaken;
    MoveReads(k, d, s.ends.headIndex.pos, s.calls.readers, s.calls.destroyers, s.log.delivered);
    DestroyersMove(k, d.i, d, false, s);
    PhaseTransitions(k, d, d.i, s);
  }

  lemma MarkAndGoKeepsInv(s: State, k: nat)
    requires Inv(s) && k in s.calls.destroyers && s.calls.destroyers[k].marking
    requires Pos(k, s.calls.destroyers[k].i) in s.cells.readBit
    ensures Inv(MarkAndGo(s, k, s.calls.destroyers[k]))
  {
    DestroyerFacts(s, k);
    hide TailInv, LinkInv, HeadInv, WriteInv, ReadInv, TakenInv, DestroyersInv, ParkedInv, FreedInv, PhaseInv,
        ReadersInv, ReadersTaken, DestroyerOk;
    MarkAndGoParts(k, s);
  }

  lemma FreeBlockKeepsInv(s: State, k: nat)
    requires Inv(s) && k in s.calls.destroyers && s.calls.destroyers[k].i + 1 >= BLOCK_CAP
    ensures Inv(FreeBlock(s, k, s.calls.destroyers[k]))
  {
    DestroyerFacts(s, k);
    hide TailInv, LinkInv, HeadInv, WriteInv, ReadInv, TakenInv, DestroyersInv, ParkedInv, FreedInv, PhaseInv,
        ReadersInv, ReadersTaken, DestroyerOk, ReaderOk, ReaderTaken;
    var d := s.calls.destroyers[k];
    DeliverDestroyed(k, d.v, s.ends.headIndex.pos, s.calls.readers, s.calls.destroyers, s.log.delivered);
    DeliverTaken(d.slot, s);
    DestroyersLeave(k, s.calls.destroyers, s.cells.readBit, s.cells.destroyBit, s.log.taken, s.cells.value);
    FreedGrows(k, s.cells.freed, s.cells.readBit);
    PhaseTransitions(k, d, d.i, s);
  }

  lemma ParkDestroyKeepsInv(s: State, k: nat)
    requires Inv(s) && k in s.calls.destroyers && s.calls.destroyers[k].marking
    requires Pos(k, s.calls.destroyers[k].i) !in s.cells.readBit
    ensures Inv(ParkDestroy(s, k, s.calls.destroyers[k]))
  {
    DestroyerFacts(s, k);
    hide TailInv, LinkInv, HeadInv, WriteInv, ReadInv, TakenInv, DestroyersInv, ParkedInv, FreedInv, PhaseInv,
        ReadersInv, ReadersTaken, DestroyerOk, ReaderOk, ReaderTaken;
    var d := s.calls.destroyers[k];
    DeliverDestroyed(k, d.v, s.ends.headIndex.pos, s.calls.readers, s.calls.destroyers, s.log.delivered);
    DeliverTaken(d.slot, s);
    MarkDestroyers(k, d.i, s.calls.destroyers, s.cells.readBit, s.cells.destroyBit, s.log.taken, s.cells.value);
    MarkParked(k, d.i, s.log.parked, s.cells.readBit, s.cells.destroyBit);
    ParkedGrows(k, d.i, s.log.parked, s.cells.readBit, s.cells.destroyBit + {Pos(k, d.i)});
    PhaseTransitions(k, d, d.i, s);
  }

  lemma DestroyerNextKeepsInv(s: State, k: nat)
    requires Inv(s) && k in s.calls.destroyers
    ensures Inv(DestroyerNext(s, k))
  {
    hide Inv;
    DestroyerFacts(s, k);
    var d := s.calls.destroyers[k];
    if d.i + 1 >= BLOCK_CAP {
      FreeBlockKeepsInv(s, k);
    } else if !d.marking {
      DestroyGoKeepsInv(s, k, if Pos(k, d.i) in s.cells.readBit then d.(i := d.i + 1) else d.(marking := true));
    } else if Pos(k, d.i) in s.cells.readBit {
      MarkAndGoKeepsInv(s, k);
    } else {
      ParkDestroyKeepsInv(s, k);
    }
  }

  lemma InitInv(s: State)
    requires Init(s)
    ensures Inv(s)
  {
  }

  lemma StepKeepsInv(s: State, a: Action)
    requires Inv(s) && Enabled(s, a)
    ensures Inv(Step(s, a))
  {
    hide Inv, PusherNext, WriterNext, PopperNext, ReaderNext, DestroyerNext;
    match a
    case StartPush(t, v) => PushLoadKeepsInv(s, t, LoadTail(v, false));
    case Push(t, win) => PusherNextKeepsInv(s, t, win);
    case Write(p) => WriterNextKeepsInv(s, p);
    case StartPop(t) => PopLoadKeepsInv(s, t, LoadHead);
    case Pop(t, win) => PopperNextKeepsInv(s, t, win);
    case Read(p) => ReaderNextKeepsInv(s, p);
    case Destroy(k) => DestroyerNextKeepsInv(s, k);
  }

  /** The invariant holds in every state of every run. */
  lemma {:induction false} RunInv(r: seq<State>, acts: seq<Action>, i: nat)
    requires Run(r, acts) && i < |r|
    ensures Inv(r[i])
  {
    hide Inv, Step;
    if i == 0 {
      InitInv(r[0]);
    } else {
      RunInv(r, acts, i - 1);
      StepKeepsInv(r[i - 1], acts[i - 1]);
      assert r[i - 1 + 1] == Step(r[i - 1], acts[i - 1]);
    }
  }
}
