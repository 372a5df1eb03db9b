/**
 The inductive invariant of the segmented queue. Each part names the fields it depends on, so that a
 step keeps every part whose fields it leaves alone.
 */
module SegQueueInvariant {
  import opened Common
  import opened SegQueueSteps

  // ---------------------------------------------------------------- indices and blocks

  /** While the tail index stands at the end of a block, the writer of the last slot is installing the next one. */
  ghost predicate TailInv(tail: Pos, tailBlock: Option<nat>, published: nat, pushed: seq<Value>,
      writers: map<Pos, Writer>) {
    && tail.off <= BLOCK_CAP
    && |pushed| == Ticket(tail)
    && (tailBlock.None? <==> published == 0)
    && (published == 0 ==> tail == Pos(0, 0))
    && (published > 0 ==> tailBlock.value + 1 == published)
    && (IsSlot(tail) && published > 0 ==> tailBlock == Some(tail.lap))
    && (tail.off == BLOCK_CAP ==>
          && LastSlot(tail.lap) in writers
          && (writers[LastSlot(tail.lap)].StoreTailBlock? || writers[LastSlot(tail.lap)].StoreTailIndex?))
  }

  /** Blocks are linked in order; a block left by the tail is linked or its installer is about to link it. */
  ghost predicate LinkInv(tail: Pos, next: map<nat, nat>, writers: map<Pos, Writer>) {
    && (forall k :: k in next ==> next[k] == k + 1 && k < tail.lap)
    && (forall k: nat :: k < tail.lap ==> k in next || (LastSlot(k) in writers && writers[LastSlot(k)].StoreNext?))
  }

  /** The reader of a last slot has not yet moved the head to the next block. */
  predicate Leaving(r: Reader) {
    r.WaitNext? || r.LoadNextNext? || r.StoreHeadBlock? || r.StoreHeadIndex?
  }

  ghost predicate HeadInv(head: Index, headBlock: Option<nat>, tail: Pos, published: nat, readers: map<Pos, Reader>) {
    && AtMost(head.pos, tail)
    && head.pos.off <= BLOCK_CAP
    && (head.hasNext && IsSlot(head.pos) ==> head.pos.lap < tail.lap)
    && (headBlock.None? ==> head.pos == Pos(0, 0))
    && (published == 0 ==> headBlock.None?)
    && (headBlock.Some? && IsSlot(head.pos) ==> headBlock == Some(head.pos.lap))
    && (head.pos.off == BLOCK_CAP ==> LastSlot(head.pos.lap) in readers && Leaving(readers[LastSlot(head.pos.lap)]))
  }

  // ---------------------------------------------------------------- slots

  /** Claimed slots are written or have a writer at work; written cells hold the value of their ticket. */
  ghost predicate WriteInv(tail: Pos, writers: map<Pos, Writer>, writeBit: set<Pos>, value: map<Pos, Value>,
      pushed: seq<Value>) {
    && (forall p :: p in writers ==> IsSlot(p) && Before(p, tail) && p !in writeBit)
    && (forall p :: IsSlot(p) && Before(p, tail) ==> p in writeBit || p in writers)
    && (forall p :: p in writeBit ==> p in value)
    && (forall p :: p in value ==>
          IsSlot(p) && Before(p, tail) && Ticket(p) < |pushed| && value[p] == pushed[Ticket(p)])
  }

  /** Slot `p` was popped by the call that is now destroying its block. */
  predicate InDestroy(destroyers: map<nat, Destroyer>, p: Pos) {
    p.lap in destroyers && destroyers[p.lap].slot == p
  }

  /** Popped slots are delivered or have a call at work. */
  ghost predicate ReadInv(head: Pos, readers: map<Pos, Reader>, destroyers: map<nat, Destroyer>,
      delivered: map<Pos, Value>) {
    && (forall p :: p in readers ==> IsSlot(p) && Before(p, head) && p !in delivered && !InDestroy(destroyers, p))
    && (forall p :: IsSlot(p) && Before(p, head) ==> p in delivered || p in readers || InDestroy(destroyers, p))
    && (forall p :: p in delivered ==> IsSlot(p) && Before(p, head) && !InDestroy(destroyers, p))
  }

  /** A cell is read at most once, after it was written; READ is set before the value is returned. */
  ghost predicate TakenInv(head: Pos, taken: set<Pos>, writeBit: set<Pos>, readBit: set<Pos>,
      delivered: map<Pos, Value>, value: map<Pos, Value>) {
    && (forall p :: p in taken ==> IsSlot(p) && Before(p, head) && p in writeBit)
    && (forall p :: p in readBit ==> p.off + 1 < BLOCK_CAP && p in taken)
    && (forall p :: p in delivered ==> p in taken && p in value && delivered[p] == value[p])
    && (forall p :: p in delivered && p.off + 1 < BLOCK_CAP ==> p in readBit)
  }

  // ---------------------------------------------------------------- destruction

  /** Every slot of block `k` before `i` has been read. */
  ghost predicate ReadBelow(readBit: set<Pos>, k: nat, i: nat) {
    forall j: nat :: j < i ==> Pos(k, j) in readBit
  }

  /** Destruction of block `k` is running, waiting for a reader, or done. */
  predicate Started(destroyers: map<nat, Destroyer>, parked: map<nat, nat>, freed: set<nat>, k: nat) {
    k in destroyers || k in parked || k in freed
  }

  ghost predicate DestroyerOk(k: nat, d: Destroyer, readBit: set<Pos>, destroyBit: set<Pos>, taken: set<Pos>,
      value: map<Pos, Value>) {
    && d.i < BLOCK_CAP
    && (d.marking ==> d.i + 1 < BLOCK_CAP)
    && ReadBelow(readBit, k, d.i)
    && (forall p :: p in destroyBit && p.lap == k ==> p.off < d.i)
    && d.slot.lap == k
    && d.slot in taken
    && d.slot in value && value[d.slot] == d.v
    && (d.slot.off + 1 < BLOCK_CAP ==> d.slot in readBit)
  }

  ghost predicate ParkedOk(k: nat, i: nat, readBit: set<Pos>, destroyBit: set<Pos>) {
    && i + 1 < BLOCK_CAP
    && ReadBelow(readBit, k, i)
    && (forall p :: p in destroyBit && p.lap == k ==> p.off <= i)
    && Pos(k, i) in destroyBit
    && Pos(k, i) !in readBit
  }

  ghost predicate DestroyersInv(destroyers: map<nat, Destroyer>, readBit: set<Pos>, destroyBit: set<Pos>,
      taken: set<Pos>, value: map<Pos, Value>) {
    forall k :: k in destroyers ==> DestroyerOk(k, destroyers[k], readBit, destroyBit, taken, value)
  }

  ghost predicate ParkedInv(parked: map<nat, nat>, readBit: set<Pos>, destroyBit: set<Pos>) {
    forall k :: k in parked ==> ParkedOk(k, parked[k], readBit, destroyBit)
  }

  ghost predicate FreedInv(freed: set<nat>, readBit: set<Pos>) {
    forall k :: k in freed ==> ReadBelow(readBit, k, BLOCK_CAP - 1)
  }

  ghost predicate PhaseInv(destroyers: map<nat, Destroyer>, parked: map<nat, nat>, freed: set<nat>, taken: set<Pos>,
      destroyBit: set<Pos>) {
    && destroyers.Keys !! parked.Keys
    && destroyers.Keys !! freed
    && parked.Keys !! freed
    && (forall k: nat :: Started(destroyers, parked, freed, k) <==> LastSlot(k) in taken)
    && (forall p :: p in destroyBit ==> Started(destroyers, parked, freed, p.lap))
  }

  // ---------------------------------------------------------------- calls

  ghost predicate PusherOk(c: Pusher, tail: Pos, published: nat, headBlock: Option<nat>) {
    match c
    case LoadTail(_, _) => true
    case LoadTailBlock(_, _, seenTail) => seenTail.off <= BLOCK_CAP && AtMost(seenTail, tail)
    case TryTail(_, _, seenTail, seen) =>
      && seenTail.off <= BLOCK_CAP && AtMost(seenTail, tail)
      && (seen.None? ==> seenTail == Pos(0, 0))
      && (seen.Some? ==> published > 0)
      && (seenTail == tail && IsSlot(tail) && seen.Some? ==> seen.value == tail.lap)
    case StoreFirstHead(_, _, seenTail, block) =>
      seenTail == Pos(0, 0) && block == 0 && published > 0 && headBlock.None?
  }

  ghost predicate PushersInv(pushers: map<Tid, Pusher>, tail: Pos, published: nat, headBlock: Option<nat>) {
    forall t :: t in pushers ==> PusherOk(pushers[t], tail, published, headBlock)
  }

  /** The first block is handed to the head by exactly one call. */
  ghost predicate FirstInv(pushers: map<Tid, Pusher>, published: nat, headBlock: Option<nat>, installer: Option<Tid>) {
    && (headBlock.None? && published > 0 ==>
          installer.Some? && installer.value in pushers && pushers[installer.value].StoreFirstHead?)
    && (forall t :: t in pushers && pushers[t].StoreFirstHead? ==> installer == Some(t))
  }

  /** The slot still waits for `v`. */
  ghost predicate Pending(p: Pos, v: Value, value: map<Pos, Value>, pushed: seq<Value>) {
    p !in value && Ticket(p) < |pushed| && pushed[Ticket(p)] == v
  }

  ghost predicate WriterOk(p: Pos, c: Writer, value: map<Pos, Value>, pushed: seq<Value>, tail: Pos,
      tailBlock: Option<nat>, next: map<nat, nat>) {
    && c.block == p.lap
    && match c
       case StoreTailBlock(v, spare, block) =>
         && spare && p == LastSlot(block) && Pending(p, v, value, pushed)
         && tail == Pos(block, BLOCK_CAP) && tailBlock == Some(block)
       case StoreTailIndex(v, block, nb) =>
         && p == LastSlot(block) && Pending(p, v, value, pushed)
         && tail == Pos(block, BLOCK_CAP) && tailBlock == Some(nb) && nb == block + 1
       case StoreNext(v, block, nb) =>
         && p == LastSlot(block) && Pending(p, v, value, pushed)
         && nb == block + 1 && block < tail.lap && block !in next
       case WriteValue(v, block) => Pending(p, v, value, pushed)
       case SetWrite(block) => p in value
  }

  ghost predicate WritersInv(writers: map<Pos, Writer>, value: map<Pos, Value>, pushed: seq<Value>, tail: Pos,
      tailBlock: Option<nat>, next: map<nat, nat>) {
    forall p :: p in writers ==> WriterOk(p, writers[p], value, pushed, tail, tailBlock, next)
  }

  ghost predicate HeadSeen(seenHead: Index, head: Index, tail: Pos) {
    && seenHead.pos.off <= BLOCK_CAP
    && AtMost(seenHead.pos, head.pos)
    && (seenHead.hasNext && IsSlot(seenHead.pos) ==> seenHead.pos.lap < tail.lap)
  }

  ghost predicate PopperOk(c: Popper, head: Index, headBlock: Option<nat>, tail: Pos) {
    match c
    case LoadHead => true
    case LoadHeadBlock(h) => HeadSeen(h, head, tail)
    case CheckTail(h, seen) =>
      && HeadSeen(h, head, tail)
      && (seen.Some? ==> headBlock.Some?)
      && (h == head && IsSlot(h.pos) && seen.Some? ==> seen.value == h.pos.lap)
    case TryHead(h, newHead, block) =>
      && IsSlot(h.pos) && HeadSeen(h, head, tail)
      && newHead.pos == Pos(h.pos.lap, h.pos.off + 1)
      && Before(h.pos, tail)
      && (newHead.hasNext ==> h.pos.lap < tail.lap)
      && headBlock.Some?
      && (h == head ==> block == h.pos.lap)
  }

  ghost predicate PoppersInv(poppers: map<Tid, Popper>, head: Index, headBlock: Option<nat>, tail: Pos) {
    forall t :: t in poppers ==> PopperOk(poppers[t], head, headBlock, tail)
  }

  /** Where a reader that has not yet read its cell stands. */
  ghost predicate ReaderOk(p: Pos, c: Reader, head: Pos, headBlock: Option<nat>, next: map<nat, nat>) {
    && c.block == p.lap
    && (Leaving(c) ==> p == LastSlot(c.block) && head == Pos(c.block, BLOCK_CAP))
    && match c
       case WaitNext(block) => headBlock == Some(block)
       case LoadNextNext(block, nb) => headBlock == Some(block) && nb == block + 1 && block in next
       case StoreHeadBlock(block, nb, more) =>
         headBlock == Some(block) && nb == block + 1 && block in next && (more ==> nb in next)
       case StoreHeadIndex(block, nb, more) =>
         headBlock == Some(nb) && nb == block + 1 && block in next && (more ==> nb in next)
       case _ => true
  }

  ghost predicate ReadersInv(readers: map<Pos, Reader>, head: Pos, headBlock: Option<nat>, next: map<nat, nat>) {
    forall p :: p in readers ==> ReaderOk(p, readers[p], head, headBlock, next)
  }

  /** Which cells the readers have read. */
  ghost predicate ReaderTaken(p: Pos, c: Reader, taken: set<Pos>, readBit: set<Pos>, writeBit: set<Pos>,
      value: map<Pos, Value>) {
    match c
    case ReadValue(_) => p !in taken && p in writeBit
    case SetRead(_, v) => p in taken && p !in readBit && p.off + 1 < BLOCK_CAP && p in value && value[p] == v
    case _ => p !in taken
  }

  ghost predicate ReadersTaken(readers: map<Pos, Reader>, taken: set<Pos>, readBit: set<Pos>, writeBit: set<Pos>,
      value: map<Pos, Value>) {
    forall p :: p in readers ==> ReaderTaken(p, readers[p], taken, readBit, writeBit, value)
  }

  ghost predicate Inv(s: State) {
    && TailInv(s.ends.tailIndex, s.ends.tailBlock, s.ends.published, s.log.pushed, s.calls.writers)
    && LinkInv(s.ends.tailIndex, s.ends.next, s.calls.writers)
    && HeadInv(s.ends.headIndex, s.ends.headBlock, s.ends.tailIndex, s.ends.published, s.calls.readers)
    && WriteInv(s.ends.tailIndex, s.calls.writers, s.cells.writeBit, s.cells.value, s.log.pushed)
    && ReadInv(s.ends.headIndex.pos, s.calls.readers, s.calls.destroyers, s.log.delivered)
    && TakenInv(s.ends.headIndex.pos, s.log.taken, s.cells.writeBit, s.cells.readBit, s.log.delivered, s.cells.value)
    && DestroyersInv(s.calls.destroyers, s.cells.readBit, s.cells.destroyBit, s.log.taken, s.cells.value)
    && ParkedInv(s.log.parked, s.cells.readBit, s.cells.destroyBit)
    && FreedInv(s.cells.freed, s.cells.readBit)
    && PhaseInv(s.calls.destroyers, s.log.parked, s.cells.freed, s.log.taken, s.cells.destroyBit)
    && PushersInv(s.calls.pushers, s.ends.tailIndex, s.ends.published, s.ends.headBlock)
    && FirstInv(s.calls.pushers, s.ends.published, s.ends.headBlock, s.log.installer)
    && WritersInv(s.calls.writers, s.cells.value, s.log.pushed, s.ends.tailIndex, s.ends.tailBlock, s.ends.next)
    && PoppersInv(s.calls.poppers, s.ends.headIndex, s.ends.headBlock, s.ends.tailIndex)
    && ReadersInv(s.calls.readers, s.ends.headIndex.pos, s.ends.headBlock, s.ends.next)
    && ReadersTaken(s.calls.readers, s.log.taken, s.cells.readBit, s.cells.writeBit, s.cells.value)
  }

  // ---------------------------------------------------------------- one field at a time

  /** What other calls know survives any advance of the tail index. */
  lemma TailAdvances(s: State, tail': Pos)
    requires Before(s.ends.tailIndex, tail')
    requires PushersInv(s.calls.pushers, s.ends.tailIndex, s.ends.published, s.ends.headBlock)
    requires PoppersInv(s.calls.poppers, s.ends.headIndex, s.ends.headBlock, s.ends.tailIndex)
    requires HeadInv(s.ends.headIndex, s.ends.headBlock, s.ends.tailIndex, s.ends.published, s.calls.readers)
    ensures PushersInv(s.calls.pushers, tail', s.ends.published, s.ends.headBlock)
    ensures PoppersInv(s.calls.poppers, s.ends.headIndex, s.ends.headBlock, tail')
    ensures HeadInv(s.ends.headIndex, s.ends.headBlock, tail', s.ends.published, s.calls.readers)
  {
  }

  lemma ClaimTailWrites(tail: Pos, w: Writer, v: Value, writers: map<Pos, Writer>, writeBit: set<Pos>,
      value: map<Pos, Value>, pushed: seq<Value>)
    requires WriteInv(tail, writers, writeBit, value, pushed)
    requires IsSlot(tail) && |pushed| == Ticket(tail)
    ensures WriteInv(Pos(tail.lap, tail.off + 1), writers[tail := w], writeBit, value, pushed + [v])
  {
  }

  lemma ClaimTailWriters(tail: Pos, w: Writer, v: Value, writers: map<Pos, Writer>, writeBit: set<Pos>,
      value: map<Pos, Value>,
                         pushed: seq<Value>, tailBlock: Option<nat>, next: map<nat, nat>)
    requires WritersInv(writers, value, pushed, tail, tailBlock, next)
    requires WriteInv(tail, writers, writeBit, value, pushed)
    requires IsSlot(tail) && |pushed| == Ticket(tail) && tailBlock == Some(tail.lap)
    requires w == if tail.off + 1 == BLOCK_CAP then StoreTailBlock(v, true, tail.lap) else WriteValue(v, tail.lap)
    ensures WritersInv(writers[tail := w], value, pushed + [v], Pos(tail.lap, tail.off + 1), tailBlock, next)
  {
    assert tail !in value;
  }

  lemma ClaimHeadReads(head: Pos, r: Reader, readers: map<Pos, Reader>, destroyers: map<nat, Destroyer>,
      delivered: map<Pos, Value>)
    requires ReadInv(head, readers, destroyers, delivered)
    requires IsSlot(head) && !InDestroy(destroyers, head)
    ensures ReadInv(Pos(head.lap, head.off + 1), readers[head := r], destroyers, delivered)
  {
  }

  lemma ClaimHeadPoppers(poppers: map<Tid, Popper>, t: Tid, head: Index, newHead: Index, headBlock: Option<nat>,
      tail: Pos)
    requires PoppersInv(poppers, head, headBlock, tail)
    requires newHead.pos == Pos(head.pos.lap, head.pos.off + 1)
    ensures PoppersInv(poppers - {t}, newHead, headBlock, tail)
  {
  }

  lemma ReadCell(p: Pos, taken: set<Pos>, head: Pos, writeBit: set<Pos>, readBit: set<Pos>,
      delivered: map<Pos, Value>, value: map<Pos, Value>)
    requires TakenInv(head, taken, writeBit, readBit, delivered, value)
    requires IsSlot(p) && Before(p, head) && p in writeBit
    ensures TakenInv(head, taken + {p}, writeBit, readBit, delivered, value)
  {
  }

  /** The reader of the last slot leaves the readers and becomes the destroyer of its block. */
  lemma RetireReads(p: Pos, d: Destroyer, head: Pos, readers: map<Pos, Reader>, destroyers: map<nat, Destroyer>,
      delivered: map<Pos, Value>)
    requires ReadInv(head, readers, destroyers, delivered)
    requires p in readers && p.lap !in destroyers && d.slot == p
    ensures ReadInv(head, readers - {p}, destroyers[p.lap := d], delivered)
  {
    var readers', destroyers' := readers - {p}, destroyers[p.lap := d];
    forall q | IsSlot(q) && Before(q, head) ensures q in delivered || q in readers' || InDestroy(destroyers', q) {
      assert q in delivered || q in readers || InDestroy(destroyers, q);
    }
    forall q ensures InDestroy(destroyers', q) <==> InDestroy(destroyers, q) || q == p {}
  }

  lemma RetirePhase(k: nat, d: Destroyer, destroyers: map<nat, Destroyer>, parked: map<nat, nat>, freed: set<nat>,
      taken: set<Pos>, destroyBit: set<Pos>)
    requires PhaseInv(destroyers, parked, freed, taken, destroyBit)
    requires LastSlot(k) !in taken
    ensures !Started(destroyers, parked, freed, k)
    ensures PhaseInv(destroyers[k := d], parked, freed, taken + {LastSlot(k)}, destroyBit)
  {
    assert !Started(destroyers, parked, freed, k);
    forall j: nat ensures Started(destroyers[k := d], parked, freed, j) <==> LastSlot(j) in taken + {LastSlot(k)} {
      assert Started(destroyers, parked, freed, j) <==> LastSlot(j) in taken;
    }
    forall q | q in destroyBit ensures Started(destroyers[k := d], parked, freed, q.lap) {
      assert Started(destroyers, parked, freed, q.lap);
    }
  }

  /** Reading a cell that is not a last slot starts no destruction. */
  lemma ReadCellPhase(p: Pos, destroyers: map<nat, Destroyer>, parked: map<nat, nat>, freed: set<nat>,
      taken: set<Pos>, destroyBit: set<Pos>)
    requires PhaseInv(destroyers, parked, freed, taken, destroyBit)
    requires p.off + 1 < BLOCK_CAP
    ensures PhaseInv(destroyers, parked, freed, taken + {p}, destroyBit)
  {
    forall j: nat ensures Started(destroyers, parked, freed, j) <==> LastSlot(j) in taken + {p} {
      assert Started(destroyers, parked, freed, j) <==> LastSlot(j) in taken;
    }
  }

  /** A reader that finds DESTROY set on its slot inherits a parked destruction. */
  lemma MarkedIsParked(s: State, p: Pos)
    requires PhaseInv(s.calls.destroyers, s.log.parked, s.cells.freed, s.log.taken, s.cells.destroyBit)
    requires DestroyersInv(s.calls.destroyers, s.cells.readBit, s.cells.destroyBit, s.log.taken, s.cells.value)
    requires ParkedInv(s.log.parked, s.cells.readBit, s.cells.destroyBit)
    requires FreedInv(s.cells.freed, s.cells.readBit)
    requires p in s.cells.destroyBit && p !in s.cells.readBit && p.off + 1 < BLOCK_CAP
    ensures p.lap in s.log.parked && s.log.parked[p.lap] == p.off && p.lap !in s.calls.destroyers
    ensures p.lap !in s.cells.freed
  {
    assert Started(s.calls.destroyers, s.log.parked, s.cells.freed, p.lap);
    assert p == Pos(p.lap, p.off);
  }

  /** A reader that finds no DESTROY bit disturbs no destruction. */
  lemma SetReadParked(p: Pos, parked: map<nat, nat>, readBit: set<Pos>, destroyBit: set<Pos>)
    requires ParkedInv(parked, readBit, destroyBit)
    requires p !in destroyBit
    ensures ParkedInv(parked, readBit + {p}, destroyBit)
  {
  }

  lemma ResumeParked(p: Pos, parked: map<nat, nat>, readBit: set<Pos>, destroyBit: set<Pos>)
    requires ParkedInv(parked, readBit, destroyBit)
    ensures ParkedInv(parked - {p.lap}, readBit + {p}, destroyBit)
  {
  }

  lemma SetReadDestroyers(p: Pos, destroyers: map<nat, Destroyer>, readBit: set<Pos>, destroyBit: set<Pos>,
      taken: set<Pos>, value: map<Pos, Value>)
    requires DestroyersInv(destroyers, readBit, destroyBit, taken, value)
    ensures DestroyersInv(destroyers, readBit + {p}, destroyBit, taken, value)
  {
  }

  lemma ResumeDestroyer(p: Pos, v: Value, readBit: set<Pos>, destroyBit: set<Pos>, taken: set<Pos>,
      value: map<Pos, Value>)
    requires ParkedOk(p.lap, p.off, readBit, destroyBit)
    requires p in taken && p in value && value[p] == v
    ensures DestroyerOk(p.lap, Destroyer(p, v, p.off + 1, false), readBit + {p}, destroyBit, taken, value)
  {
    assert p == Pos(p.lap, p.off);
  }

  lemma SetReadTaken(p: Pos, deliver: bool, head: Pos, taken: set<Pos>, writeBit: set<Pos>, readBit: set<Pos>,
      delivered: map<Pos, Value>, value: map<Pos, Value>)
    requires TakenInv(head, taken, writeBit, readBit, delivered, value)
    requires p in taken && p.off + 1 < BLOCK_CAP && p in value
    ensures TakenInv(head, taken, writeBit, readBit + {p}, if deliver then delivered[p := value[p]] else delivered,
                     value)
  {
  }

  /** The call that popped `p` returns. */
  lemma DeliverReads(p: Pos, v: Value, head: Pos, readers: map<Pos, Reader>, destroyers: map<nat, Destroyer>,
      delivered: map<Pos, Value>)
    requires ReadInv(head, readers, destroyers, delivered)
    requires p in readers
    ensures ReadInv(head, readers - {p}, destroyers, delivered[p := v])
  {
  }

  lemma DeliverDestroyed(k: nat, v: Value, head: Pos, readers: map<Pos, Reader>, destroyers: map<nat, Destroyer>,
      delivered: map<Pos, Value>)
    requires ReadInv(head, readers, destroyers, delivered)
    requires k in destroyers && destroyers[k].slot.lap == k
    requires IsSlot(destroyers[k].slot) && Before(destroyers[k].slot, head)
    ensures ReadInv(head, readers, destroyers - {k}, delivered[destroyers[k].slot := v])
  {
    var p, destroyers' := destroyers[k].slot, destroyers - {k};
    forall q ensures InDestroy(destroyers', q) <==> InDestroy(destroyers, q) && q != p {}
    forall q | IsSlot(q) && Before(q, head)
      ensures q in delivered[p := v] || q in readers || InDestroy(destroyers', q)
    {
      assert q in delivered || q in readers || InDestroy(destroyers, q);
    }
  }

  /** The destroyer moves on to another slot but keeps the slot it popped. */
  lemma MoveReads(k: nat, d: Destroyer, head: Pos, readers: map<Pos, Reader>, destroyers: map<nat, Destroyer>,
      delivered: map<Pos, Value>)
    requires ReadInv(head, readers, destroyers, delivered)
    requires k in destroyers && destroyers[k].slot == d.slot
    ensures ReadInv(head, readers, destroyers[k := d], delivered)
  {
    forall q ensures InDestroy(destroyers[k := d], q) <==> InDestroy(destroyers, q) {}
    forall q | IsSlot(q) && Before(q, head) ensures q in delivered || q in readers || InDestroy(destroyers[k := d], q) {
      assert q in delivered || q in readers || InDestroy(destroyers, q);
    }
  }

  lemma MarkDestroyers(k: nat, i: nat, destroyers: map<nat, Destroyer>, readBit: set<Pos>, destroyBit: set<Pos>,
      taken: set<Pos>, value: map<Pos, Value>)
    requires DestroyersInv(destroyers, readBit, destroyBit, taken, value)
    ensures DestroyersInv(destroyers - {k}, readBit, destroyBit + {Pos(k, i)}, taken, value)
  {
  }

  lemma MarkParked(k: nat, i: nat, parked: map<nat, nat>, readBit: set<Pos>, destroyBit: set<Pos>)
    requires ParkedInv(parked, readBit, destroyBit)
    requires k !in parked
    ensures ParkedInv(parked, readBit, destroyBit + {Pos(k, i)})
  {
  }

  /** Destruction of `k` changes its phase, and only that. */
  lemma PhaseMoves(k: nat, destroyers: map<nat, Destroyer>, parked: map<nat, nat>, freed: set<nat>,
                   destroyers': map<nat, Destroyer>, parked': map<nat, nat>, freed': set<nat>,
                   taken: set<Pos>, destroyBit: set<Pos>, destroyBit': set<Pos>)
    requires PhaseInv(destroyers, parked, freed, taken, destroyBit)
    requires Started(destroyers, parked, freed, k) && Started(destroyers', parked', freed', k)
    requires destroyers' - {k} == destroyers - {k} && parked' - {k} == parked - {k} && freed' - {k} == freed - {k}
    requires !(k in destroyers' && k in parked') && !(k in destroyers' && k in freed') && !(k in parked' && k in freed')
    requires forall p :: p in destroyBit' ==> p in destroyBit || p.lap == k
    ensures PhaseInv(destroyers', parked', freed', taken, destroyBit')
  {
    forall j ensures j in destroyers' <==> if j == k then k in destroyers' else j in destroyers {
      assert j != k ==> (j in destroyers' - {k} <==> j in destroyers - {k});
    }
    forall j ensures j in parked' <==> if j == k then k in parked' else j in parked {
      assert j != k ==> (j in parked' - {k} <==> j in parked - {k});
    }
    forall j ensures j in freed' <==> if j == k then k in freed' else j in freed {
      assert j != k ==> (j in freed' - {k} <==> j in freed - {k});
    }
    forall j: nat ensures Started(destroyers', parked', freed', j) <==> LastSlot(j) in taken {
      assert Started(destroyers, parked, freed, j) <==> LastSlot(j) in taken;
    }
    forall q | q in destroyBit' ensures Started(destroyers', parked', freed', q.lap) {
      if q in destroyBit { assert Started(destroyers, parked, freed, q.lap); }
    }
  }

  /** A pushing call moves on without touching the queue. */
  lemma PusherMoves(pushers: map<Tid, Pusher>, t: Tid, c: Pusher, tail: Pos, published: nat, headBlock: Option<nat>,
      installer: Option<Tid>)
    requires PushersInv(pushers, tail, published, headBlock) && FirstInv(pushers, published, headBlock, installer)
    requires t in pushers ==> !pushers[t].StoreFirstHead?
    requires PusherOk(c, tail, published, headBlock) && !c.StoreFirstHead?
    ensures PushersInv(pushers[t := c], tail, published, headBlock)
    ensures FirstInv(pushers[t := c], published, headBlock, installer)
  {
  }

  lemma PusherLeaves(pushers: map<Tid, Pusher>, t: Tid, tail: Pos, published: nat, headBlock: Option<nat>,
      installer: Option<Tid>)
    requires PushersInv(pushers, tail, published, headBlock) && FirstInv(pushers, published, headBlock, installer)
    requires t in pushers && !pushers[t].StoreFirstHead?
    ensures PushersInv(pushers - {t}, tail, published, headBlock)
    ensures FirstInv(pushers - {t}, published, headBlock, installer)
  {
  }

  lemma ClaimTailIndex(tail: Pos, w: Writer, v: Value, tailBlock: Option<nat>, published: nat, pushed: seq<Value>,
      writers: map<Pos, Writer>, next: map<nat, nat>)
    requires TailInv(tail, tailBlock, published, pushed, writers) && LinkInv(tail, next, writers)
    requires IsSlot(tail) && published > 0 && (tail.off + 1 == BLOCK_CAP ==> w.StoreTailBlock?)
    ensures TailInv(Pos(tail.lap, tail.off + 1), tailBlock, published, pushed + [v], writers[tail := w])
    ensures LinkInv(Pos(tail.lap, tail.off + 1), next, writers[tail := w])
  {
  }

  /** The first block is published. */
  lemma FirstBlock(s: State, t: Tid, c: Pusher)
    requires TailInv(s.ends.tailIndex, s.ends.tailBlock, s.ends.published, s.log.pushed, s.calls.writers)
    requires s.ends.tailBlock.None?
    requires HeadInv(s.ends.headIndex, s.ends.headBlock, s.ends.tailIndex, s.ends.published, s.calls.readers)
    requires PushersInv(s.calls.pushers, s.ends.tailIndex, s.ends.published, s.ends.headBlock)
    requires WritersInv(s.calls.writers, s.cells.value, s.log.pushed, s.ends.tailIndex, s.ends.tailBlock, s.ends.next)
    requires c.StoreFirstHead? && c.tail == Pos(0, 0) && c.block == 0
    ensures TailInv(s.ends.tailIndex, Some(0), 1, s.log.pushed, s.calls.writers)
    ensures HeadInv(s.ends.headIndex, s.ends.headBlock, s.ends.tailIndex, 1, s.calls.readers)
    ensures PushersInv(s.calls.pushers[t := c], s.ends.tailIndex, 1, s.ends.headBlock)
    ensures FirstInv(s.calls.pushers[t := c], 1, s.ends.headBlock, Some(t))
    ensures WritersInv(s.calls.writers, s.cells.value, s.log.pushed, s.ends.tailIndex, Some(0), s.ends.next)
  {
    forall u | u in s.calls.pushers ensures !s.calls.pushers[u].StoreFirstHead? {
      assert PusherOk(s.calls.pushers[u], s.ends.tailIndex, s.ends.published, s.ends.headBlock);
    }
  }

  /** The first block reaches the head. */
  lemma FirstHead(s: State, t: Tid, c: Pusher)
    requires TailInv(s.ends.tailIndex, s.ends.tailBlock, s.ends.published, s.log.pushed, s.calls.writers)
    requires HeadInv(s.ends.headIndex, s.ends.headBlock, s.ends.tailIndex, s.ends.published, s.calls.readers)
    requires PushersInv(s.calls.pushers, s.ends.tailIndex, s.ends.published, s.ends.headBlock)
    requires FirstInv(s.calls.pushers, s.ends.published, s.ends.headBlock, s.log.installer)
    requires PoppersInv(s.calls.poppers, s.ends.headIndex, s.ends.headBlock, s.ends.tailIndex)
    requires ReadersInv(s.calls.readers, s.ends.headIndex.pos, s.ends.headBlock, s.ends.next)
    requires t in s.calls.pushers && s.calls.pushers[t].StoreFirstHead?
    requires c.TryTail? && c.tail == Pos(0, 0) && c.seen == Some(0)
    ensures HeadInv(s.ends.headIndex, Some(0), s.ends.tailIndex, s.ends.published, s.calls.readers)
    ensures PushersInv(s.calls.pushers[t := c], s.ends.tailIndex, s.ends.published, Some(0))
    ensures FirstInv(s.calls.pushers[t := c], s.ends.published, Some(0), s.log.installer)
    ensures PoppersInv(s.calls.poppers, s.ends.headIndex, Some(0), s.ends.tailIndex)
    ensures ReadersInv(s.calls.readers, s.ends.headIndex.pos, Some(0), s.ends.next)
  {
    assert PusherOk(s.calls.pushers[t], s.ends.tailIndex, s.ends.published, s.ends.headBlock);
    forall u | u in s.calls.pushers && u != t ensures !s.calls.pushers[u].StoreFirstHead? {}
    forall p | p in s.calls.readers ensures !Leaving(s.calls.readers[p]) {
      assert ReaderOk(p, s.calls.readers[p], s.ends.headIndex.pos, s.ends.headBlock, s.ends.next);
    }
  }

  /** A writer that is neither installing nor linking, or has just finished that, moves on. */
  lemma WriterMoves(p: Pos, c: Writer, s: State)
    requires p in s.calls.writers && !s.calls.writers[p].StoreTailBlock? && !s.calls.writers[p].StoreTailIndex?
    requires !s.calls.writers[p].StoreNext?
    requires TailInv(s.ends.tailIndex, s.ends.tailBlock, s.ends.published, s.log.pushed, s.calls.writers)
    requires LinkInv(s.ends.tailIndex, s.ends.next, s.calls.writers)
    ensures TailInv(s.ends.tailIndex, s.ends.tailBlock, s.ends.published, s.log.pushed, s.calls.writers[p := c])
    ensures LinkInv(s.ends.tailIndex, s.ends.next, s.calls.writers[p := c])
    ensures TailInv(s.ends.tailIndex, s.ends.tailBlock, s.ends.published, s.log.pushed, s.calls.writers - {p})
    ensures LinkInv(s.ends.tailIndex, s.ends.next, s.calls.writers - {p})
  {
  }

  lemma InstallBlock(p: Pos, c: Writer, s: State)
    requires p in s.calls.writers && s.calls.writers[p].StoreTailBlock?
    requires TailInv(s.ends.tailIndex, s.ends.tailBlock, s.ends.published, s.log.pushed, s.calls.writers)
    requires LinkInv(s.ends.tailIndex, s.ends.next, s.calls.writers)
    requires WriteInv(s.ends.tailIndex, s.calls.writers, s.cells.writeBit, s.cells.value, s.log.pushed)
    requires WritersInv(s.calls.writers, s.cells.value, s.log.pushed, s.ends.tailIndex, s.ends.tailBlock, s.ends.next)
    requires c == StoreTailIndex(s.calls.writers[p].v, s.calls.writers[p].block, s.ends.published)
    ensures TailInv(s.ends.tailIndex, Some(s.ends.published), s.ends.published + 1, s.log.pushed,
                    s.calls.writers[p := c])
    ensures LinkInv(s.ends.tailIndex, s.ends.next, s.calls.writers[p := c])
    ensures WriteInv(s.ends.tailIndex, s.calls.writers[p := c], s.cells.writeBit, s.cells.value, s.log.pushed)
    ensures WritersInv(s.calls.writers[p := c], s.cells.value, s.log.pushed, s.ends.tailIndex,
                       Some(s.ends.published), s.ends.next)
  {
    assert WriterOk(p, s.calls.writers[p], s.cells.value, s.log.pushed, s.ends.tailIndex, s.ends.tailBlock,
                    s.ends.next);
  }

  lemma PublishedGrows(s: State)
    requires s.ends.published > 0
    requires HeadInv(s.ends.headIndex, s.ends.headBlock, s.ends.tailIndex, s.ends.published, s.calls.readers)
    requires PushersInv(s.calls.pushers, s.ends.tailIndex, s.ends.published, s.ends.headBlock)
    requires FirstInv(s.calls.pushers, s.ends.published, s.ends.headBlock, s.log.installer)
    ensures HeadInv(s.ends.headIndex, s.ends.headBlock, s.ends.tailIndex, s.ends.published + 1, s.calls.readers)
    ensures PushersInv(s.calls.pushers, s.ends.tailIndex, s.ends.published + 1, s.ends.headBlock)
    ensures FirstInv(s.calls.pushers, s.ends.published + 1, s.ends.headBlock, s.log.installer)
  {
  }

  /** The tail index enters the block that was just installed. */
  lemma EnterBlock(p: Pos, c: Writer, s: State)
    requires p in s.calls.writers && s.calls.writers[p].StoreTailIndex?
    requires TailInv(s.ends.tailIndex, s.ends.tailBlock, s.ends.published, s.log.pushed, s.calls.writers)
    requires LinkInv(s.ends.tailIndex, s.ends.next, s.calls.writers)
    requires WriteInv(s.ends.tailIndex, s.calls.writers, s.cells.writeBit, s.cells.value, s.log.pushed)
    requires WritersInv(s.calls.writers, s.cells.value, s.log.pushed, s.ends.tailIndex, s.ends.tailBlock, s.ends.next)
    requires c == StoreNext(s.calls.writers[p].v, s.calls.writers[p].block, s.calls.writers[p].next)
    ensures s.ends.tailIndex == Pos(p.lap, BLOCK_CAP)
    ensures TailInv(Pos(p.lap + 1, 0), s.ends.tailBlock, s.ends.published, s.log.pushed, s.calls.writers[p := c])
    ensures LinkInv(Pos(p.lap + 1, 0), s.ends.next, s.calls.writers[p := c])
    ensures WriteInv(Pos(p.lap + 1, 0), s.calls.writers[p := c], s.cells.writeBit, s.cells.value, s.log.pushed)
    ensures WritersInv(s.calls.writers[p := c], s.cells.value, s.log.pushed, Pos(p.lap + 1, 0), s.ends.tailBlock,
                       s.ends.next)
  {
    assert WriterOk(p, s.calls.writers[p], s.cells.value, s.log.pushed, s.ends.tailIndex, s.ends.tailBlock,
                    s.ends.next);
    var tail' := Pos(p.lap + 1, 0);
    var writers := s.calls.writers[p := c];
    forall k: nat | k < tail'.lap
      ensures k in s.ends.next || (LastSlot(k) in writers && writers[LastSlot(k)].StoreNext?)
    {
    }
  }

  lemma LinkBlock(p: Pos, c: Writer, s: State)
    requires p in s.calls.writers && s.calls.writers[p].StoreNext?
    requires TailInv(s.ends.tailIndex, s.ends.tailBlock, s.ends.published, s.log.pushed, s.calls.writers)
    requires LinkInv(s.ends.tailIndex, s.ends.next, s.calls.writers)
    requires WriteInv(s.ends.tailIndex, s.calls.writers, s.cells.writeBit, s.cells.value, s.log.pushed)
    requires WritersInv(s.calls.writers, s.cells.value, s.log.pushed, s.ends.tailIndex, s.ends.tailBlock, s.ends.next)
    requires c == WriteValue(s.calls.writers[p].v, s.calls.writers[p].block)
    ensures TailInv(s.ends.tailIndex, s.ends.tailBlock, s.ends.published, s.log.pushed, s.calls.writers[p := c])
    ensures LinkInv(s.ends.tailIndex, s.ends.next[p.lap := p.lap + 1], s.calls.writers[p := c])
    ensures WriteInv(s.ends.tailIndex, s.calls.writers[p := c], s.cells.writeBit, s.cells.value, s.log.pushed)
    ensures WritersInv(s.calls.writers[p := c], s.cells.value, s.log.pushed, s.ends.tailIndex, s.ends.tailBlock,
                       s.ends.next[p.lap := p.lap + 1])
    ensures s.calls.writers[p].block == p.lap && s.calls.writers[p].next == p.lap + 1
  {
    assert WriterOk(p, s.calls.writers[p], s.cells.value, s.log.pushed, s.ends.tailIndex, s.ends.tailBlock,
                    s.ends.next);
  }

  lemma NextGrows(k: nat, nb: nat, readers: map<Pos, Reader>, head: Pos, headBlock: Option<nat>, next: map<nat, nat>)
    requires ReadersInv(readers, head, headBlock, next)
    ensures ReadersInv(readers, head, headBlock, next[k := nb])
  {
  }

  lemma FillCell(p: Pos, s: State)
    requires p in s.calls.writers && s.calls.writers[p].WriteValue?
    requires WriteInv(s.ends.tailIndex, s.calls.writers, s.cells.writeBit, s.cells.value, s.log.pushed)
    requires WritersInv(s.calls.writers, s.cells.value, s.log.pushed, s.ends.tailIndex, s.ends.tailBlock, s.ends.next)
    ensures p !in s.cells.value && s.calls.writers[p].block == p.lap
    ensures var writers', value' := s.calls.writers[p := SetWrite(p.lap)], s.cells.value[p := s.calls.writers[p].v];
            && WriteInv(s.ends.tailIndex, writers', s.cells.writeBit, value', s.log.pushed)
            && WritersInv(writers', value', s.log.pushed, s.ends.tailIndex, s.ends.tailBlock, s.ends.next)
  {
    assert WriterOk(p, s.calls.writers[p], s.cells.value, s.log.pushed, s.ends.tailIndex, s.ends.tailBlock,
                    s.ends.next);
  }

  lemma ValueGrows(p: Pos, v: Value, s: State)
    requires p !in s.cells.value
    requires TakenInv(s.ends.headIndex.pos, s.log.taken, s.cells.writeBit, s.cells.readBit, s.log.delivered,
                      s.cells.value)
    requires DestroyersInv(s.calls.destroyers, s.cells.readBit, s.cells.destroyBit, s.log.taken, s.cells.value)
    requires ReadersTaken(s.calls.readers, s.log.taken, s.cells.readBit, s.cells.writeBit, s.cells.value)
    ensures TakenInv(s.ends.headIndex.pos, s.log.taken, s.cells.writeBit, s.cells.readBit, s.log.delivered,
                     s.cells.value[p := v])
    ensures DestroyersInv(s.calls.destroyers, s.cells.readBit, s.cells.destroyBit, s.log.taken, s.cells.value[p := v])
    ensures ReadersTaken(s.calls.readers, s.log.taken, s.cells.readBit, s.cells.writeBit, s.cells.value[p := v])
  {
  }

  lemma FinishWrite(p: Pos, s: State)
    requires p in s.calls.writers && s.calls.writers[p].SetWrite?
    requires WriteInv(s.ends.tailIndex, s.calls.writers, s.cells.writeBit, s.cells.value, s.log.pushed)
    requires WritersInv(s.calls.writers, s.cells.value, s.log.pushed, s.ends.tailIndex, s.ends.tailBlock, s.ends.next)
    requires TakenInv(s.ends.headIndex.pos, s.log.taken, s.cells.writeBit, s.cells.readBit, s.log.delivered,
                      s.cells.value)
    requires ReadersTaken(s.calls.readers, s.log.taken, s.cells.readBit, s.cells.writeBit, s.cells.value)
    ensures s.calls.writers[p].block == p.lap
    ensures WriteInv(s.ends.tailIndex, s.calls.writers - {p}, s.cells.writeBit + {p}, s.cells.value, s.log.pushed)
    ensures WritersInv(s.calls.writers - {p}, s.cells.value, s.log.pushed, s.ends.tailIndex, s.ends.tailBlock,
                       s.ends.next)
    ensures TakenInv(s.ends.headIndex.pos, s.log.taken, s.cells.writeBit + {p}, s.cells.readBit, s.log.delivered,
                     s.cells.value)
    ensures ReadersTaken(s.calls.readers, s.log.taken, s.cells.readBit, s.cells.writeBit + {p}, s.cells.value)
  {
    assert WriterOk(p, s.calls.writers[p], s.cells.value, s.log.pushed, s.ends.tailIndex, s.ends.tailBlock,
                    s.ends.next);
  }

  lemma PopperMoves(poppers: map<Tid, Popper>, t: Tid, c: Popper, head: Index, headBlock: Option<nat>, tail: Pos)
    requires PoppersInv(poppers, head, headBlock, tail)
    ensures PopperOk(c, head, headBlock, tail) ==> PoppersInv(poppers[t := c], head, headBlock, tail)
    ensures PoppersInv(poppers - {t}, head, headBlock, tail)
  {
  }

  /** What `pop` concludes from its tail check, whether or not HAS_NEXT let it skip the check. */
  lemma CheckTailOk(h: Index, block: nat, head: Index, headBlock: Option<nat>, tail: Pos)
    requires PopperOk(CheckTail(h, Some(block)), head, headBlock, tail)
    requires IsSlot(h.pos) && (h.hasNext || h.pos != tail) && AtMost(head.pos, tail) && tail.off <= BLOCK_CAP
    ensures var more := h.hasNext || h.pos.lap != tail.lap;
            PopperOk(TryHead(h, Index(Pos(h.pos.lap, h.pos.off + 1), more), block), head, headBlock, tail)
  {
  }

  lemma ClaimHeadIndex(s: State, t: Tid)
    requires t in s.calls.poppers && s.calls.poppers[t].TryHead? && s.calls.poppers[t].head == s.ends.headIndex
    requires HeadInv(s.ends.headIndex, s.ends.headBlock, s.ends.tailIndex, s.ends.published, s.calls.readers)
    requires PoppersInv(s.calls.poppers, s.ends.headIndex, s.ends.headBlock, s.ends.tailIndex)
    ensures var c := s.calls.poppers[t]; var p := s.ends.headIndex.pos;
            var r := if p.off + 1 == BLOCK_CAP then WaitNext(c.block) else WaitWrite(c.block);
            && IsSlot(p) && c.newHead.pos == Pos(p.lap, p.off + 1) && c.block == p.lap
               && s.ends.headBlock == Some(p.lap)
            && HeadInv(c.newHead, s.ends.headBlock, s.ends.tailIndex, s.ends.published, s.calls.readers[p := r])
  {
    assert PopperOk(s.calls.poppers[t], s.ends.headIndex, s.ends.headBlock, s.ends.tailIndex);
  }

  lemma ClaimHeadReaders(p: Pos, r: Reader, s: State)
    requires p == s.ends.headIndex.pos && IsSlot(p) && s.ends.headBlock == Some(p.lap)
    requires ReadersInv(s.calls.readers, p, s.ends.headBlock, s.ends.next)
    requires TakenInv(p, s.log.taken, s.cells.writeBit, s.cells.readBit, s.log.delivered, s.cells.value)
    requires ReadersTaken(s.calls.readers, s.log.taken, s.cells.readBit, s.cells.writeBit, s.cells.value)
    requires r == if p.off + 1 == BLOCK_CAP then WaitNext(p.lap) else WaitWrite(p.lap)
    ensures ReadersInv(s.calls.readers[p := r], Pos(p.lap, p.off + 1), s.ends.headBlock, s.ends.next)
    ensures TakenInv(Pos(p.lap, p.off + 1), s.log.taken, s.cells.writeBit, s.cells.readBit, s.log.delivered,
                     s.cells.value)
    ensures ReadersTaken(s.calls.readers[p := r], s.log.taken, s.cells.readBit, s.cells.writeBit, s.cells.value)
    ensures p !in s.log.taken
  {
    forall q | q in s.calls.readers ensures !Leaving(s.calls.readers[q]) {
      assert ReaderOk(q, s.calls.readers[q], p, s.ends.headBlock, s.ends.next);
    }
  }

  /** A slot that the head has not passed is not being destroyed. */
  lemma UnpoppedNotInDestroy(s: State, p: Pos)
    requires DestroyersInv(s.calls.destroyers, s.cells.readBit, s.cells.destroyBit, s.log.taken, s.cells.value)
    requires p !in s.log.taken
    ensures !InDestroy(s.calls.destroyers, p)
  {
  }

  lemma ReaderMoves(p: Pos, c: Reader, s: State)
    requires p in s.calls.readers
    requires HeadInv(s.ends.headIndex, s.ends.headBlock, s.ends.tailIndex, s.ends.published, s.calls.readers)
    requires (Leaving(s.calls.readers[p]) ==> Leaving(c))
    requires ReadInv(s.ends.headIndex.pos, s.calls.readers, s.calls.destroyers, s.log.delivered)
    requires ReadersInv(s.calls.readers, s.ends.headIndex.pos, s.ends.headBlock, s.ends.next)
    requires ReaderOk(p, c, s.ends.headIndex.pos, s.ends.headBlock, s.ends.next)
    requires ReadersTaken(s.calls.readers, s.log.taken, s.cells.readBit, s.cells.writeBit, s.cells.value)
    requires ReaderTaken(p, c, s.log.taken, s.cells.readBit, s.cells.writeBit, s.cells.value)
    ensures HeadInv(s.ends.headIndex, s.ends.headBlock, s.ends.tailIndex, s.ends.published, s.calls.readers[p := c])
    ensures ReadInv(s.ends.headIndex.pos, s.calls.readers[p := c], s.calls.destroyers, s.log.delivered)
    ensures ReadersInv(s.calls.readers[p := c], s.ends.headIndex.pos, s.ends.headBlock, s.ends.next)
    ensures ReadersTaken(s.calls.readers[p := c], s.log.taken, s.cells.readBit, s.cells.writeBit, s.cells.value)
  {
  }

  /** The head block moves on; nobody else looks at it while the index stands at the end of a block. */
  lemma HeadBlockMoves(p: Pos, nb: nat, s: State)
    requires p in s.calls.readers && s.calls.readers[p].StoreHeadBlock? && s.calls.readers[p].next == nb
    requires HeadInv(s.ends.headIndex, s.ends.headBlock, s.ends.tailIndex, s.ends.published, s.calls.readers)
    requires ReadInv(s.ends.headIndex.pos, s.calls.readers, s.calls.destroyers, s.log.delivered)
    requires ReadersInv(s.calls.readers, s.ends.headIndex.pos, s.ends.headBlock, s.ends.next)
    requires ReadersTaken(s.calls.readers, s.log.taken, s.cells.readBit, s.cells.writeBit, s.cells.value)
    ensures var readers' := s.calls.readers[p := StoreHeadIndex(s.calls.readers[p].block, nb, s.calls.readers[p].more)];
            && HeadInv(s.ends.headIndex, Some(nb), s.ends.tailIndex, s.ends.published, readers')
            && ReadInv(s.ends.headIndex.pos, readers', s.calls.destroyers, s.log.delivered)
            && ReadersInv(readers', s.ends.headIndex.pos, Some(nb), s.ends.next)
            && ReadersTaken(readers', s.log.taken, s.cells.readBit, s.cells.writeBit, s.cells.value)
    ensures s.ends.headIndex.pos.off == BLOCK_CAP && s.ends.headBlock.Some?
  {
    assert ReaderOk(p, s.calls.readers[p], s.ends.headIndex.pos, s.ends.headBlock, s.ends.next);
    forall q | q in s.calls.readers && q != p ensures !Leaving(s.calls.readers[q]) {
      assert ReaderOk(q, s.calls.readers[q], s.ends.headIndex.pos, s.ends.headBlock, s.ends.next);
    }
  }

  lemma HeadBlockSeen(nb: nat, s: State)
    requires s.ends.headIndex.pos.off == BLOCK_CAP && s.ends.headBlock.Some?
    requires PushersInv(s.calls.pushers, s.ends.tailIndex, s.ends.published, s.ends.headBlock)
    requires FirstInv(s.calls.pushers, s.ends.published, s.ends.headBlock, s.log.installer)
    requires PoppersInv(s.calls.poppers, s.ends.headIndex, s.ends.headBlock, s.ends.tailIndex)
    ensures PushersInv(s.calls.pushers, s.ends.tailIndex, s.ends.published, Some(nb))
    ensures FirstInv(s.calls.pushers, s.ends.published, Some(nb), s.log.installer)
    ensures PoppersInv(s.calls.poppers, s.ends.headIndex, Some(nb), s.ends.tailIndex)
  {
  }

  /** The head index enters the next block. */
  lemma HeadEnters(p: Pos, s: State)
    requires p in s.calls.readers && s.calls.readers[p].StoreHeadIndex?
    requires LinkInv(s.ends.tailIndex, s.ends.next, s.calls.writers)
    requires HeadInv(s.ends.headIndex, s.ends.headBlock, s.ends.tailIndex, s.ends.published, s.calls.readers)
    requires ReadInv(s.ends.headIndex.pos, s.calls.readers, s.calls.destroyers, s.log.delivered)
    requires ReadersInv(s.calls.readers, s.ends.headIndex.pos, s.ends.headBlock, s.ends.next)
    requires ReadersTaken(s.calls.readers, s.log.taken, s.cells.readBit, s.cells.writeBit, s.cells.value)
    ensures s.ends.headIndex.pos == Pos(p.lap, BLOCK_CAP) && s.ends.headBlock == Some(p.lap + 1)
    ensures s.calls.readers[p].block == p.lap
    ensures var readers' := s.calls.readers[p := WaitWrite(p.lap)];
            var head' := Index(Pos(p.lap + 1, 0), s.calls.readers[p].more);
            && HeadInv(head', s.ends.headBlock, s.ends.tailIndex, s.ends.published, readers')
            && ReadInv(head'.pos, readers', s.calls.destroyers, s.log.delivered)
            && ReadersInv(readers', head'.pos, s.ends.headBlock, s.ends.next)
            && ReadersTaken(readers', s.log.taken, s.cells.readBit, s.cells.writeBit, s.cells.value)
  {
    assert ReaderOk(p, s.calls.readers[p], s.ends.headIndex.pos, s.ends.headBlock, s.ends.next);
    forall q | q in s.calls.readers && q != p ensures !Leaving(s.calls.readers[q]) {
      assert ReaderOk(q, s.calls.readers[q], s.ends.headIndex.pos, s.ends.headBlock, s.ends.next);
    }
  }

  lemma HeadEntersSeen(head': Index, s: State)
    requires s.ends.headIndex.pos.off == BLOCK_CAP && head'.pos == Pos(s.ends.headIndex.pos.lap + 1, 0)
    requires PoppersInv(s.calls.poppers, s.ends.headIndex, s.ends.headBlock, s.ends.tailIndex)
    requires TakenInv(s.ends.headIndex.pos, s.log.taken, s.cells.writeBit, s.cells.readBit, s.log.delivered,
                      s.cells.value)
    ensures PoppersInv(s.calls.poppers, head', s.ends.headBlock, s.ends.tailIndex)
    ensures TakenInv(head'.pos, s.log.taken, s.cells.writeBit, s.cells.readBit, s.log.delivered, s.cells.value)
  {
  }

  /** The cell of a reader is read; the reader stays to set READ, or leaves to destroy the block. */
  lemma TakeCell(p: Pos, s: State)
    requires p in s.calls.readers && s.calls.readers[p].ReadValue?
    requires HeadInv(s.ends.headIndex, s.ends.headBlock, s.ends.tailIndex, s.ends.published, s.calls.readers)
    requires ReadInv(s.ends.headIndex.pos, s.calls.readers, s.calls.destroyers, s.log.delivered)
    requires ReadersInv(s.calls.readers, s.ends.headIndex.pos, s.ends.headBlock, s.ends.next)
    requires DestroyersInv(s.calls.destroyers, s.cells.readBit, s.cells.destroyBit, s.log.taken, s.cells.value)
    requires ReadersTaken(s.calls.readers, s.log.taken, s.cells.readBit, s.cells.writeBit, s.cells.value)
    requires TakenInv(s.ends.headIndex.pos, s.log.taken, s.cells.writeBit, s.cells.readBit, s.log.delivered,
                      s.cells.value)
    requires p in s.cells.value
    ensures HeadInv(s.ends.headIndex, s.ends.headBlock, s.ends.tailIndex, s.ends.published, s.calls.readers - {p})
    ensures ReadersInv(s.calls.readers - {p}, s.ends.headIndex.pos, s.ends.headBlock, s.ends.next)
    ensures ReadersTaken(s.calls.readers - {p}, s.log.taken + {p}, s.cells.readBit, s.cells.writeBit, s.cells.value)
    ensures DestroyersInv(s.calls.destroyers, s.cells.readBit, s.cells.destroyBit, s.log.taken + {p}, s.cells.value)
    ensures p.off + 1 < BLOCK_CAP ==>
              var readers' := s.calls.readers[p := SetRead(p.lap, s.cells.value[p])];
              && HeadInv(s.ends.headIndex, s.ends.headBlock, s.ends.tailIndex, s.ends.published, readers')
              && ReadInv(s.ends.headIndex.pos, readers', s.calls.destroyers, s.log.delivered)
              && ReadersInv(readers', s.ends.headIndex.pos, s.ends.headBlock, s.ends.next)
              && ReadersTaken(readers', s.log.taken + {p}, s.cells.readBit, s.cells.writeBit, s.cells.value)
  {
    assert ReaderOk(p, s.calls.readers[p], s.ends.headIndex.pos, s.ends.headBlock, s.ends.next);
    assert ReaderTaken(p, s.calls.readers[p], s.log.taken, s.cells.readBit, s.cells.writeBit, s.cells.value);
  }

  lemma RetireDestroyers(p: Pos, d: Destroyer, s: State)
    requires DestroyersInv(s.calls.destroyers, s.cells.readBit, s.cells.destroyBit, s.log.taken + {p}, s.cells.value)
    requires PhaseInv(s.calls.destroyers, s.log.parked, s.cells.freed, s.log.taken, s.cells.destroyBit)
    requires p == LastSlot(p.lap) && p !in s.log.taken && p in s.cells.value
    requires d == Destroyer(p, s.cells.value[p], 0, false)
    ensures DestroyersInv(s.calls.destroyers[p.lap := d], s.cells.readBit, s.cells.destroyBit, s.log.taken + {p},
                          s.cells.value)
  {
    assert !Started(s.calls.destroyers, s.log.parked, s.cells.freed, p.lap);
  }

  lemma SetReadFreed(p: Pos, freed: set<nat>, readBit: set<Pos>)
    requires FreedInv(freed, readBit)
    ensures FreedInv(freed, readBit + {p})
  {
  }

  lemma ReaderLeaves(p: Pos, s: State)
    requires p in s.calls.readers && !Leaving(s.calls.readers[p])
    requires HeadInv(s.ends.headIndex, s.ends.headBlock, s.ends.tailIndex, s.ends.published, s.calls.readers)
    requires ReadersInv(s.calls.readers, s.ends.headIndex.pos, s.ends.headBlock, s.ends.next)
    requires ReadersTaken(s.calls.readers, s.log.taken, s.cells.readBit, s.cells.writeBit, s.cells.value)
    ensures HeadInv(s.ends.headIndex, s.ends.headBlock, s.ends.tailIndex, s.ends.published, s.calls.readers - {p})
    ensures ReadersInv(s.calls.readers - {p}, s.ends.headIndex.pos, s.ends.headBlock, s.ends.next)
    ensures ReadersTaken(s.calls.readers - {p}, s.log.taken, s.cells.readBit + {p}, s.cells.writeBit, s.cells.value)
  {
  }

  lemma ResumeDestroyers(p: Pos, d: Destroyer, s: State)
    requires DestroyersInv(s.calls.destroyers, s.cells.readBit + {p}, s.cells.destroyBit, s.log.taken, s.cells.value)
    requires ParkedInv(s.log.parked, s.cells.readBit, s.cells.destroyBit)
    requires p.lap in s.log.parked && s.log.parked[p.lap] == p.off
    requires p in s.log.taken && p in s.cells.value && d == Destroyer(p, s.cells.value[p], p.off + 1, false)
    ensures DestroyersInv(s.calls.destroyers[p.lap := d], s.cells.readBit + {p}, s.cells.destroyBit, s.log.taken,
                          s.cells.value)
  {
    assert ParkedOk(p.lap, p.off, s.cells.readBit, s.cells.destroyBit);
    ResumeDestroyer(p, s.cells.value[p], s.cells.readBit, s.cells.destroyBit, s.log.taken, s.cells.value);
  }

  lemma DestroyersMove(k: nat, i: nat, d: Destroyer, mark: bool, s: State)
    requires DestroyersInv(s.calls.destroyers, s.cells.readBit, s.cells.destroyBit, s.log.taken, s.cells.value)
    requires
      var marked := if mark then s.cells.destroyBit + {Pos(k, i)} else s.cells.destroyBit;
      DestroyerOk(k, d, s.cells.readBit, marked, s.log.taken, s.cells.value)
    ensures
      var marked := if mark then s.cells.destroyBit + {Pos(k, i)} else s.cells.destroyBit;
      DestroyersInv(s.calls.destroyers[k := d], s.cells.readBit, marked, s.log.taken, s.cells.value)
  {
  }

  lemma DestroyersLeave(k: nat, destroyers: map<nat, Destroyer>, readBit: set<Pos>, destroyBit: set<Pos>,
      taken: set<Pos>, value: map<Pos, Value>)
    requires DestroyersInv(destroyers, readBit, destroyBit, taken, value)
    ensures DestroyersInv(destroyers - {k}, readBit, destroyBit, taken, value)
  {
  }

  lemma FreedGrows(k: nat, freed: set<nat>, readBit: set<Pos>)
    requires FreedInv(freed, readBit) && ReadBelow(readBit, k, BLOCK_CAP - 1)
    ensures FreedInv(freed + {k}, readBit)
  {
  }

  lemma ParkedGrows(k: nat, i: nat, parked: map<nat, nat>, readBit: set<Pos>, destroyBit: set<Pos>)
    requires ParkedInv(parked, readBit, destroyBit) && ParkedOk(k, i, readBit, destroyBit)
    ensures ParkedInv(parked[k := i], readBit, destroyBit)
  {
  }

  lemma DeliverTaken(p: Pos, s: State)
    requires TakenInv(s.ends.headIndex.pos, s.log.taken, s.cells.writeBit, s.cells.readBit, s.log.delivered,
                      s.cells.value)
    requires p in s.log.taken && p in s.cells.value && (p.off + 1 < BLOCK_CAP ==> p in s.cells.readBit)
    ensures TakenInv(s.ends.headIndex.pos, s.log.taken, s.cells.writeBit, s.cells.readBit,
                     s.log.delivered[p := s.cells.value[p]], s.cells.value)
  {
  }

  lemma PhaseTransitions(k: nat, d: Destroyer, i: nat, s: State)
    requires PhaseInv(s.calls.destroyers, s.log.parked, s.cells.freed, s.log.taken, s.cells.destroyBit)
    ensures k in s.calls.destroyers ==>
              && PhaseInv(s.calls.destroyers[k := d], s.log.parked, s.cells.freed, s.log.taken, s.cells.destroyBit)
              && PhaseInv(s.calls.destroyers[k := d], s.log.parked, s.cells.freed, s.log.taken,
                 s.cells.destroyBit + {Pos(k, i)})
              && PhaseInv(s.calls.destroyers - {k}, s.log.parked, s.cells.freed + {k}, s.log.taken, s.cells.destroyBit)
              && PhaseInv(s.calls.destroyers - {k}, s.log.parked[k := i], s.cells.freed, s.log.taken,
                 s.cells.destroyBit + {Pos(k, i)})
    ensures k in s.log.parked ==>
        PhaseInv(s.calls.destroyers[k := d], s.log.parked - {k}, s.cells.freed, s.log.taken, s.cells.destroyBit)
  {
    if k in s.calls.destroyers {
      PhaseMoves(k, s.calls.destroyers, s.log.parked, s.cells.freed, s.calls.destroyers[k := d], s.log.parked,
                 s.cells.freed, s.log.taken, s.cells.destroyBit, s.cells.destroyBit);
      PhaseMoves(k, s.calls.destroyers, s.log.parked, s.cells.freed, s.calls.destroyers[k := d], s.log.parked,
                 s.cells.freed, s.log.taken, s.cells.destroyBit, s.cells.destroyBit + {Pos(k, i)});
      PhaseMoves(k, s.calls.destroyers, s.log.parked, s.cells.freed, s.calls.destroyers - {k}, s.log.parked,
                 s.cells.freed + {k}, s.log.taken, s.cells.destroyBit, s.cells.destroyBit);
      PhaseMoves(k, s.calls.destroyers, s.log.parked, s.cells.freed, s.calls.destroyers - {k}, s.log.parked[k := i],
                 s.cells.freed, s.log.taken, s.cells.destroyBit, s.cells.destroyBit + {Pos(k, i)});
    }
    if k in s.log.parked {
      PhaseMoves(k, s.calls.destroyers, s.log.parked, s.cells.freed, s.calls.destroyers[k := d], s.log.parked - {k},
                 s.cells.freed, s.log.taken, s.cells.destroyBit, s.cells.destroyBit);
    }
  }

  lemma MarkedOk(k: nat, d: Destroyer, s: State)
    requires DestroyerOk(k, d, s.cells.readBit, s.cells.destroyBit, s.log.taken, s.cells.value)
    requires d.marking && Pos(k, d.i) in s.cells.readBit
    ensures DestroyerOk(k, d.(i := d.i + 1, marking := false), s.cells.readBit, s.cells.destroyBit + {Pos(k, d.i)},
                        s.log.taken, s.cells.value)
  {
  }

  /** Destruction of block `k` marks slot `i`, finds it read, and goes on. */
  lemma MarkAndGoParts(k: nat, s: State)
    requires k in s.calls.destroyers && k !in s.log.parked
    requires ReadInv(s.ends.headIndex.pos, s.calls.readers, s.calls.destroyers, s.log.delivered)
    requires PhaseInv(s.calls.destroyers, s.log.parked, s.cells.freed, s.log.taken, s.cells.destroyBit)
    requires DestroyersInv(s.calls.destroyers, s.cells.readBit, s.cells.destroyBit, s.log.taken, s.cells.value)
    requires ParkedInv(s.log.parked, s.cells.readBit, s.cells.destroyBit)
    requires DestroyerOk(k, s.calls.destroyers[k], s.cells.readBit, s.cells.destroyBit, s.log.taken, s.cells.value)
    requires s.calls.destroyers[k].marking && Pos(k, s.calls.destroyers[k].i) in s.cells.readBit
    ensures var s' := MarkAndGo(s, k, s.calls.destroyers[k]);
            && ReadInv(s'.ends.headIndex.pos, s'.calls.readers, s'.calls.destroyers, s'.log.delivered)
            && PhaseInv(s'.calls.destroyers, s'.log.parked, s'.cells.freed, s'.log.taken, s'.cells.destroyBit)
            && DestroyersInv(s'.calls.destroyers, s'.cells.readBit, s'.cells.destroyBit, s'.log.taken, s'.cells.value)
            && ParkedInv(s'.log.parked, s'.cells.readBit, s'.cells.destroyBit)
  {
    var d := s.calls.destroyers[k];
    var d' := d.(i := d.i + 1, marking := false);
    hide ReadInv, PhaseInv, ParkedInv, DestroyersInv, DestroyerOk;
    MoveReads(k, d', s.ends.headIndex.pos, s.calls.readers, s.calls.destroyers, s.log.delivered);
    MarkParked(k, d.i, s.log.parked, s.cells.readBit, s.cells.destroyBit);
    MarkedOk(k, d, s);
    DestroyersMove(k, d.i, d', true, s);
    PhaseTransitions(k, d', d.i, s);
  }

  /** A reader sets READ on a slot that has DESTROY, and takes destruction over. */
  lemma InheritParts(p: Pos, v: Value, s: State)
    requires ReadInv(s.ends.headIndex.pos, s.calls.readers, s.calls.destroyers, s.log.delivered)
    requires PhaseInv(s.calls.destroyers, s.log.parked, s.cells.freed, s.log.taken, s.cells.destroyBit)
    requires DestroyersInv(s.calls.destroyers, s.cells.readBit, s.cells.destroyBit, s.log.taken, s.cells.value)
    requires ParkedInv(s.log.parked, s.cells.readBit, s.cells.destroyBit)
    requires FreedInv(s.cells.freed, s.cells.readBit)
    requires p in s.calls.readers && p in s.cells.destroyBit && p !in s.cells.readBit && p.off + 1 < BLOCK_CAP
    requires p in s.log.taken && p in s.cells.value && s.cells.value[p] == v
    ensures var s' := InheritDestroy(s, p, p.lap, v);
            && ReadInv(s'.ends.headIndex.pos, s'.calls.readers, s'.calls.destroyers, s'.log.delivered)
            && PhaseInv(s'.calls.destroyers, s'.log.parked, s'.cells.freed, s'.log.taken, s'.cells.destroyBit)
            && DestroyersInv(s'.calls.destroyers, s'.cells.readBit, s'.cells.destroyBit, s'.log.taken, s'.cells.value)
            && ParkedInv(s'.log.parked, s'.cells.readBit, s'.cells.destroyBit)
            && FreedInv(s'.cells.freed, s'.cells.readBit)
  {
    hide ReadInv, PhaseInv, ParkedInv, DestroyersInv, FreedInv;
    assert p == Pos(p.lap, p.off);
    var d := Destroyer(p, v, p.off + 1, false);
    MarkedIsParked(s, p);
    ResumeParked(p, s.log.parked, s.cells.readBit, s.cells.destroyBit);
    SetReadDestroyers(p, s.calls.destroyers, s.cells.readBit, s.cells.destroyBit, s.log.taken, s.cells.value);
    ResumeDestroyers(p, d, s);
    SetReadFreed(p, s.cells.freed, s.cells.readBit);
    PhaseTransitions(p.lap, d, p.off, s);
    RetireReads(p, d, s.ends.headIndex.pos, s.calls.readers, s.calls.destroyers, s.log.delivered);
  }
}
