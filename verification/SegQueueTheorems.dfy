/** What the invariant of the segmented queue means for its users, over every run. */
module SegQueueTheorems {
  import opened Common
  import opened SegQueueSteps
  import opened SegQueueInvariant
  import opened SegQueueProof

  /** Head CASes won so far. */
  function Popped(s: State): nat {
    Ticket(s.ends.headIndex.pos)
  }

  /** The abstract queue: values whose tail CAS succeeded and whose slot no pop has won. */
  function Queue(s: State): seq<Value> {
    if Popped(s) <= |s.log.pushed| then s.log.pushed[Popped(s)..] else []
  }

  lemma TicketsOrdered(p: Pos, q: Pos)
    requires p.off <= BLOCK_CAP && q.off <= BLOCK_CAP
    ensures Before(p, q) && IsSlot(p) ==> Ticket(p) < Ticket(q)
    ensures AtMost(p, q) ==> Ticket(p) <= Ticket(q)
    ensures IsSlot(p) && IsSlot(q) && Ticket(p) == Ticket(q) ==> p == q
  {
  }

  /** The slots at the two indices are untouched by the calls that use those indices. */
  lemma FrontierFacts(s: State)
    requires Inv(s)
    ensures s.ends.tailIndex.off <= BLOCK_CAP && s.ends.headIndex.pos.off <= BLOCK_CAP
    ensures AtMost(s.ends.headIndex.pos, s.ends.tailIndex)
    ensures |s.log.pushed| == Ticket(s.ends.tailIndex) && Popped(s) <= |s.log.pushed|
    ensures s.ends.tailIndex !in s.calls.writers && s.ends.tailIndex !in s.cells.writeBit
    ensures s.ends.tailIndex !in s.cells.value
    ensures var p := s.ends.headIndex.pos; p !in s.calls.readers && p !in s.log.delivered && p !in s.log.taken
    ensures var p := s.ends.headIndex.pos; IsSlot(p) && p != s.ends.tailIndex ==>
        p in s.calls.writers || p in s.cells.writeBit
  {
    TicketsOrdered(s.ends.headIndex.pos, s.ends.tailIndex);
  }

  lemma QueueGrows(s: State, s': State, v: Value)
    requires Popped(s) <= |s.log.pushed| && s'.log.pushed == s.log.pushed + [v] && Popped(s') == Popped(s)
    ensures Queue(s') == Queue(s) + [v]
  {
  }

  lemma QueueShrinks(s: State, s': State)
    requires Popped(s) < |s.log.pushed| && s'.log.pushed == s.log.pushed && Popped(s') == Popped(s) + 1
    ensures Queue(s) != [] && Queue(s') == Queue(s)[1..] && Queue(s)[0] == s.log.pushed[Popped(s)]
  {
  }

  // ---------------------------------------------------------------- FIFO

  /** The abstract queue is untouched by a step. */
  ghost predicate Stutter(s: State, s': State) {
    s'.log.pushed == s.log.pushed && Popped(s') == Popped(s)
  }

  /** A tail CAS appends the value its call was given, and the call gets a slot nobody had. */
  ghost predicate Enqueue(s: State, s': State, t: Tid) {
    && t in s.calls.pushers && t !in s'.calls.pushers
    && Queue(s') == Queue(s) + [s.calls.pushers[t].v]
    && s.ends.tailIndex in s'.calls.writers && s.ends.tailIndex !in s.calls.writers
       && s.ends.tailIndex !in s.cells.writeBit && s.ends.tailIndex !in s.cells.value
    && Ticket(s.ends.tailIndex) == |s.log.pushed|
  }

  /** A head CAS removes the front, and the call gets the slot that was claimed for that value. */
  ghost predicate Dequeue(s: State, s': State, t: Tid) {
    && t in s.calls.poppers && t !in s'.calls.poppers
    && Queue(s) != []
    && Queue(s') == Queue(s)[1..]
    && var p := s.ends.headIndex.pos;
       && p in s'.calls.readers && p !in s.calls.readers && p !in s.log.delivered && p !in s.log.taken
       && (p in s.calls.writers || p in s.cells.writeBit)
       && Ticket(p) == Popped(s) && s.log.pushed[Ticket(p)] == Queue(s)[0]
  }

  /** Every step is a step of a plain FIFO queue, or leaves that queue alone. */
  lemma StepRefinesFifo(s: State, a: Action)
    requires Inv(s) && Enabled(s, a)
    ensures
      || Stutter(s, Step(s, a))
      || (a.Push? && Enqueue(s, Step(s, a), a.t))
      || (a.Pop? && Dequeue(s, Step(s, a), a.t))
  {
    hide Inv, PusherNext, WriterNext, PopperNext, ReaderNext, Enqueue, Dequeue;
    match a
    case Push(t, win) => PusherRefines(s, t, win);
    case Write(p) =>
      WriterFacts(s, p);
      WriterStutters(s, p);
    case Pop(t, win) => PopperRefines(s, t, win);
    case Read(p) =>
      ReaderFacts(s, p);
      ReaderStutters(s, p);
    case _ =>
  }

  lemma PusherRefines(s: State, t: Tid, win: bool)
    requires Inv(s) && t in s.calls.pushers
    ensures Stutter(s, PusherNext(s, t, win)) || Enqueue(s, PusherNext(s, t, win), t)
  {
    hide Inv, Enqueue;
    var c := s.calls.pushers[t];
    if c.TryTail? && IsSlot(c.tail) && c.seen.Some? && win && s.ends.tailIndex == c.tail {
      var spare := c.spare || c.tail.off + 1 == BLOCK_CAP;
      ClaimTailRefines(s, t, c.v, spare, c.tail, c.seen.value);
    } else if c.TryTail? {
      PusherFacts(s, t);
      PushRetryStutters(s, t, c, win);
    }
  }

  lemma ClaimTailRefines(s: State, t: Tid, v: Value, spare: bool, tail: Pos, block: nat)
    requires Inv(s) && t in s.calls.pushers && s.calls.pushers[t].v == v && s.ends.tailIndex == tail
    requires IsSlot(tail)
    ensures Enqueue(s, ClaimTail(s, t, v, spare, tail, block), t)
  {
    hide Inv, Queue;
    FrontierFacts(s);
    QueueGrows(s, ClaimTail(s, t, v, spare, tail, block), v);
  }

  lemma PushRetryStutters(s: State, t: Tid, c: Pusher, win: bool)
    requires c.TryTail? && !(IsSlot(c.tail) && c.seen.Some? && win && s.ends.tailIndex == c.tail)
    requires c.tail.off <= BLOCK_CAP
    ensures Stutter(s, PushTry(s, t, c, win))
  {
  }

  lemma WriterStutters(s: State, p: Pos)
    requires p in s.calls.writers
    ensures Stutter(s, WriterNext(s, p))
  {
  }

  lemma PopperRefines(s: State, t: Tid, win: bool)
    requires Inv(s) && t in s.calls.poppers
    ensures Stutter(s, PopperNext(s, t, win)) || Dequeue(s, PopperNext(s, t, win), t)
  {
    hide Inv, Dequeue;
    var c := s.calls.poppers[t];
    if c.TryHead? && win && s.ends.headIndex == c.head {
      ClaimHeadRefines(s, t);
    }
  }

  lemma ClaimHeadRefines(s: State, t: Tid)
    requires Inv(s) && t in s.calls.poppers && s.calls.poppers[t].TryHead?
    requires s.ends.headIndex == s.calls.poppers[t].head
    ensures var c := s.calls.poppers[t]; Dequeue(s, ClaimHead(s, t, c.head, c.newHead, c.block), t)
  {
    hide Inv, Queue;
    PopperFacts(s, t);
    FrontierFacts(s);
    var c := s.calls.poppers[t];
    TicketsOrdered(s.ends.headIndex.pos, s.ends.tailIndex);
    QueueShrinks(s, ClaimHead(s, t, c.head, c.newHead, c.block));
  }

  lemma ReaderStutters(s: State, p: Pos)
    requires p in s.calls.readers
    requires s.calls.readers[p].StoreHeadIndex? ==> s.ends.headIndex.pos == Pos(p.lap, BLOCK_CAP)
    ensures Stutter(s, ReaderNext(s, p))
  {
  }

  /** The n-th pop to win the head CAS returns the value of the n-th push to win the tail CAS. */
  lemma RunIsFifo(r: seq<State>, acts: seq<Action>, i: nat, p: Pos)
    requires Run(r, acts) && i < |r| && p in r[i].log.delivered
    ensures Ticket(p) < Popped(r[i]) <= |r[i].log.pushed|
    ensures r[i].log.delivered[p] == r[i].log.pushed[Ticket(p)]
  {
    RunInv(r, acts, i);
    TicketsOrdered(p, r[i].ends.headIndex.pos);
    TicketsOrdered(r[i].ends.headIndex.pos, r[i].ends.tailIndex);
  }

  /** `pop` gives up only at a moment when the queue is empty. */
  lemma NoneOnlyWhenEmpty(r: seq<State>, acts: seq<Action>, i: nat)
    requires Run(r, acts) && i < |acts| && acts[i].Pop?
    requires var t := acts[i].t; r[i].calls.poppers[t].CheckTail? && t !in r[i + 1].calls.poppers
    ensures Queue(r[i]) == []
  {
    hide Inv, Step, Init;
    RunInv(r, acts, i);
    assert r[i + 1] == Step(r[i], acts[i]);
    NoneMeansEmpty(r[i], acts[i].t, acts[i].win);
  }

  lemma NoneMeansEmpty(s: State, t: Tid, win: bool)
    requires Inv(s) && t in s.calls.poppers && s.calls.poppers[t].CheckTail?
    ensures t !in Step(s, Pop(t, win)).calls.poppers ==> Queue(s) == []
  {
    hide Inv;
    PopperFacts(s, t);
    FrontierFacts(s);
    TicketsOrdered(s.ends.headIndex.pos, s.ends.tailIndex);
  }

  /** A value that is returned was never returned before, and no cell is read before it is written. */
  lemma ReadsAreSound(r: seq<State>, acts: seq<Action>, i: nat, p: Pos)
    requires Run(r, acts) && i < |r| && p in r[i].calls.readers && r[i].calls.readers[p].ReadValue?
    ensures var cell := Pos(r[i].calls.readers[p].block, p.off);
      && Ticket(p) < |r[i].log.pushed| && cell == p && p in r[i].cells.value && p !in r[i].log.taken
      && p !in r[i].log.delivered && r[i].cells.value[p] == r[i].log.pushed[Ticket(p)]
  {
    RunInv(r, acts, i);
    ReaderFacts(r[i], p);
  }

  /** The block a push installs was allocated before its CAS, so the `unwrap` in `push` never fails. */
  lemma NextBlockAllocated(r: seq<State>, acts: seq<Action>, i: nat, p: Pos)
    requires Run(r, acts) && i < |r| && p in r[i].calls.writers && r[i].calls.writers[p].StoreTailBlock?
    ensures r[i].calls.writers[p].spare
  {
    RunInv(r, acts, i);
    WriterFacts(r[i], p);
  }

  // ---------------------------------------------------------------- reclamation

  /** Blocks the next step of a writing call dereferences. */
  function WriterTouches(c: Writer): set<nat> {
    if c.StoreNext? || c.WriteValue? || c.SetWrite? then {c.block} else {}
  }

  /** Blocks the next step of a reading call dereferences. */
  function ReaderTouches(c: Reader): set<nat> {
    match c
    case LoadNextNext(_, next) => {next}
    case StoreHeadBlock(_, _, _) => {}
    case StoreHeadIndex(_, _, _) => {}
    case _ => {c.block}
  }

  /** Blocks that were published and are not freed. */
  ghost predicate AllLive(s: State, blocks: set<nat>) {
    forall b :: b in blocks ==> b < s.ends.published && b !in s.cells.freed
  }

  /** No call, in any state of any run, is about to touch a block that is freed or was never published. */
  lemma NoUseAfterFree(r: seq<State>, acts: seq<Action>, i: nat)
    requires Run(r, acts) && i < |r|
    ensures forall p :: p in r[i].calls.writers ==> AllLive(r[i], WriterTouches(r[i].calls.writers[p]))
    ensures forall p :: p in r[i].calls.readers ==> AllLive(r[i], ReaderTouches(r[i].calls.readers[p]))
    ensures AllLive(r[i], r[i].calls.destroyers.Keys)
  {
    hide Inv;
    RunInv(r, acts, i);
    var s := r[i];
    forall p | p in s.calls.writers ensures AllLive(s, WriterTouches(s.calls.writers[p])) {
      WriterBlockLive(s, p);
    }
    forall p | p in s.calls.readers ensures AllLive(s, ReaderTouches(s.calls.readers[p])) {
      ReaderBlockLive(s, p);
    }
    forall k | k in s.calls.destroyers ensures k < s.ends.published && k !in s.cells.freed {
      DestroyerFacts(s, k);
      BlocksPublished(s);
    }
  }

  /** A freed block has had all its slots written and read. */
  lemma FreedMeansDrained(s: State, k: nat, j: nat)
    requires Inv(s) && k in s.cells.freed && j < BLOCK_CAP
    ensures Pos(k, j) in s.cells.writeBit && Pos(k, j) in s.log.taken
  {
    hide LinkInv, HeadInv, WriteInv, ReadInv, WritersInv, PushersInv, PoppersInv, ReadersInv, ReadersTaken,
        DestroyersInv, ParkedInv;
    if j + 1 < BLOCK_CAP {
      assert ReadBelow(s.cells.readBit, k, BLOCK_CAP - 1);
      assert Pos(k, j) in s.cells.readBit;
    } else {
      assert Started(s.calls.destroyers, s.log.parked, s.cells.freed, k);
    }
  }

  lemma WriterBlockLive(s: State, p: Pos)
    requires Inv(s) && p in s.calls.writers
    ensures s.calls.writers[p].block == p.lap && p.lap < s.ends.published && p.lap !in s.cells.freed
  {
    WriterFacts(s, p);
    hide LinkInv, HeadInv, ReadInv, TakenInv, PushersInv, PoppersInv, ReadersInv, ReadersTaken, DestroyersInv,
        ParkedInv, PhaseInv, FreedInv;
    assert p == Pos(p.lap, p.off);
    if p.lap in s.cells.freed {
      FreedMeansDrained(s, p.lap, p.off);
    }
  }

  lemma ReaderBlockLive(s: State, p: Pos)
    requires Inv(s) && p in s.calls.readers
    ensures s.calls.readers[p].block == p.lap && p.lap < s.ends.published && p.lap !in s.cells.freed
    ensures s.calls.readers[p].LoadNextNext? ==>
        s.calls.readers[p].next < s.ends.published && s.calls.readers[p].next !in s.cells.freed
  {
    ReaderFacts(s, p);
    BlocksPublished(s);
    hide TailInv, LinkInv, HeadInv, WriteInv, ReadInv, PushersInv, PoppersInv, WritersInv, DestroyersInv, ParkedInv,
        ReadersInv, ReadersTaken;
    assert p == Pos(p.lap, p.off);
    if p.lap in s.cells.freed {
      FreedMeansDrained(s, p.lap, p.off);
    }
    if s.calls.readers[p].LoadNextNext? && s.calls.readers[p].next in s.cells.freed {
      FreedMeansDrained(s, s.calls.readers[p].next, 0);
    }
  }

  /** The indices, and the block after a linked one, stay within the published blocks. */
  lemma BlocksPublished(s: State)
    requires Inv(s)
    ensures AtMost(s.ends.headIndex.pos, s.ends.tailIndex)
    ensures s.ends.published > 0 ==> s.ends.tailIndex.lap < s.ends.published
    ensures s.ends.published == 0 ==> s.ends.tailIndex == Pos(0, 0)
    ensures forall k :: k in s.ends.next ==> k < s.ends.tailIndex.lap
  {
  }

  /** Every retired block is freed at most once, and only when all of its slots have been written and read. */
  lemma FreedOnceAndDrained(r: seq<State>, acts: seq<Action>, i: nat, k: nat)
    requires Run(r, acts) && i < |acts| && k in r[i + 1].cells.freed
    requires acts[i].Destroy? && r[i].calls.destroyers.Keys - r[i + 1].calls.destroyers.Keys == {k}
    ensures k !in r[i].cells.freed
    ensures forall j: nat :: j < BLOCK_CAP ==> Pos(k, j) in r[i + 1].cells.writeBit && Pos(k, j) in r[i + 1].log.taken
  {
    RunInv(r, acts, i);
    RunInv(r, acts, i + 1);
    assert k in r[i].calls.destroyers;
    DestroyerFacts(r[i], k);
    hide Inv, Step;
    forall j: nat | j < BLOCK_CAP ensures Pos(k, j) in r[i + 1].cells.writeBit && Pos(k, j) in r[i + 1].log.taken {
      FreedMeansDrained(r[i + 1], k, j);
    }
  }

  // ---------------------------------------------------------------- at rest

  ghost predicate Quiescent(s: State) {
    && s.calls.pushers == map[] && s.calls.writers == map[] && s.calls.poppers == map[] && s.calls.readers == map[]
    && s.calls.destroyers == map[]
  }

  /**
   With no call in progress nothing is lost and nothing leaks: every value popped so far was returned,
   every other value sits written in its slot, the blocks behind the head are exactly the freed ones, and
   the blocks from head to tail are linked.
   */
  lemma QuiescentState(r: seq<State>, acts: seq<Action>, i: nat)
    requires Run(r, acts) && i < |r| && Quiescent(r[i])
    ensures IsSlot(r[i].ends.headIndex.pos) && IsSlot(r[i].ends.tailIndex)
    ensures AtMost(r[i].ends.headIndex.pos, r[i].ends.tailIndex)
    ensures forall k: nat :: k in r[i].cells.freed <==> k < r[i].ends.headIndex.pos.lap
    ensures forall k: nat :: k < r[i].ends.tailIndex.lap ==> k in r[i].ends.next && r[i].ends.next[k] == k + 1
    ensures r[i].ends.published > 0 ==>
        r[i].ends.tailBlock == Some(r[i].ends.tailIndex.lap) && r[i].ends.headBlock == Some(r[i].ends.headIndex.pos.lap)
    ensures forall p :: p in r[i].log.delivered <==> IsSlot(p) && Before(p, r[i].ends.headIndex.pos)
    ensures forall p :: IsSlot(p) && Before(p, r[i].ends.tailIndex) ==>
      && p in r[i].cells.value && Ticket(p) < |r[i].log.pushed|
      && r[i].cells.value[p] == r[i].log.pushed[Ticket(p)]
  {
    RunInv(r, acts, i);
    var s := r[i];
    forall k: nat ensures k in s.cells.freed <==> k < s.ends.headIndex.pos.lap {
      QuiescentFreed(s, k);
    }
  }

  /** Destruction waits only for a slot that was popped and whose value has not been returned. */
  lemma ParkedSlotUndelivered(s: State, k: nat)
    requires Inv(s) && k in s.log.parked
    ensures exists p :: p in s.calls.readers && p.lap == k
  {
    hide TailInv, PushersInv, PoppersInv, WriteInv, WritersInv, ReadersInv, LinkInv;
    var p := Pos(k, s.log.parked[k]);
    assert ParkedOk(k, s.log.parked[k], s.cells.readBit, s.cells.destroyBit);
    assert Started(s.calls.destroyers, s.log.parked, s.cells.freed, k);
    assert Before(LastSlot(k), s.ends.headIndex.pos);
    assert Before(p, s.ends.headIndex.pos) && IsSlot(p);
  }

  lemma QuiescentFreed(s: State, k: nat)
    requires Inv(s) && Quiescent(s)
    ensures k in s.cells.freed <==> k < s.ends.headIndex.pos.lap
  {
    hide PushersInv, PoppersInv, WriteInv, WritersInv, DestroyersInv, LinkInv;
    if k in s.cells.freed {
      FreedMeansDrained(s, k, BLOCK_CAP - 1);
    }
    if k < s.ends.headIndex.pos.lap {
      assert Before(LastSlot(k), s.ends.headIndex.pos) && IsSlot(LastSlot(k));
      assert Started(s.calls.destroyers, s.log.parked, s.cells.freed, k);
      if k in s.log.parked {
        ParkedSlotUndelivered(s, k);
        assert false;
      }
    }
  }
}
