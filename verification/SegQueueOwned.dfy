/**
 The parts of the segmented queue that work on packed index words or need exclusive access:
 the word arithmetic, `len` and `is_empty`, dropping the queue, and the by-value iterator.
 */
module SegQueueOwned {
  import opened Common
  import opened SegQueueSteps
  import opened SegQueueInvariant
  import opened SegQueueProof
  import opened SegQueueTheorems

  // ---------------------------------------------------------------- index words

  const LAP: nat := 32

  /** An index word: the position above SHIFT = 1 bit of metadata. */
  function Word(p: Pos, hasNext: bool): nat {
    (p.lap * 32 + p.off) * 2 + if hasNext then 1 else 0
  }

  /** `(word >> SHIFT) % LAP` */
  function Offset(w: nat): nat {
    (w / 2) % LAP
  }

  /** `(word >> SHIFT) / LAP` */
  function LapOf(w: nat): nat {
    (w / 2) / LAP
  }

  /** `word >> SHIFT` */
  function Shifted(w: nat): nat {
    w / 2
  }

  /** `(lap * LAP) << SHIFT` */
  function LapWords(lap: nat): nat {
    lap * 64
  }

  /** `word & !((1 << SHIFT) - 1)` */
  function ClearLow(w: nat): nat {
    w - w % 2
  }

  /** The next index position; position 31 of a lap is followed by the first of the next lap. */
  function Advance(p: Pos): Pos {
    if p.off == BLOCK_CAP then Pos(p.lap + 1, 0) else Pos(p.lap, p.off + 1)
  }

  /** What the code computes from a word, in terms of the position it packs. */
  lemma WordParts(p: Pos, b: bool)
    requires p.off <= BLOCK_CAP
    ensures Offset(Word(p, b)) == p.off && LapOf(Word(p, b)) == p.lap
    ensures Word(p, b) % 2 == (if b then 1 else 0) && ClearLow(Word(p, b)) == Word(p, false)
    ensures Word(p, b) + 2 == Word(Advance(p), b)
  {
    assert Word(p, b) / 2 == p.lap * 32 + p.off;
  }

  /** Comparing words is comparing positions and bits, so the word CAS is the CAS of the step model. */
  lemma WordsEqual(p: Pos, b: bool, q: Pos, c: bool)
    requires p.off <= BLOCK_CAP && q.off <= BLOCK_CAP
    ensures Word(p, b) == Word(q, c) <==> p == q && b == c
    ensures Shifted(Word(p, b)) == Shifted(Word(q, c)) <==> p == q
  {
    WordParts(p, b);
    WordParts(q, c);
  }

  // ---------------------------------------------------------------- len and is_empty

  /** The position after the fix-up for an index that stands at the end of a block. */
  function FixUp(p: Pos): Pos {
    if p.off == BLOCK_CAP then Pos(p.lap + 1, 0) else p
  }

  /** The code's fix-up of a cleared word is the fix-up of its position. */
  lemma FixUpWord(p: Pos)
    requires p.off <= BLOCK_CAP
    ensures var w := Word(p, false);
            (if Offset(w) == LAP - 1 then w + 2 else w) == Word(FixUp(p), false)
    ensures Ticket(FixUp(p)) == Ticket(p) && IsSlot(FixUp(p)) && p.lap <= FixUp(p).lap
    ensures forall q: Pos :: q.off <= BLOCK_CAP && AtMost(p, q) ==> FixUp(p).lap <= FixUp(q).lap
  {
    WordParts(p, false);
  }

  /** The arithmetic of `len` on one consistent pair of index words. */
  method Len(tailWord: nat, headWord: nat, ghost tail: Pos, ghost head: Index) returns (n: nat)
    requires tailWord == Word(tail, false) && headWord == Word(head.pos, head.hasNext)
    requires tail.off <= BLOCK_CAP && head.pos.off <= BLOCK_CAP && AtMost(head.pos, tail)
    ensures n == Ticket(tail) - Ticket(head.pos)
  {
    hide Word, Offset, LapOf, Shifted, LapWords, ClearLow, FixUp;
    var t, h := ClearLow(tailWord), ClearLow(headWord);
    WordParts(tail, false);
    WordParts(head.pos, head.hasNext);
    FixUpWord(tail);
    FixUpWord(head.pos);
    if Offset(t) == LAP - 1 { t := t + 2; }
    if Offset(h) == LAP - 1 { h := h + 2; }
    WordParts(FixUp(head.pos), false);
    var lap := LapOf(h);
    RotateWords(FixUp(tail), FixUp(head.pos));
    t, h := t - LapWords(lap), h - LapWords(lap);
    t, h := Shifted(t), Shifted(h);
    n := t - h - t / LAP;
  }

  /**
   After rotation the head falls into the first block, and the word difference minus one per block is the ticket
   difference.
   */
  lemma RotateWords(t: Pos, h: Pos)
    requires IsSlot(t) && IsSlot(h) && h.lap <= t.lap
    ensures var t1, h1 := Word(t, false) - LapWords(h.lap), Word(h, false) - LapWords(h.lap);
            t1 >= 0 && h1 >= 0 && Shifted(t1) - Shifted(h1) - Shifted(t1) / LAP == Ticket(t) - Ticket(h)
  {
    assert (Word(t, false) - LapWords(h.lap)) / 2 == (t.lap - h.lap) * 32 + t.off;
    assert (Word(h, false) - LapWords(h.lap)) / 2 == h.off;
  }

  /** The tail index never moves back. */
  lemma TailMonotone(s: State, a: Action)
    requires Inv(s) && Enabled(s, a)
    ensures AtMost(s.ends.tailIndex, Step(s, a).ends.tailIndex)
  {
    hide Inv;
    match a
    case Push(t, win) => PusherFacts(s, t);
    case Write(p) => WriterFacts(s, p);
    case _ =>
  }

  lemma {:induction false} TailGrows(r: seq<State>, acts: seq<Action>, i: nat, j: nat)
    requires Run(r, acts) && i <= j < |r|
    ensures AtMost(r[i].ends.tailIndex, r[j].ends.tailIndex)
    decreases j
  {
    hide Inv, Step;
    if i < j {
      TailGrows(r, acts, i, j - 1);
      RunInv(r, acts, j - 1);
      TailMonotone(r[j - 1], acts[j - 1]);
      assert r[j - 1 + 1] == Step(r[j - 1], acts[j - 1]);
    }
  }

  /** `len` reads tail, head, tail; if the tails agree its result is the length when it read head. */
  lemma LenIsExact(r: seq<State>, acts: seq<Action>, i: nat, j: nat, k: nat)
    requires Run(r, acts) && i <= j <= k < |r|
    requires r[i].ends.tailIndex == r[k].ends.tailIndex
    ensures AtMost(r[j].ends.headIndex.pos, r[i].ends.tailIndex)
    ensures Ticket(r[i].ends.tailIndex) - Ticket(r[j].ends.headIndex.pos) == |Queue(r[j])|
  {
    hide Inv;
    TailGrows(r, acts, i, j);
    TailGrows(r, acts, j, k);
    RunInv(r, acts, j);
    FrontierFacts(r[j]);
  }

  /** A pop stands between winning the last slot of a block and moving the head to the next block. */
  ghost predicate PopLeavesBlock(s: State) {
    exists p :: p in s.calls.readers && Leaving(s.calls.readers[p])
  }

  /**
   `is_empty` loads the head, then the tail, and compares positions. It answers yes exactly when no more was pushed by
   the second load than was popped at the first, except that the head may stand at the end of a block whose successor
   is installed and unused; then it answers no.
   */
  lemma IsEmptyExact(r: seq<State>, acts: seq<Action>, i: nat, j: nat)
    requires Run(r, acts) && i <= j < |r|
    ensures var head, tail := r[i].ends.headIndex.pos, r[j].ends.tailIndex;
      head == tail <==>
        |r[j].log.pushed| == Popped(r[i]) && !(head.off == BLOCK_CAP && tail == Pos(head.lap + 1, 0))
    ensures Popped(r[i]) <= |r[j].log.pushed|
  {
    hide Inv;
    RunInv(r, acts, i);
    RunInv(r, acts, j);
    FrontierFacts(r[i]);
    FrontierFacts(r[j]);
    TailGrows(r, acts, i, j);
    TicketsOrdered(r[i].ends.headIndex.pos, r[j].ends.tailIndex);
    TicketsOrdered(FixUp(r[i].ends.headIndex.pos), FixUp(r[j].ends.tailIndex));
    TicketsOrdered(r[i].ends.headIndex.pos, r[i].ends.tailIndex);
    TicketsOrdered(r[i].ends.tailIndex, r[j].ends.tailIndex);
  }

  /** The head stands at the end of a block exactly while a pop is leaving that block. */
  lemma BlockEndMeansLeaving(s: State)
    requires Inv(s)
    ensures s.ends.headIndex.pos.off == BLOCK_CAP <==> PopLeavesBlock(s)
  {
    hide TailInv, LinkInv, WriteInv, ReadInv, TakenInv, PushersInv, PoppersInv, WritersInv, DestroyersInv, ParkedInv;
    hide ReadersTaken, PhaseInv, FreedInv, FirstInv;
    if PopLeavesBlock(s) {
      var p :| p in s.calls.readers && Leaving(s.calls.readers[p]);
      assert ReaderOk(p, s.calls.readers[p], s.ends.headIndex.pos, s.ends.headBlock, s.ends.next);
    }
  }

  /** If more was pushed by then than had been popped, some value was waiting at some moment in between. */
  lemma {:induction false} SomeValueWaited(r: seq<State>, acts: seq<Action>, i: nat, j: nat)
    requires Run(r, acts) && i <= j < |r| && Popped(r[i]) < |r[j].log.pushed|
    ensures exists k :: i <= k <= j && Queue(r[k]) != []
    decreases j
  {
    hide Inv, Step;
    RunInv(r, acts, j);
    FrontierFacts(r[j]);
    if i == j {
      assert Queue(r[j]) != [];
    } else if Popped(r[i]) < |r[j - 1].log.pushed| {
      SomeValueWaited(r, acts, i, j - 1);
    } else {
      RunInv(r, acts, j - 1);
      FrontierFacts(r[j - 1]);
      RunInv(r, acts, i);
      FrontierFacts(r[i]);
      HeadGrows(r, acts, i, j - 1);
      TicketsOrdered(r[i].ends.headIndex.pos, r[j - 1].ends.headIndex.pos);
      assert r[j - 1 + 1] == Step(r[j - 1], acts[j - 1]);
      StepRefinesFifo(r[j - 1], acts[j - 1]);
      assert Queue(r[j]) != [] || Queue(r[j - 1]) != [];
    }
  }

  /**
   The caller's view: if no pop is leaving a block at the first load, a yes means that the queue was empty at the second
   load, a no that it held a value at some moment from the first load to the second.
   */
  lemma IsEmptyForCallers(r: seq<State>, acts: seq<Action>, i: nat, j: nat)
    requires Run(r, acts) && i <= j < |r| && !PopLeavesBlock(r[i])
    ensures r[i].ends.headIndex.pos == r[j].ends.tailIndex ==> Queue(r[j]) == []
    ensures r[i].ends.headIndex.pos != r[j].ends.tailIndex ==> exists k :: i <= k <= j && Queue(r[k]) != []
    ensures i == j ==> (r[i].ends.headIndex.pos == r[j].ends.tailIndex <==> Queue(r[i]) == [])
  {
    hide Inv, PopLeavesBlock;
    RunInv(r, acts, i);
    BlockEndMeansLeaving(r[i]);
    IsEmptyExact(r, acts, i, j);
    if r[i].ends.headIndex.pos == r[j].ends.tailIndex {
      IsEmptySound(r, acts, i, j);
    } else {
      SomeValueWaited(r, acts, i, j);
    }
  }

  /** `is_empty` loads head, then tail; true means the queue was empty at the second load. */
  lemma {:induction false} IsEmptySound(r: seq<State>, acts: seq<Action>, i: nat, j: nat)
    requires Run(r, acts) && i <= j < |r| && r[i].ends.headIndex.pos == r[j].ends.tailIndex
    ensures Queue(r[j]) == []
  {
    hide Inv;
    HeadGrows(r, acts, i, j);
    RunInv(r, acts, j);
    FrontierFacts(r[j]);
  }

  lemma HeadMonotone(s: State, a: Action)
    requires Inv(s) && Enabled(s, a)
    ensures Popped(s) <= Popped(Step(s, a))
  {
    hide Inv;
    match a
    case Pop(t, win) => PopperFacts(s, t);
    case Read(p) => ReaderFacts(s, p);
    case _ =>
  }

  lemma {:induction false} HeadGrows(r: seq<State>, acts: seq<Action>, i: nat, j: nat)
    requires Run(r, acts) && i <= j < |r|
    ensures Popped(r[i]) <= Popped(r[j])
    decreases j
  {
    hide Inv, Step, Popped;
    if i < j {
      HeadGrows(r, acts, i, j - 1);
      RunInv(r, acts, j - 1);
      HeadMonotone(r[j - 1], acts[j - 1]);
      assert r[j - 1 + 1] == Step(r[j - 1], acts[j - 1]);
    }
  }

  // ---------------------------------------------------------------- exclusive access

  /** A block of a queue nobody shares any more: 31 cells and a link. */
  class Block {
    const slots: seq<Value>
    const next: Block?

    constructor (slots: seq<Value>, next: Block?)
      ensures this.slots == slots && this.next == next
    {
      this.slots := slots;
      this.next := next;
    }
  }

  /** Blocks linked in order, 31 cells each. */
  ghost predicate Chain(blocks: seq<Block>) {
    && (forall k :: 0 <= k < |blocks| ==> |blocks[k].slots| == BLOCK_CAP)
    && (forall k :: 0 <= k < |blocks| - 1 ==> blocks[k].next == blocks[k + 1])
    && (blocks != [] ==> blocks[|blocks| - 1].next == null)
  }

  /** Index steps from `p` to `tail`. */
  function Distance(p: Pos, tail: Pos): int {
    (tail.lap - p.lap) * 32 + tail.off - p.off
  }

  /** The values from position `p` up to `tail` in index order; block `k` of the chain is the one of lap `base + k`. */
  ghost function Live(blocks: seq<Block>, base: nat, p: Pos, tail: Pos): seq<Value>
    requires Chain(blocks) && base <= p.lap && IsSlot(tail) && p.off <= BLOCK_CAP
    requires AtMost(p, tail) && (p != tail ==> tail.lap < base + |blocks|)
    decreases Distance(p, tail)
  {
    if p == tail then []
    else if p.off == BLOCK_CAP then Live(blocks, base, Pos(p.lap + 1, 0), tail)
    else [blocks[p.lap - base].slots[p.off]] + Live(blocks, base, Pos(p.lap, p.off + 1), tail)
  }

  /** One index step towards the tail. */
  lemma LiveStep(blocks: seq<Block>, base: nat, p: Pos, tail: Pos)
    requires Chain(blocks) && base <= p.lap && IsSlot(tail) && p.off <= BLOCK_CAP
    requires AtMost(p, tail) && p != tail && tail.lap < base + |blocks|
    ensures AtMost(Advance(p), tail) && Advance(p).off <= BLOCK_CAP && base <= Advance(p).lap
    ensures Distance(p, tail) == Distance(Advance(p), tail) + 1 >= 1
    ensures p.lap - base < |blocks| && |blocks[p.lap - base].slots| == BLOCK_CAP
    ensures IsSlot(p) ==>
              Live(blocks, base, p, tail) == [blocks[p.lap - base].slots[p.off]] + Live(blocks, base, Advance(p), tail)
    ensures !IsSlot(p) ==>
              && Live(blocks, base, p, tail) == Live(blocks, base, Advance(p), tail)
              && p.lap - base + 1 < |blocks| && blocks[p.lap - base].next == blocks[p.lap - base + 1]
  {
  }

  lemma LiveSkipsLeft(blocks: seq<Block>, base: nat, p: Pos, tail: Pos)
    requires Chain(blocks) && base < p.lap && IsSlot(tail) && p.off <= BLOCK_CAP && blocks != []
    requires AtMost(p, tail) && tail.lap < base + |blocks|
    ensures Chain(blocks[1..])
    ensures Live(blocks[1..], base + 1, p, tail) == Live(blocks, base, p, tail)
    decreases Distance(p, tail)
  {
    if p != tail {
      LiveSkipsLeft(blocks, base, if p.off == BLOCK_CAP then Pos(p.lap + 1, 0) else Pos(p.lap, p.off + 1), tail);
    }
  }

  /** The cell at position `q` holds the value pushed with the ticket of `q`. */
  ghost predicate Holds(blocks: seq<Block>, base: nat, q: Pos, pushed: seq<Value>) {
    && 0 <= q.lap - base < |blocks|
    && q.off < |blocks[q.lap - base].slots|
    && Ticket(q) < |pushed|
    && blocks[q.lap - base].slots[q.off] == pushed[Ticket(q)]
  }

  /** Taking the front value inside a block. */
  lemma TakeInBlock(blocks: seq<Block>, p: Pos, tail: Pos)
    requires Chain(blocks) && IsSlot(tail) && p.off + 1 < BLOCK_CAP
    requires AtMost(p, tail) && p != tail && |blocks| == tail.lap - p.lap + 1
    ensures |blocks[0].slots| == BLOCK_CAP && AtMost(Advance(p), tail)
    ensures var l := Live(blocks, p.lap, p, tail);
            l != [] && l[0] == blocks[0].slots[p.off] && Live(blocks, p.lap, Advance(p), tail) == l[1..]
  {
    hide Live, Chain;
    LiveStep(blocks, p.lap, p, tail);
  }

  /** Taking the last value of a block; the block leaves the chain. */
  lemma TakeLast(blocks: seq<Block>, p: Pos, tail: Pos)
    requires Chain(blocks) && IsSlot(tail) && p.off + 1 == BLOCK_CAP
    requires AtMost(p, tail) && p != tail && |blocks| == tail.lap - p.lap + 1
    ensures |blocks[0].slots| == BLOCK_CAP && |blocks| > 1 && blocks[0].next == blocks[1]
    ensures Chain(blocks[1..]) && AtMost(Pos(p.lap + 1, 0), tail)
    ensures var l := Live(blocks, p.lap, p, tail);
            l != [] && l[0] == blocks[0].slots[p.off] && Live(blocks[1..], p.lap + 1, Pos(p.lap + 1, 0), tail) == l[1..]
  {
    hide Live, Chain;
    LiveStep(blocks, p.lap, p, tail);
    LiveStep(blocks, p.lap, Advance(p), tail);
    LiveSkipsLeft(blocks, p.lap, Pos(p.lap + 1, 0), tail);
  }

  lemma LiveAtTail(blocks: seq<Block>, base: nat, tail: Pos)
    requires Chain(blocks) && base <= tail.lap && IsSlot(tail)
    ensures Live(blocks, base, tail, tail) == []
  {
  }

  /** One value per ticket, each the one stored at the position of its ticket. */
  lemma {:induction false} LiveByTicket(blocks: seq<Block>, base: nat, p: Pos, tail: Pos, pushed: seq<Value>)
    requires Chain(blocks) && base <= p.lap && IsSlot(tail) && p.off <= BLOCK_CAP
    requires AtMost(p, tail) && (p != tail ==> tail.lap < base + |blocks|)
    requires |pushed| == Ticket(tail)
    requires forall q :: IsSlot(q) && AtMost(p, q) && Before(q, tail) ==> Holds(blocks, base, q, pushed)
    ensures Ticket(p) <= Ticket(tail) && Live(blocks, base, p, tail) == pushed[Ticket(p)..]
    decreases Distance(p, tail)
  {
    hide Holds;
    if p != tail {
      if p.off == BLOCK_CAP {
        LiveByTicket(blocks, base, Pos(p.lap + 1, 0), tail, pushed);
      } else {
        LiveByTicket(blocks, base, Pos(p.lap, p.off + 1), tail, pushed);
        HoldsHere(blocks, base, p, pushed);
      }
    }
  }

  lemma HoldsHere(blocks: seq<Block>, base: nat, p: Pos, pushed: seq<Value>)
    requires Holds(blocks, base, p, pushed)
    ensures Ticket(p) < |pushed| && 0 <= p.lap - base < |blocks| && p.off < |blocks[p.lap - base].slots|
    ensures pushed[Ticket(p)..] == [blocks[p.lap - base].slots[p.off]] + pushed[Ticket(p) + 1..]
  {
  }

  /** The blocks of a state at rest, seen with exclusive access. */
  ghost predicate Image(s: State, blocks: seq<Block>) {
    && Chain(blocks)
    && |blocks| == (if s.ends.published == 0 then 0 else s.ends.tailIndex.lap + 1 - s.ends.headIndex.pos.lap)
    && forall p ::
      (&& p in s.cells.value && p !in s.log.delivered && IsSlot(p)
       && 0 <= p.lap - s.ends.headIndex.pos.lap < |blocks|) ==>
         blocks[p.lap - s.ends.headIndex.pos.lap].slots[p.off] == s.cells.value[p]
  }

  /** With no call in progress, what dropping or iterating visits is exactly the abstract queue, in order. */
  lemma LiveIsQueue(r: seq<State>, acts: seq<Action>, i: nat, blocks: seq<Block>)
    requires Run(r, acts) && i < |r| && Quiescent(r[i])
    requires Image(r[i], blocks)
    ensures var head, tail := r[i].ends.headIndex.pos, r[i].ends.tailIndex;
            && IsSlot(head) && IsSlot(tail) && AtMost(head, tail) && (head != tail ==> tail.lap < head.lap + |blocks|)
            && Live(blocks, head.lap, head, tail) == Queue(r[i])
  {
    hide Inv, Init, Step, Image, Live;
    QuiescentState(r, acts, i);
    RunInv(r, acts, i);
    FrontierFacts(r[i]);
    BlocksPublished(r[i]);
    ImageHolds(r[i], blocks);
    LiveByTicket(blocks, r[i].ends.headIndex.pos.lap, r[i].ends.headIndex.pos, r[i].ends.tailIndex, r[i].log.pushed);
  }

  lemma ImageHolds(s: State, blocks: seq<Block>)
    requires Image(s, blocks)
    requires var head, tail := s.ends.headIndex.pos, s.ends.tailIndex;
             IsSlot(head) && IsSlot(tail) && AtMost(head, tail) && (s.ends.published == 0 ==> tail == Pos(0, 0))
    requires forall p :: p in s.log.delivered <==> IsSlot(p) && Before(p, s.ends.headIndex.pos)
    requires forall p :: IsSlot(p) && Before(p, s.ends.tailIndex) ==>
      p in s.cells.value && Ticket(p) < |s.log.pushed| && s.cells.value[p] == s.log.pushed[Ticket(p)]
    ensures var head, tail := s.ends.headIndex.pos, s.ends.tailIndex;
            && Chain(blocks) && (head != tail ==> tail.lap < head.lap + |blocks|)
            && forall q :: IsSlot(q) && AtMost(head, q) && Before(q, tail) ==> Holds(blocks, head.lap, q, s.log.pushed)
  {
    var head, tail := s.ends.headIndex.pos, s.ends.tailIndex;
    forall q | IsSlot(q) && AtMost(head, q) && Before(q, tail) ensures Holds(blocks, head.lap, q, s.log.pushed) {
      assert q in s.cells.value && q !in s.log.delivered;
    }
  }

  /** A queue owned by one thread: two index words and the first block. */
  class OwnedQueue {
    var head: nat
    var tail: nat
    var headBlock: Block?
    ghost var headPos: Pos
    ghost var tailPos: Pos
    ghost var hasNext: bool
    ghost var blocks: seq<Block>

    ghost predicate Valid()
      reads this
    {
      && Chain(blocks)
      && IsSlot(headPos) && IsSlot(tailPos) && AtMost(headPos, tailPos)
      && head == Word(headPos, hasNext) && tail == Word(tailPos, false)
      && (blocks == [] ==> headPos == tailPos && headBlock == null)
      && (blocks != [] ==> headBlock == blocks[0] && |blocks| == tailPos.lap - headPos.lap + 1)
    }

    ghost function Contents(): seq<Value>
      requires Valid()
      reads this
    {
      Live(blocks, headPos.lap, headPos, tailPos)
    }

    /** `Drop`: every live value is dropped once, in order, and every block is freed once. */
    method Drop() returns (dropped: seq<Value>, freed: seq<Block>)
      requires Valid()
      ensures dropped == Contents()
      ensures freed == blocks
    {
      hide Word, Offset, ClearLow, Live, Chain, Distance;
      var h, t, block := ClearLow(head), ClearLow(tail), headBlock;
      dropped, freed := [], [];
      ghost var p, base := headPos, headPos.lap;
      WordParts(headPos, hasNext);
      WordParts(tailPos, false);
      WordsEqual(p, false, tailPos, false);
      while h != t
        invariant base <= p.lap && p.off <= BLOCK_CAP && AtMost(p, tailPos)
        invariant h == Word(p, false) && (h == t <==> p == tailPos)
        invariant |freed| == p.lap - base && freed <= blocks
        invariant blocks == [] ==> block == null && p == tailPos
        invariant blocks != [] ==> p.lap - base < |blocks| && block == blocks[p.lap - base]
        invariant Contents() == dropped + Live(blocks, base, p, tailPos)
        decreases Distance(p, tailPos)
      {
        LiveStep(blocks, base, p, tailPos);
        WordParts(p, false);
        WordsEqual(Advance(p), false, tailPos, false);
        var offset := Offset(h);
        if offset < BLOCK_CAP {
          dropped := dropped + [block.slots[offset]];
        } else {
          freed := freed + [block];
          block := block.next;
        }
        h, p := h + 2, Advance(p);
      }
      if block != null {
        freed := freed + [block];
      }
      LiveAtTail(blocks, base, tailPos);
    }

    /** `IntoIter::next`: take the front value; the block goes when its last value has been taken. */
    method Next() returns (item: Option<Value>, freed: Option<Block>)
      requires Valid()
      modifies this
      ensures Valid()
      ensures old(Contents()) == [] ==> item == None && Contents() == []
      ensures old(Contents()) != [] ==> item == Some(old(Contents())[0]) && Contents() == old(Contents())[1..]
      ensures freed == None ==> blocks == old(blocks)
      ensures freed.Some? ==> old(blocks) != [] && freed.value == old(blocks)[0] && blocks == old(blocks)[1..]
    {
      hide Word, Offset, Shifted, Live, Chain;
      item, freed := None, None;
      WordsEqual(headPos, hasNext, tailPos, false);
      LiveAtTail(blocks, headPos.lap, tailPos);
      if Shifted(head) == Shifted(tail) { return; }
      WordParts(headPos, hasNext);
      var block, offset := headBlock, Offset(head);
      if offset + 1 == BLOCK_CAP {
        TakeLast(blocks, headPos, tailPos);
        WordParts(Advance(headPos), hasNext);
        item, freed := Some(block.slots[offset]), Some(block);
        headBlock := block.next;
        head := head + 4;
        headPos, blocks := Pos(headPos.lap + 1, 0), blocks[1..];
      } else {
        TakeInBlock(blocks, headPos, tailPos);
        item := Some(block.slots[offset]);
        head := head + 2;
        headPos := Advance(headPos);
      }
    }
  }
}
