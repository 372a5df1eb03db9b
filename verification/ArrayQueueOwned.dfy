/** The ring queue while one caller owns it: construction, `Drop` and `IntoIter`. */
module ArrayQueueOwned {
  import opened Common
  import opened ArrayQueueWords
  import opened ArrayQueueSteps
  import opened ArrayQueueTheorems

  // ---------------------------------------------------------------- one_lap

  /** `next_power_of_two`: the least power of two that is at least `n`. */
  method NextPowerOfTwo(n: nat) returns (p: nat, ghost k: nat)
    requires n <= WORDS / 2
    ensures p == Pow2(k) && k <= 63
    ensures n <= p && (p == 1 || p < 2 * n)
    ensures forall j: nat :: j < k ==> Pow2(j) < n
  {
    p, k := 1, 0;
    Pow2Words();
    while p < n
      invariant p == Pow2(k) && k <= 63
      invariant forall j: nat :: j < k ==> Pow2(j) < n
      decreases WORDS - p
    {
      if k == 63 { assert false; }
      p, k := 2 * p, k + 1;
    }
  }

  // ---------------------------------------------------------------- the queue

  datatype Cell = Cell(stamp: int, value: Option<Value>)

  class OwnedRing {
    const cfg: Config
    const buffer: array<Cell>
    var head: int
    var tail: int
    ghost var h: nat
    ghost var t: nat

    ghost predicate Valid()
      reads this, buffer
    {
      && ValidConfig(cfg) && buffer.Length == cfg.cap
      && head == Stamp(cfg, h) && tail == Stamp(cfg, t) && h <= t <= h + cfg.cap
      && forall n: nat :: h <= n < t ==> buffer[Slot(cfg, n)].value.Some?
    }

    ghost function Contents(): (vs: seq<Value>)
      requires Valid()
      reads this, buffer
    {
      seq(t - h, i requires 0 <= i < t - h reads this, buffer
                   requires Valid() => buffer[Slot(cfg, h + i)].value.value)
    }

    /**
     `ArrayQueue::new`: an empty queue; slot `i` carries stamp `i`; one lap is the least power of two above the
     capacity.
     */
    constructor (capacity: nat)
      requires 0 < capacity < WORDS / 2
      ensures Valid() && cfg.cap == capacity && fresh(buffer)
      ensures Contents() == []
      ensures forall i :: 0 <= i < cfg.cap ==> buffer[i] == Cell(New(cfg).ring.stamps[i], None)
      ensures head == New(cfg).ring.head && tail == New(cfg).ring.tail
      ensures exists k: nat :: cfg.oneLap == Pow2(k) && forall j: nat :: Pow2(j) > cfg.cap ==> cfg.oneLap <= Pow2(j)
    {
      var cells := new Cell[capacity](_ => Cell(0, None));
      for i := 0 to capacity
        invariant forall j :: 0 <= j < i ==> cells[j] == Cell(j, None)
      {
        cells[i] := Cell(i, None);
      }
      var lap: nat;
      ghost var k: nat;
      lap, k := NextPowerOfTwo(capacity + 1);
      LapsOfWord(lap, k);
      cfg, buffer, head, tail := Config(capacity, lap, WORDS / lap), cells, 0, 0;
      h, t := 0, 0;
      new;
      assert cfg.oneLap == Pow2(k);
      OneLapFacts(cfg, k);
      assert forall j: nat :: Pow2(j) > cfg.cap ==> k <= j;
      forall j: nat | Pow2(j) > cfg.cap
        ensures cfg.oneLap <= Pow2(j)
      {
        Pow2Grows(k, j);
      }
    }

    /** `len` when nobody else can move the ends. */
    method Len() returns (n: int)
      requires Valid()
      ensures n == |Contents()|
    {
      hide Stamp, Slot;
      LenOfTickets(cfg, h, t);
      n := LenOf(cfg, head, tail);
    }

    /** `Drop`: every waiting value is dropped once, in order; no other slot is touched. */
    method Drop() returns (dropped: seq<Value>)
      requires Valid()
      modifies buffer
      ensures dropped == old(Contents())
      ensures forall n: nat :: h <= n < t ==> buffer[Slot(cfg, n)].value == None
      ensures forall i :: 0 <= i < cfg.cap && old(buffer[i].value) == None ==> buffer[i] == old(buffer[i])
    {
      hide Mul, Stamp, Slot;
      StampParts(cfg, h);
      var hix := IndexOf(cfg, head);
      var len := Len();
      dropped := [];
      for i := 0 to len
        invariant |dropped| == i && forall j :: 0 <= j < i ==> dropped[j] == old(Contents())[j]
        invariant forall n: nat :: h <= n < h + i ==> buffer[Slot(cfg, n)].value == None
        invariant forall n: nat :: h + i <= n < t ==> buffer[Slot(cfg, n)] == old(buffer[Slot(cfg, n)])
        invariant forall j :: 0 <= j < cfg.cap && old(buffer[j].value) == None ==> buffer[j] == old(buffer[j])
      {
        var index := if hix + i < cfg.cap then hix + i else hix + i - cfg.cap;
        SlotAhead(cfg, h, i);
        assert buffer[index].value.Some?;
        dropped := dropped + [buffer[index].value.value];
        buffer[index] := buffer[index].(value := None);
        forall n: nat | h <= n < t && n != h + i
          ensures Slot(cfg, n) != index
        {
          SlotsDiffer(cfg, n, h + i);
        }
      }
    }

    /** `IntoIter::next`: take the front value. */
    method Next() returns (item: Option<Value>)
      requires Valid()
      modifies this, buffer
      ensures Valid()
      ensures old(Contents()) == [] ==> item == None && Contents() == []
      ensures old(Contents()) != [] ==> item == Some(old(Contents())[0]) && Contents() == old(Contents())[1..]
    {
      hide Mul, Stamp, Slot, NextStamp;
      StampsEqual(cfg, h, t);
      if head == tail { return None; }
      StampParts(cfg, h);
      NextStampOk(cfg, h);
      var index := IndexOf(cfg, head);
      item := buffer[index].value;
      forall n: nat | h < n < t
        ensures Slot(cfg, n) != index
      {
        SlotsDiffer(cfg, h, n);
      }
      buffer[index] := buffer[index].(value := None);
      head, h := NextStamp(cfg, head), h + 1;
    }
  }

  lemma LapsOfWord(lap: nat, k: nat)
    requires k <= 63 && lap == Pow2(k)
    ensures WORDS / lap == Pow2(64 - k)
  {
    Pow2Product(64 - k, k);
    Pow2Words();
    DivModUnique(WORDS, lap, Pow2(64 - k), 0);
  }

  lemma OneLapFacts(c: Config, k: nat)
    requires 0 < c.cap < c.oneLap && k <= 63 && c.oneLap == Pow2(k) && c.laps == Pow2(64 - k)
    ensures ValidConfig(c) && Stamp(c, 0) == 0
  {
    Pow2Product(64 - k, k);
    Pow2Words();
    Pow2Grows(1, 64 - k);
    assert Pow2(1) == 2;
    StampOfZero(c);
  }

  lemma StampOfZero(c: Config)
    requires c.cap > 0 && c.laps > 0
    ensures Stamp(c, 0) == 0
  {
  }

  lemma SlotAhead(c: Config, h: nat, i: nat)
    requires c.cap > 0 && i < c.cap
    ensures Slot(c, h + i) == if Slot(c, h) + i < c.cap then Slot(c, h) + i else Slot(c, h) + i - c.cap
  {
    SlotDistance(c, h, h + i);
  }

  lemma SlotsDiffer(c: Config, a: nat, b: nat)
    requires c.cap > 0 && a != b && a < b + c.cap && b < a + c.cap
    ensures Slot(c, a) != Slot(c, b)
  {
    if Slot(c, a) == Slot(c, b) {
      if a < b { SlotsEqual(c, a, b); } else { SlotsEqual(c, b, a); }
    }
  }
}
