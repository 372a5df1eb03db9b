/**
 Word arithmetic of the bounded ring queue (src/std/queue/array_queue.rs). A ticket counts claims from
 zero without bound; the code sees it as a stamp: index below, lap above, laps wrapping at the word size.
 */
module ArrayQueueWords {

  /** Values of a 64-bit `usize`. */
  const WORDS: nat := 0x1_0000_0000_0000_0000

  /** Capacity, the stamp distance of one lap, and how many laps a word tells apart. */
  datatype Config = Config(cap: nat, oneLap: nat, laps: nat)

  function Mul(a: int, b: int): int { a * b }

  ghost predicate ValidConfig(c: Config) {
    0 < c.cap < c.oneLap && c.laps >= 2 && Mul(c.laps, c.oneLap) == WORDS
  }

  /** Tickets after which stamps repeat. */
  function Period(c: Config): int { Mul(c.laps, c.cap) }

  /** The slot a ticket uses. */
  function Slot(c: Config, n: nat): (i: nat)
    requires c.cap > 0
    ensures i < c.cap
  {
    n % c.cap
  }

  /** The number of laps done before a ticket, as far as a word can tell. */
  function Lap(c: Config, n: nat): nat
    requires c.cap > 0 && c.laps > 0
  {
    (n / c.cap) % c.laps
  }

  /** The stamp of a ticket. */
  function Stamp(c: Config, n: nat): int
    requires c.cap > 0 && c.laps > 0
  {
    Mul(Lap(c, n), c.oneLap) + Slot(c, n)
  }

  // What the code computes from a word; `MasksAreRemainders` shows that its masks are these remainders.

  function IndexOf(c: Config, w: int): int
    requires c.oneLap > 0
  {
    w % c.oneLap
  }

  function LapOf(c: Config, w: int): int
    requires c.oneLap > 0
  {
    w - w % c.oneLap
  }

  function WrappingAdd(a: int, b: int): int { (a + b) % WORDS }

  /** The word the code moves `head` or `tail` to. */
  function NextStamp(c: Config, w: int): int
    requires c.oneLap > 0
  {
    if IndexOf(c, w) + 1 < c.cap then w + 1 else WrappingAdd(LapOf(c, w), c.oneLap)
  }

  // ---------------------------------------------------------------- arithmetic

  lemma MulSum(a: int, b: int, d: int)
    ensures Mul(a + b, d) == Mul(a, d) + Mul(b, d)
  {
    assert (a + b) * d == a * d + b * d;
  }

  lemma MulMonotone(a: int, b: int, d: nat)
    requires a <= b
    ensures Mul(a, d) <= Mul(b, d)
  {
    MulSum(a, b - a, d);
  }

  lemma MulOne(d: int)
    ensures Mul(1, d) == d && Mul(0, d) == 0 && Mul(2, d) == d + d
  {
  }

  lemma DivMod(a: int, d: nat)
    requires d > 0
    ensures a == Mul(a / d, d) + a % d && 0 <= a % d < d
  {
  }

  lemma DivModUnique(a: int, d: nat, q: int, r: int)
    requires 0 <= r < d && a == Mul(q, d) + r
    ensures a / d == q && a % d == r
  {
    hide Mul;
    DivMod(a, d);
    PartsUnique(d, q, r, a / d, a % d);
  }

  lemma PartsUnique(d: nat, q: int, r: int, q': int, r': int)
    requires 0 <= r < d && 0 <= r' < d && Mul(q, d) + r == Mul(q', d) + r'
    ensures q == q' && r == r'
  {
    hide Mul;
    MulOne(d);
    if q' < q {
      MulMonotone(q' + 1, q, d);
      MulSum(q', 1, d);
    } else if q < q' {
      MulMonotone(q + 1, q', d);
      MulSum(q, 1, d);
    }
  }

  // ---------------------------------------------------------------- tickets and slots

  lemma SlotBound(c: Config, n: nat)
    requires c.cap > 0
    ensures 0 <= Slot(c, n) < c.cap
  {
  }

  /** The next ticket uses the next slot, and starts a lap after the last one. */
  lemma SlotOfNext(c: Config, n: nat)
    requires c.cap > 0
    ensures Slot(c, n) + 1 < c.cap ==> Slot(c, n + 1) == Slot(c, n) + 1 && (n + 1) / c.cap == n / c.cap
    ensures Slot(c, n) + 1 >= c.cap ==> Slot(c, n + 1) == 0 && (n + 1) / c.cap == n / c.cap + 1
  {
    hide Mul;
    var q := n / c.cap;
    DivMod(n, c.cap);
    MulOne(c.cap);
    if n % c.cap + 1 < c.cap {
      DivModUnique(n + 1, c.cap, q, n % c.cap + 1);
    } else {
      MulSum(q, 1, c.cap);
      DivModUnique(n + 1, c.cap, q + 1, 0);
    }
  }

  /** A capacity later the same slot is used again, one lap on. */
  lemma SlotOfNextLap(c: Config, n: nat)
    requires c.cap > 0
    ensures Slot(c, n + c.cap) == Slot(c, n) && (n + c.cap) / c.cap == n / c.cap + 1
  {
    hide Mul;
    DivMod(n, c.cap);
    MulOne(c.cap);
    MulSum(n / c.cap, 1, c.cap);
    DivModUnique(n + c.cap, c.cap, n / c.cap + 1, n % c.cap);
  }

  /** Two tickets of one slot that are less than a capacity apart are the same. */
  lemma SlotsEqual(c: Config, a: nat, b: nat)
    requires c.cap > 0 && a <= b < a + c.cap && Slot(c, a) == Slot(c, b)
    ensures a == b
  {
    hide Mul;
    DivMod(a, c.cap);
    DivMod(b, c.cap);
    MulOne(c.cap);
    if a / c.cap < b / c.cap {
      MulMonotone(a / c.cap + 1, b / c.cap, c.cap);
      MulSum(a / c.cap, 1, c.cap);
    } else {
      MulMonotone(b / c.cap, a / c.cap, c.cap);
    }
  }

  /** Counting laps modulo the laps of a word. */
  lemma LapAdd(q: nat, l: nat)
    requires l > 0
    ensures (q + 1) % l == if q % l + 1 < l then q % l + 1 else 0
  {
    SlotOfNext(Config(l, 0, 0), q);
  }

  // ---------------------------------------------------------------- stamps

  /** A stamp is a word whose index is the slot; both halves can be read back. */
  lemma StampParts(c: Config, n: nat)
    requires ValidConfig(c)
    ensures IndexOf(c, Stamp(c, n)) == Slot(c, n) < c.cap
    ensures LapOf(c, Stamp(c, n)) == Mul(Lap(c, n), c.oneLap)
    ensures 0 <= Stamp(c, n) && Stamp(c, n) + 1 < WORDS
  {
    hide Mul;
    SlotBound(c, n);
    LapBound(c, n);
    DivModUnique(Stamp(c, n), c.oneLap, Lap(c, n), Slot(c, n));
  }

  lemma LapBound(c: Config, n: nat)
    requires ValidConfig(c)
    ensures 0 <= Lap(c, n) < c.laps
    ensures 0 <= Mul(Lap(c, n), c.oneLap) <= WORDS - c.oneLap
  {
    hide Mul;
    var l := Lap(c, n);
    MulOne(c.oneLap);
    MulMonotone(0, l, c.oneLap);
    MulMonotone(l, c.laps - 1, c.oneLap);
    MulSum(c.laps - 1, 1, c.oneLap);
  }

  lemma Wraps(a: int, b: int, r: int)
    requires 0 <= r < WORDS && (a + b == r || a + b == r + WORDS)
    ensures WrappingAdd(a, b) == r
  {
  }

  /** One lap up from ticket `n`, at any index, with wrap-around. */
  lemma LapWord(c: Config, n: nat, i: nat)
    requires ValidConfig(c) && i < c.cap
    ensures WrappingAdd(Mul(Lap(c, n), c.oneLap) + i, c.oneLap) == Mul((n / c.cap + 1) % c.laps, c.oneLap) + i
  {
    hide Mul;
    LapAdd(n / c.cap, c.laps);
    LapBound(c, n);
    LapBound(c, n + c.cap);
    SlotOfNextLap(c, n);
    MulOne(c.oneLap);
    MulSum(Lap(c, n), 1, c.oneLap);
    Wraps(Mul(Lap(c, n), c.oneLap) + i, c.oneLap, Mul((n / c.cap + 1) % c.laps, c.oneLap) + i);
  }

  /** Adding one lap to the stamp of ticket `n`, with wrap-around, gives the stamp of ticket `n + cap`. */
  lemma StampOfNextLap(c: Config, n: nat)
    requires ValidConfig(c)
    ensures WrappingAdd(Stamp(c, n), c.oneLap) == Stamp(c, n + c.cap)
  {
    hide Mul;
    SlotOfNextLap(c, n);
    SlotBound(c, n);
    LapWord(c, n, Slot(c, n));
  }

  /** The word the code moves an end to is the stamp of the next ticket. */
  lemma NextStampOk(c: Config, n: nat)
    requires ValidConfig(c)
    ensures NextStamp(c, Stamp(c, n)) == Stamp(c, n + 1)
  {
    hide Mul;
    StampParts(c, n);
    SlotOfNext(c, n);
    LapWord(c, n, 0);
  }

  /** Full and free stamps of one slot never coincide: a lap has room for more indices than the capacity. */
  lemma FullDiffersFromFree(c: Config, a: nat, b: nat)
    requires ValidConfig(c) && Slot(c, a) == Slot(c, b)
    ensures Stamp(c, a) + 1 != Stamp(c, b)
  {
    hide Mul;
    StampParts(c, a);
    StampParts(c, b);
    SlotBound(c, a);
    DivModUnique(Stamp(c, a) + 1, c.oneLap, Lap(c, a), Slot(c, a) + 1);
  }

  // ---------------------------------------------------------------- when stamps repeat

  /** A ticket counted as whole periods, laps of the word and a slot. */
  lemma TicketParts(c: Config, n: nat)
    requires ValidConfig(c)
    ensures n == Mul(n / c.cap / c.laps, Period(c)) + (Mul(Lap(c, n), c.cap) + Slot(c, n))
    ensures 0 <= Mul(Lap(c, n), c.cap) + Slot(c, n) < Period(c)
  {
    hide Mul;
    DivMod(n, c.cap);
    DivMod(n / c.cap, c.laps);
    var k := n / c.cap / c.laps;
    MulSum(Mul(k, c.laps), Lap(c, n), c.cap);
    MulAssoc(k, c.laps, c.cap);
    MulOne(c.cap);
    MulMonotone(0, Lap(c, n), c.cap);
    MulMonotone(Lap(c, n), c.laps - 1, c.cap);
    MulSum(c.laps - 1, 1, c.cap);
  }

  lemma MulAssoc(a: int, b: int, d: int)
    ensures Mul(Mul(a, b), d) == Mul(a, Mul(b, d))
  {
    assert (a * b) * d == a * (b * d);
  }

  lemma PeriodBound(c: Config)
    requires ValidConfig(c)
    ensures Period(c) >= 2 * c.cap
  {
    hide Mul;
    MulOne(c.cap);
    MulMonotone(2, c.laps, c.cap);
  }

  lemma EqualStampsApart(c: Config, a: nat, b: nat)
    requires ValidConfig(c) && Stamp(c, a) == Stamp(c, b)
    ensures Period(c) > 0 && (b - a) % Period(c) == 0
  {
    hide Mul;
    PeriodBound(c);
    LapsAndSlotsEqual(c, a, b);
    TicketParts(c, a);
    TicketParts(c, b);
    var ka, kb := a / c.cap / c.laps, b / c.cap / c.laps;
    MulSum(kb - ka, ka, Period(c));
    DivModUnique(b - a, Period(c), kb - ka, 0);
  }

  lemma LapsAndSlotsEqual(c: Config, a: nat, b: nat)
    requires ValidConfig(c) && Stamp(c, a) == Stamp(c, b)
    ensures Lap(c, a) == Lap(c, b) && Slot(c, a) == Slot(c, b)
  {
    hide Mul;
    SlotBound(c, a);
    SlotBound(c, b);
    PartsUnique(c.oneLap, Lap(c, a), Slot(c, a), Lap(c, b), Slot(c, b));
  }

  lemma ApartByPeriods(c: Config, a: nat, b: nat)
    requires ValidConfig(c) && Period(c) > 0 && (b - a) % Period(c) == 0
    ensures Stamp(c, a) == Stamp(c, b)
  {
    hide Mul;
    TicketParts(c, a);
    TicketParts(c, b);
    DivMod(b - a, Period(c));
    var ka, kb, k := a / c.cap / c.laps, b / c.cap / c.laps, (b - a) / Period(c);
    MulSum(k, ka, Period(c));
    var ra, rb := Mul(Lap(c, a), c.cap) + Slot(c, a), Mul(Lap(c, b), c.cap) + Slot(c, b);
    PartsUnique(Period(c), k + ka, ra, kb, rb);
    SlotBound(c, a);
    SlotBound(c, b);
    PartsUnique(c.cap, Lap(c, a), Slot(c, a), Lap(c, b), Slot(c, b));
  }

  /** Stamps repeat exactly at the period, so a compare of words is a compare of tickets less than a period apart. */
  lemma StampsEqual(c: Config, a: nat, b: nat)
    requires ValidConfig(c)
    ensures Period(c) >= 2 * c.cap
    ensures Stamp(c, a) == Stamp(c, b) <==> (b - a) % Period(c) == 0
    ensures a <= b < a + Period(c) ==> (Stamp(c, a) == Stamp(c, b) <==> a == b)
  {
    hide Mul;
    PeriodBound(c);
    if Stamp(c, a) == Stamp(c, b) { EqualStampsApart(c, a, b); }
    if (b - a) % Period(c) == 0 { ApartByPeriods(c, a, b); }
    if a <= b < a + Period(c) {
      MulOne(Period(c));
      DivModUnique(b - a, Period(c), 0, b - a);
    }
  }

  // ---------------------------------------------------------------- masks

  function Pow2(k: nat): (p: nat)
    ensures p > 0
  {
    if k == 0 then 1 else 2 * Pow2(k - 1)
  }

  lemma {:induction false} Pow2Product(k: nat, m: nat)
    ensures Mul(Pow2(k), Pow2(m)) == Pow2(k + m)
  {
    if k == 0 {
      assert Mul(1, Pow2(m)) == Pow2(m);
    } else {
      Pow2Product(k - 1, m);
      assert Mul(2 * Pow2(k - 1), Pow2(m)) == 2 * Mul(Pow2(k - 1), Pow2(m));
    }
  }

  lemma Pow2Words()
    ensures Pow2(63) == WORDS / 2 && Pow2(64) == WORDS
  {
    assert Pow2(8) == 256;
    Pow2Product(8, 8);
    Pow2Product(16, 16);
    Pow2Product(32, 32);
    assert Pow2(16) == 65536;
  }

  lemma {:induction false} Pow2Grows(k: nat, m: nat)
    requires k <= m
    ensures Pow2(k) <= Pow2(m)
  {
    if k < m { Pow2Grows(k, m - 1); }
  }

  /** `a & b`, bit by bit. */
  function BitAnd(a: nat, b: nat): (r: nat)
    ensures r <= a && r <= b
  {
    if a == 0 || b == 0 then 0 else 2 * BitAnd(a / 2, b / 2) + (if a % 2 == 1 && b % 2 == 1 then 1 else 0)
  }

  function Rem(w: nat, k: nat): nat { w % Pow2(k) }

  /** A number halved, its remainder by a power of two is halved too. */
  lemma HalfRem(w: nat, k: nat)
    requires k > 0
    ensures Rem(w, k) == 2 * Rem(w / 2, k - 1) + w % 2
  {
    hide Mul;
    var p := Pow2(k - 1);
    DivMod(w / 2, p);
    MulDouble(w / 2 / p, p);
    DivModUnique(w, 2 * p, w / 2 / p, 2 * ((w / 2) % p) + w % 2);
  }

  lemma MulDouble(q: nat, p: nat)
    ensures Mul(q, 2 * p) == 2 * Mul(q, p)
  {
  }

  lemma AndHalves(w: nat, b: nat, y: nat)
    requires y < 2
    ensures BitAnd(w, 2 * b + y) == 2 * BitAnd(w / 2, b) + (if y == 1 then w % 2 else 0)
  {
    assert (2 * b + y) / 2 == b && (2 * b + y) % 2 == y;
  }

  /** Keeping the bits from `k` up to below `n` takes the remainder by one power from the remainder by the other. */
  lemma {:induction false} MaskBits(w: nat, k: nat, n: nat)
    requires k <= n
    ensures Pow2(k) <= Pow2(n) && BitAnd(w, Pow2(n) - Pow2(k)) == Rem(w, n) - Rem(w, k)
    decreases n
  {
    hide BitAnd, Rem;
    Pow2Grows(k, n);
    NoBits(w);
    if k < n {
      HalfRem(w, n);
      if k > 0 {
        MaskBits(w / 2, k - 1, n - 1);
        HalfRem(w, k);
        AndHalves(w, Pow2(n - 1) - Pow2(k - 1), 0);
      } else {
        MaskBits(w / 2, 0, n - 1);
        NoBits(w / 2);
        AndHalves(w, Pow2(n - 1) - 1, 1);
      }
    }
  }

  lemma NoBits(w: nat)
    ensures BitAnd(w, 0) == 0 && Rem(w, 0) == 0
  {
  }

  /**
   The masks of the code are the remainders of the model: one lap is a power of two, and the complement of the mask
   within a word is what is left of the word.
   */
  lemma MasksAreRemainders(c: Config, k: nat, w: nat)
    requires k <= 64 && c.oneLap == Pow2(k) && w < WORDS
    ensures BitAnd(w, c.oneLap - 1) == IndexOf(c, w)
    ensures c.oneLap <= WORDS && BitAnd(w, WORDS - 1 - (c.oneLap - 1)) == LapOf(c, w)
  {
    hide BitAnd;
    Pow2Words();
    MaskBits(w, 0, k);
    MaskBits(w, k, 64);
  }
}
