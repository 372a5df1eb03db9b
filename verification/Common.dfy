/** Vocabulary shared by the component models. */
module Common {

  datatype Option<+T> = None | Some(value: T)

  /** Threads and coroutines are named by numbers; any number of them may exist. */
  type Tid = nat

  function Bit(b: bool): nat { if b then 1 else 0 }

  ghost predicate Distinct<T>(xs: seq<T>) {
    forall i, j :: 0 <= i < j < |xs| ==> xs[i] != xs[j]
  }

  function Omit<T>(xs: seq<T>, i: int): seq<T>
    requires 0 <= i < |xs|
  {
    xs[..i] + xs[i + 1..]
  }

  /** The set with or without `x`. */
  function Put(xs: set<nat>, x: nat, isIn: bool): set<nat> { if isIn then xs + {x} else xs - {x} }

  lemma PutSize(xs: set<nat>, x: nat, isIn: bool)
    ensures |Put(xs, x, isIn)| == |xs| - Bit(x in xs) + Bit(isIn)
    ensures forall y :: y in Put(xs, x, isIn) <==> if y == x then isIn else y in xs
  {
    if x in xs { assert xs - {x} + {x} == xs; }
  }

  function Get<T>(m: map<nat, T>, x: nat): Option<T> {
    if x in m then Some(m[x]) else None
  }
}
