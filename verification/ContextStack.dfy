/**
 The generator context stack of a thread (mco-gen/src/rt.rs). A thread's root and the contexts running on it form a
 ring: each context points to its parent, and the root points to the top. A suspended coroutine with the generators
 nested in it is a ring of the same shape, the coroutine pointing to its own top. Resuming splices one ring into the
 other, suspending cuts it out again.
 */
module ContextStack {
  import opened Common

  class Context {
    var parent: Context?
    var child: Context?
    /** What `local_data` points to; only coroutines have any. */
    var localData: Option<nat>

    constructor ()
      ensures parent == null && child == null && localData == None
    {
      parent, child, localData := null, null, None;
    }
  }

  /** From the bottom up: children up, parents down, and the bottom closes the ring at the top. */
  ghost predicate Ring(xs: seq<Context>)
    reads xs
  {
    && |xs| >= 1 && (forall i, j :: 0 <= i < j < |xs| ==> xs[i] != xs[j])
    && xs[0].parent == xs[|xs| - 1] && xs[|xs| - 1].child == null
    && (forall i :: 0 < i < |xs| ==> xs[i].parent == xs[i - 1])
    && (forall i :: 0 <= i < |xs| - 1 ==> xs[i].child == xs[i + 1])
  }

  ghost predicate Disjoint(xs: seq<Context>, ys: seq<Context>) {
    forall i, j :: 0 <= i < |xs| && 0 <= j < |ys| ==> xs[i] != ys[j]
  }

  ghost function At(xs: seq<Context>, i: int): Context
    requires 0 <= i < |xs|
  {
    xs[i]
  }

  /** The root of a thread, as `ROOT_CONTEXT` sets it up: a ring of its own, with nothing on it. */
  method NewRoot() returns (root: Context)
    ensures fresh(root) && Ring([root]) && root.localData == None
  {
    root := new Context();
    root.parent := root;
  }

  /** `push_context`: the suspended ring goes on top of the thread's ring. */
  method PushContext(root: Context, ctx: Context, ghost chain: seq<Context>, ghost seg: seq<Context>)
    requires Ring(chain) && chain[0] == root && Ring(seg) && seg[0] == ctx && Disjoint(chain, seg)
    modifies root`parent, At(chain, |chain| - 1)`child, ctx`parent
    ensures Ring(chain + seg)
  {
    var top := root.parent;
    var newTop := ctx.parent;
    top.child := ctx;
    ctx.parent := top;
    root.parent := newTop;
    ghost var all := chain + seg;
    assert forall i :: 0 < i < |seg| ==> seg[i] != ctx;
    assert forall i :: 0 <= i < |chain| - 1 ==> chain[i] != chain[|chain| - 1];
  }

  /** `pop_context`: the ring of `ctx` and all above it is cut out; the parent becomes the top. */
  method PopContext(root: Context, ctx: Context, ghost chain: seq<Context>, ghost k: int) returns (parent: Context)
    requires Ring(chain) && chain[0] == root && 0 < k < |chain| && chain[k] == ctx
    modifies root`parent, At(chain, k - 1)`child, ctx`parent
    ensures Ring(chain[..k]) && Ring(chain[k..])
    ensures parent == chain[k - 1] && root.parent == parent
  {
    parent := ctx.parent;
    ctx.parent := root.parent;
    parent.child := null;
    root.parent := parent;
    ghost var low, high := chain[..k], chain[k..];
    assert forall i :: 0 <= i < |low| ==> low[i] == chain[i];
    assert forall i :: 0 <= i < |high| ==> high[i] == chain[k + i];
    assert high[|high| - 1] == chain[|chain| - 1];
  }

  /** The links of place `i` in a ring. */
  ghost function ParentAt(xs: seq<Context>, i: int): Context
    requires 0 <= i < |xs|
  {
    if i == 0 then xs[|xs| - 1] else xs[i - 1]
  }

  ghost function ChildAt(xs: seq<Context>, i: int): Context?
    requires 0 <= i < |xs|
  {
    if i == |xs| - 1 then null else xs[i + 1]
  }

  /** A ring fixes every link of its contexts. */
  lemma RingAt(xs: seq<Context>, i: int)
    requires Ring(xs) && 0 <= i < |xs|
    ensures xs[i].parent == ParentAt(xs, i) && xs[i].child == ChildAt(xs, i)
  {
  }

  /** Suspending a coroutine and resuming it at once puts every link back. */
  method SuspendResume(root: Context, ctx: Context, ghost chain: seq<Context>, ghost k: int)
    requires Ring(chain) && chain[0] == root && 0 < k < |chain| && chain[k] == ctx
    modifies root`parent, At(chain, k - 1)`child, ctx`parent
    ensures Ring(chain)
    ensures forall i :: 0 <= i < |chain| ==>
        chain[i].parent == old(chain[i].parent) && chain[i].child == old(chain[i].child)
  {
    hide Ring, Disjoint;
    AllLinks(chain);
    PartsOf(chain, k);
    var parent := PopContext(root, ctx, chain, k);
    PushContext(root, ctx, chain[..k], chain[k..]);
    assert chain[..k] + chain[k..] == chain;
    AllLinks(chain);
  }

  lemma AllLinks(xs: seq<Context>)
    requires Ring(xs)
    ensures forall i :: 0 <= i < |xs| ==> xs[i].parent == ParentAt(xs, i) && xs[i].child == ChildAt(xs, i)
  {
    forall i | 0 <= i < |xs|
      ensures xs[i].parent == ParentAt(xs, i) && xs[i].child == ChildAt(xs, i)
    {
      RingAt(xs, i);
    }
  }

  lemma PartsOf(xs: seq<Context>, k: int)
    requires Ring(xs) && 0 < k < |xs|
    ensures Disjoint(xs[..k], xs[k..]) && xs[..k][0] == xs[0] && xs[k..][0] == xs[k]
  {
  }

  /** A coroutine suspended on one thread and resumed on another takes its generators along, links untouched. */
  method Migrate(from: Context, to: Context, ctx: Context, ghost a: seq<Context>, ghost k: int, ghost b: seq<Context>)
    requires Ring(a) && a[0] == from && 0 < k < |a| && a[k] == ctx && Ring(b) && b[0] == to && Disjoint(a, b)
    modifies a, b
    ensures Ring(a[..k]) && Ring(b + a[k..])
    ensures forall i :: k < i < |a| ==> a[i].parent == old(a[i].parent) && a[i].child == old(a[i].child)
    ensures ctx.child == old(ctx.child) && ctx.parent == b[|b| - 1]
  {
    ghost var low, seg := a[..k], a[k..];
    assert forall i :: 0 <= i < |low| ==> low[i] == a[i];
    assert forall i :: 0 <= i < |seg| ==> seg[i] == a[k + i];
    var parent := PopContext(from, ctx, a, k);
    assert forall c :: c in low ==> c != ctx && c !in b;
    PushContext(to, ctx, b, seg);
    assert (b + seg)[|b|] == ctx && (b + seg)[|b| - 1] == b[|b| - 1];
  }

  // ---------------------------------------------------------------- looking from the top

  /** The place of the innermost coroutine at or below place `k`, or zero. */
  ghost function Innermost(chain: seq<Context>, k: int): (i: int)
    requires 0 <= k < |chain|
    reads chain
    ensures 0 <= i <= k
    ensures i > 0 ==> chain[i].localData.Some?
    ensures forall j :: i < j <= k ==> chain[j].localData.None?
  {
    if k == 0 then 0 else if chain[k].localData.Some? then k else Innermost(chain, k - 1)
  }

  /** `top`. */
  method Top(root: Context, ghost chain: seq<Context>) returns (c: Context)
    requires Ring(chain) && chain[0] == root
    ensures c == chain[|chain| - 1]
  {
    c := root.parent;
  }

  /** `co_ctx`: the innermost coroutine on the thread, if there is one. */
  method CoCtx(root: Context, ghost chain: seq<Context>) returns (c: Context?)
    requires Ring(chain) && chain[0] == root
    ensures var i := Innermost(chain, |chain| - 1); c == if i == 0 then null else chain[i]
  {
    var ctx: Context := root.parent;
    ghost var k := |chain| - 1;
    while ctx != root
      invariant 0 <= k < |chain| && chain[k] == ctx
      invariant Innermost(chain, |chain| - 1) == Innermost(chain, k)
      decreases k
    {
      if ctx.localData.Some? { return ctx; }
      ctx := ctx.parent;
      k := k - 1;
    }
    assert k == 0;
    c := null;
  }

  /** `get_local_data`: the data of that coroutine. */
  method GetLocalData(root: Context, ghost chain: seq<Context>) returns (d: Option<nat>)
    requires Ring(chain) && chain[0] == root
    ensures var i := Innermost(chain, |chain| - 1); d == if i == 0 then None else chain[i].localData
  {
    var ctx: Context := root.parent;
    ghost var k := |chain| - 1;
    while ctx != root
      invariant 0 <= k < |chain| && chain[k] == ctx
      invariant Innermost(chain, |chain| - 1) == Innermost(chain, k)
      decreases k
    {
      if ctx.localData.Some? { return ctx.localData; }
      ctx := ctx.parent;
      k := k - 1;
    }
    assert k == 0;
    d := None;
  }

  /** `is_generator`: something runs above the root. */
  method IsGenerator(root: Context, ghost chain: seq<Context>) returns (b: bool)
    requires Ring(chain) && chain[0] == root
    ensures b <==> |chain| > 1
  {
    RingAt(chain, 0);
    b := root.child != null;
  }

  /** The innermost coroutine is above everything below it that is one, and nothing above it is. */
  lemma InnermostIsInnermost(chain: seq<Context>, i: int)
    requires 0 < i < |chain|
    ensures Innermost(chain, |chain| - 1) == i <==>
      chain[i].localData.Some? && forall j :: i < j < |chain| ==> chain[j].localData.None?
  {
    InnermostUnique(chain, |chain| - 1, i);
  }

  lemma {:induction false} InnermostUnique(chain: seq<Context>, k: int, i: int)
    requires 0 < i <= k < |chain|
    ensures chain[i].localData.Some? && (forall j :: i < j <= k ==> chain[j].localData.None?) ==>
        Innermost(chain, k) == i
  {
    if i < k {
      InnermostUnique(chain, k - 1, i);
      assert k - 1 >= i;
    }
  }

  /** A resumed segment brings its own coroutine: what was innermost below is so again once it is cut out. */
  lemma {:induction false} InnermostBelow(chain: seq<Context>, seg: seq<Context>, k: int)
    requires 0 <= k < |chain|
    ensures Innermost(chain + seg, k) == Innermost(chain, k)
  {
    assert (chain + seg)[k] == chain[k];
    if k > 0 { InnermostBelow(chain, seg, k - 1); }
  }
}
