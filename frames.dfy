/** Window handles and the walk up their `parent` links that both context variants run to build
    the ancestor chain (3p/ampcontext.js and ads/google/a4a/ampcontext.js, the `for` loop with
    `ancestors.unshift(win.parent)`). */
module Frames {
  import opened Js

  /** An opaque window handle. */
  type Win = nat

  /** The windows the walk can reach. `parentOf[w]` is `w.parent`: a window, or `None` when it is
      undefined (as for the parent of the unit tests' mock window); a top-level window is its own
      parent. `hops[w]` is how many times the walk started at w runs its body. */
  datatype WindowGraph = WindowGraph(parentOf: map<Win, Option<Win>>, hops: map<Win, nat>) {

    /** Browsers nest frames finitely: from any window, parent links reach a window that is its own
        parent, or an undefined parent, after exactly `hops` steps. */
    ghost predicate Valid() {
      forall w :: w in parentOf ==> w in hops && StepCounted(w)
    }

    ghost predicate StepCounted(w: Win)
      requires w in parentOf && w in hops
    {
      var p := parentOf[w];
      if p.None? then hops[w] == 1
      else if p.value == w then hops[w] == 0
      else p.value in parentOf && p.value in hops && hops[w] == hops[p.value] + 1
    }

    /** The termination measure of the walk; an undefined window ends it at once. */
    function Measure(w: Option<Win>): nat {
      if w.Some? && w.value in hops then hops[w.value] else 0
    }

    /** The window the walk reaches after n parent steps from w (`None` once it is undefined). */
    ghost function Up(w: Option<Win>, n: nat): Option<Win>
      requires Valid() && (w.Some? ==> w.value in parentOf)
      decreases n
    {
      if n == 0 || w.None? then w else Up(parentOf[w.value], n - 1)
    }
  }

  /** The chain the loop builds from w: every parent it meets, the top-most first. */
  ghost function Ancestors(f: WindowGraph, w: Option<Win>): seq<Option<Win>>
    requires f.Valid() && (w.Some? ==> w.value in f.parentOf)
    decreases f.Measure(w)
  {
    if w.None? || f.parentOf[w.value] == w then []
    else Ancestors(f, f.parentOf[w.value]) + [f.parentOf[w.value]]
  }

  /** A window at the head of the chain: the top window (its own parent), or undefined. */
  ghost predicate IsTopOrUndefined(f: WindowGraph, w: Option<Win>) {
    w.None? || (w.value in f.parentOf && f.parentOf[w.value] == w)
  }

  /** `ancestors[i]`, which is undefined when i is out of range. */
  function At(ancestors: seq<Option<Win>>, i: nat): Option<Win> {
    if i < |ancestors| then ancestors[i] else None
  }

  /** The loop of both constructors:
      `for (let win = start; win && win != win.parent; win = win.parent) ancestors.unshift(win.parent)`. */
  method CollectAncestors(f: WindowGraph, start: Win) returns (ancestors: seq<Option<Win>>)
    requires f.Valid() && start in f.parentOf
    ensures ancestors == Ancestors(f, Some(start))
  {
    ancestors := [];
    var win: Option<Win> := Some(start);
    while win.Some? && f.parentOf[win.value] != win
      invariant win.Some? ==> win.value in f.parentOf
      invariant Ancestors(f, win) + ancestors == Ancestors(f, Some(start))
      decreases f.Measure(win)
    {
      ancestors := [f.parentOf[win.value]] + ancestors;
      win := f.parentOf[win.value];
    }
  }

  /** The shape of the chain: one entry per hop; the last is `start.parent`; the first is the top
      window (or undefined); and each entry is the parent of the next. */
  lemma {:induction false} AncestorChainShape(f: WindowGraph, w: Win)
    requires f.Valid() && w in f.parentOf
    decreases f.hops[w]
    ensures var a := Ancestors(f, Some(w));
      && |a| == f.hops[w]
      && (|a| > 0 ==> a[|a| - 1] == f.parentOf[w] && IsTopOrUndefined(f, a[0]))
      && (forall j :: 0 < j < |a| ==> a[j].Some? && a[j].value in f.parentOf && f.parentOf[a[j].value] == a[j - 1])
  {
    var a := Ancestors(f, Some(w));
    assert f.StepCounted(w);
    var p := f.parentOf[w];
    if p == Some(w) {
      assert a == [];
    } else if p.None? {
      assert Ancestors(f, p) == [];
      assert a == [None];
    } else {
      var q := p.value;
      AncestorChainShape(f, q);
      var b := Ancestors(f, p);
      assert a == b + [p];
      if |b| > 0 {
        assert a[0] == b[0];
      } else {
        assert f.StepCounted(q);
      }
    }
  }

  /** Entry i of the chain is the window `|chain| - i` parent steps above start, so index `depth`
      counts hops down from the top. */
  lemma {:induction false} AncestorChainPositions(f: WindowGraph, w: Win)
    requires f.Valid() && w in f.parentOf
    decreases f.hops[w]
    ensures forall i :: 0 <= i < |Ancestors(f, Some(w))| ==>
              Ancestors(f, Some(w))[i] == f.Up(Some(w), |Ancestors(f, Some(w))| - i)
  {
    var a := Ancestors(f, Some(w));
    assert f.StepCounted(w);
    var p := f.parentOf[w];
    if p == Some(w) {
      assert a == [];
    } else if p.None? {
      assert Ancestors(f, p) == [];
      assert f.Up(Some(w), 1) == f.Up(None, 0);
    } else {
      var q := p.value;
      AncestorChainPositions(f, q);
      var b := Ancestors(f, Some(q));
      assert a == b + [p];
      forall i | 0 <= i < |a| ensures a[i] == f.Up(Some(w), |a| - i) {
        if i < |b| {
          assert b[i] == f.Up(Some(q), |b| - i);
          assert a[i] == b[i];
        } else {
          assert f.Up(p, 0) == p;
        }
      }
    }
  }

  /** Depth is measured from the top: a target the chain has at index depth is the window
      `hops - depth` parent steps above start, and depth 0 names the top window. */
  lemma DepthCountsFromTop(f: WindowGraph, w: Win, depth: nat)
    requires f.Valid() && w in f.parentOf
    requires At(Ancestors(f, Some(w)), depth).Some?
    ensures depth < f.hops[w]
    ensures At(Ancestors(f, Some(w)), depth) == f.Up(Some(w), f.hops[w] - depth)
    ensures depth == 0 ==> IsTopOrUndefined(f, At(Ancestors(f, Some(w)), depth))
  {
    AncestorChainShape(f, w);
    AncestorChainPositions(f, w);
  }
}
