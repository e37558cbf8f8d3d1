/** Locations form a forest through their parent links. This module computes the
    strict descendants of a location from the parent map alone. */
module LocationTree {
  import opened Records

  type Locations = map<LocationId, Location>

  /** `x` is `root`, or following at most `fuel` parent links from `x` reaches `root`. */
  predicate Under(locs: Locations, x: LocationId, root: LocationId, fuel: nat)
    decreases fuel
  {
    x == root
    || (fuel > 0 && x in locs && locs[x].parent.Some?
        && Under(locs, locs[x].parent.value, root, fuel - 1))
  }

  /** Following parent links from `x` reaches a top-level location within `fuel` steps,
      and every location on the way is stored. */
  predicate ReachesTop(locs: Locations, x: LocationId, fuel: nat)
    decreases fuel
  {
    x in locs
    && (locs[x].parent.None? || (fuel > 0 && ReachesTop(locs, locs[x].parent.value, fuel - 1)))
  }

  /** The parent links form a forest: no chain of parents is longer than the number of
      locations, so there is no cycle and no dangling parent. */
  ghost predicate Forest(locs: Locations)
  {
    forall x :: x in locs ==> ReachesTop(locs, x, |locs|)
  }

  /** Two location maps hold the same locations under the same parents. */
  ghost predicate SameTree(a: Locations, b: Locations)
  {
    a.Keys == b.Keys && forall x :: x in a ==> b[x].parent == a[x].parent
  }

  /** The strict descendants of `root`: every stored location other than `root` whose chain
      of parents passes through `root`. */
  function Descendants(locs: Locations, root: LocationId): (d: set<LocationId>)
    ensures d <= locs.Keys
    ensures root !in d
  {
    set x | x in locs && x != root && Under(locs, x, root, |locs|)
  }

  lemma {:induction false} UnderMonotone(locs: Locations, x: LocationId, root: LocationId, f: nat, g: nat)
    requires Under(locs, x, root, f) && f <= g
    ensures Under(locs, x, root, g)
    decreases f
  {
    if x != root {
      UnderMonotone(locs, locs[x].parent.value, root, f - 1, g - 1);
    }
  }

  /** If `root` lies on the chain of parents of `x`, it lies within the part of the chain that
      leads to the top. */
  lemma {:induction false} UnderWithinTop(locs: Locations, x: LocationId, root: LocationId, f: nat, g: nat)
    requires Under(locs, x, root, f) && ReachesTop(locs, x, g)
    ensures Under(locs, x, root, g)
    decreases f
  {
    if x != root {
      UnderWithinTop(locs, locs[x].parent.value, root, f - 1, g - 1);
    }
  }

  lemma {:induction false} UnderSameTree(a: Locations, b: Locations, x: LocationId, root: LocationId, f: nat)
    requires SameTree(a, b) && Under(a, x, root, f)
    ensures Under(b, x, root, f)
    decreases f
  {
    if x != root {
      UnderSameTree(a, b, a[x].parent.value, root, f - 1);
    }
  }

  lemma {:induction false} ReachesTopSameTree(a: Locations, b: Locations, x: LocationId, f: nat)
    requires SameTree(a, b) && ReachesTop(a, x, f)
    ensures ReachesTop(b, x, f)
    decreases f
  {
    if a[x].parent.Some? {
      ReachesTopSameTree(a, b, a[x].parent.value, f - 1);
    }
  }

  /** Descendants, and the forest invariant, depend on the parent links only: changing any
      other field of the locations leaves them as they were. */
  lemma SameTreeKeepsDescendants(a: Locations, b: Locations, root: LocationId)
    requires SameTree(a, b)
    ensures Descendants(a, root) == Descendants(b, root)
    ensures Forest(a) ==> Forest(b)
  {
    assert |a| == |b| by { assert a.Keys == b.Keys; }
    forall x | x in a && Under(a, x, root, |a|)
      ensures Under(b, x, root, |b|)
    {
      UnderSameTree(a, b, x, root, |a|);
    }
    assert SameTree(b, a);
    forall x | x in b && Under(b, x, root, |b|)
      ensures Under(a, x, root, |a|)
    {
      UnderSameTree(b, a, x, root, |b|);
    }
    if Forest(a) {
      forall x | x in b
        ensures ReachesTop(b, x, |b|)
      {
        ReachesTopSameTree(a, b, x, |a|);
      }
    }
  }

  /** In a forest, the strict descendants of `root` are exactly its children and the
      children of its strict descendants. */
  lemma DescendantsStep(locs: Locations, root: LocationId, x: LocationId)
    requires Forest(locs)
    ensures x in Descendants(locs, root)
        <==> (x in locs && x != root && locs[x].parent.Some?
              && (locs[x].parent.value == root || locs[x].parent.value in Descendants(locs, root)))
  {
    var n := |locs|;
    if x in locs && x != root && locs[x].parent.Some? {
      var q := locs[x].parent.value;
      if x in Descendants(locs, root) && q != root {
        UnderMonotone(locs, q, root, n - 1, n);
      }
      if q == root || q in Descendants(locs, root) {
        assert Under(locs, q, root, n);
        assert Under(locs, x, root, n + 1);
        UnderWithinTop(locs, x, root, n + 1, n);
      }
    }
  }

  /** A child of `root` is always one of its strict descendants. */
  lemma ChildIsDescendant(locs: Locations, root: LocationId, x: LocationId)
    requires x in locs && x != root && locs[x].parent == Some(root)
    ensures x in Descendants(locs, root)
  {
    assert |locs| >= 1 by { assert x in locs.Keys; }
    assert Under(locs, root, root, |locs| - 1);
    assert Under(locs, x, root, |locs|);
  }
}
