/**
 * Deep merge of configuration trees: the part of the `deepmerge` library
 * that lib/config.js uses to combine its three sources (objects only; no
 * arrays).  Where both sides hold an object the keys are united and merged
 * recursively; everywhere else the later side wins.
 */
module Merge {
  import opened Wrappers
  import opened NestedMap

  function DeepMerge(a: Tree, b: Tree): Tree
    decreases b
  {
    match b
    case Leaf(_) => b
    case Node(mb) =>
      match a
      case Leaf(_) => b
      case Node(ma) =>
        Node(map k | k in ma.Keys + mb.Keys ::
          if k in mb then (if k in ma then DeepMerge(ma[k], mb[k]) else mb[k]) else ma[k])
  }

  /**
   * `t` leaves the place `p` open: following `p` it meets only objects and
   * then a missing key.  (The other way `t` can lack `p` is a scalar
   * standing in the way, which hides `p` in a merge.)
   */
  predicate Absent(t: Tree, p: Path)
    decreases p
  {
    p != [] && t.Node? && (p[0] !in t.children || Absent(t.children[p[0]], p[1..]))
  }

  lemma {:induction false} AbsentIsMissing(t: Tree, p: Path)
    requires Absent(t, p)
    ensures !Has(t, p)
    decreases p
  {
    if p[0] in t.children {
      AbsentIsMissing(t.children[p[0]], p[1..]);
    }
  }

  /**
   * What a merged tree holds at `p`: the earlier tree's value where the later
   * one leaves `p` open, the later tree's leaf where it has one, nothing
   * where a later scalar hides `p`, and an object where the later tree has
   * an object.
   */
  lemma {:induction false} MergeGet(a: Tree, b: Tree, p: Path)
    ensures Absent(b, p) ==> Get(DeepMerge(a, b), p) == Get(a, p)
    ensures Get(b, p).Some? && Get(b, p).value.Leaf? ==> Get(DeepMerge(a, b), p) == Get(b, p)
    ensures Get(b, p).None? && !Absent(b, p) ==> Get(DeepMerge(a, b), p).None?
    ensures Get(b, p).Some? && Get(b, p).value.Node? ==>
              Get(DeepMerge(a, b), p).Some? && Get(DeepMerge(a, b), p).value.Node?
    decreases p
  {
    if p != [] && a.Node? && b.Node? {
      var k := p[0];
      var ma, mb := a.children, b.children;
      if k in mb {
        if k in ma {
          MergeGet(ma[k], mb[k], p[1..]);
        } else if Absent(b, p) {
          AbsentIsMissing(mb[k], p[1..]);
        }
      }
    } else if p != [] && b.Node? && Absent(b, p) {
      AbsentIsMissing(b, p);
    }
  }

  /** A leaf of the merge comes from the later tree, or from the earlier one where the later leaves the place open. */
  lemma MergeLeaf(a: Tree, b: Tree, p: Path, x: Scalar)
    ensures Get(DeepMerge(a, b), p) == Some(Leaf(x)) <==>
              Get(b, p) == Some(Leaf(x)) || (Absent(b, p) && Get(a, p) == Some(Leaf(x)))
  {
    MergeGet(a, b, p);
  }

  /** A place exists in the merge iff the later tree has it or leaves it open to an earlier tree that has it. */
  lemma MergeHas(a: Tree, b: Tree, p: Path)
    ensures Has(DeepMerge(a, b), p) <==> Has(b, p) || (Absent(b, p) && Has(a, p))
  {
    MergeGet(a, b, p);
  }

  /** Merging into `{}` copies the tree. */
  lemma MergeIntoEmpty(t: Tree)
    ensures DeepMerge(Empty, t) == t
  {
    if t.Node? {
      assert DeepMerge(Empty, t).children == t.children;
    }
  }

  /** Merging `{}` into an object changes nothing. */
  lemma MergeEmpty(t: Tree)
    requires t.Node?
    ensures DeepMerge(t, Empty) == t
  {
    assert DeepMerge(t, Empty).children == t.children;
  }
}
