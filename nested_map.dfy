/**
 * Nested configuration trees addressed by dotted key paths: the part of
 * the `object-path` library that lib/config.js uses (`get`, `has` and
 * `set` with a string key).  A tree is a scalar leaf or a map from keys to
 * subtrees; a key string is split on every `.` into a path of segments.
 */
module NestedMap {
  import opened Wrappers

  /** JSON/TOML scalars, plus JavaScript's `undefined` for an unset variable. */
  datatype Scalar = Undefined | Null | Bool(b: bool) | Num(n: int) | Str(s: string)

  datatype Tree = Leaf(value: Scalar) | Node(children: map<string, Tree>)

  type Path = seq<string>

  /** The empty object `{}`. */
  const Empty: Tree := Node(map[])

  // ---------------------------------------------------------------------
  // Key strings and paths
  // ---------------------------------------------------------------------

  /** Segments joined back with dots. */
  function Join(p: Path): string
    requires |p| >= 1
  {
    if |p| == 1 then p[0] else p[0] + "." + Join(p[1..])
  }

  /**
   * `key.split('.')`: at least one segment, no segment holds a dot, and
   * joining the segments gives the key back.
   */
  function Split(s: string): (r: Path)
    decreases |s|
    ensures |r| >= 1
    ensures forall i :: 0 <= i < |r| ==> '.' !in r[i]
    ensures Join(r) == s
  {
    if s == [] then [""]
    else
      var rest := Split(s[1..]);
      if s[0] == '.' then [""] + rest
      else [[s[0]] + rest[0]] + rest[1..]
  }

  lemma {:induction false} SplitNoDot(a: string)
    requires '.' !in a
    ensures Split(a) == [a]
    decreases |a|
  {
    if a != [] {
      SplitNoDot(a[1..]);
    }
  }

  lemma {:induction false} SplitAfterSegment(a: string, s: string)
    requires '.' !in a
    ensures Split(a + "." + s) == [a] + Split(s)
    decreases |a|
  {
    if a == [] {
      assert a + "." + s == "." + s;
      assert ("." + s)[1..] == s;
    } else {
      var x := a + "." + s;
      assert x[1..] == a[1..] + "." + s;
      SplitAfterSegment(a[1..], s);
      assert [a[0]] + a[1..] == a;
    }
  }

  /** Splitting a joined path whose segments hold no dot gives the path back. */
  lemma {:induction false} SplitJoin(p: Path)
    requires |p| >= 1
    requires forall i :: 0 <= i < |p| ==> '.' !in p[i]
    ensures Split(Join(p)) == p
    decreases |p|
  {
    if |p| == 1 {
      SplitNoDot(p[0]);
    } else {
      SplitJoin(p[1..]);
      SplitAfterSegment(p[0], Join(p[1..]));
      assert [p[0]] + p[1..] == p;
    }
  }

  // ---------------------------------------------------------------------
  // get / has / set
  // ---------------------------------------------------------------------

  /**
   * `objectPath.get`: the subtree at `p`, or `None` when a segment is
   * missing or a leaf stands in the way.
   */
  function Get(t: Tree, p: Path): Option<Tree>
    decreases p
  {
    if p == [] then Some(t)
    else match t
      case Leaf(_) => None
      case Node(m) => if p[0] in m then Get(m[p[0]], p[1..]) else None
  }

  /** `objectPath.has`: the path exists, whatever value it leads to. */
  predicate Has(t: Tree, p: Path) {
    Get(t, p).Some?
  }

  /**
   * `objectPath.set`: stores `v` at `p`, creating the missing intermediate
   * objects.  A scalar met on the way is replaced by an object: that is this
   * model's choice, which agrees with `object-path` only for `undefined`.
   */
  function Set(t: Tree, p: Path, v: Tree): (r: Tree)
    decreases p
    ensures p != [] ==> r.Node?
    ensures Get(r, p) == Some(v)
  {
    if p == [] then v
    else
      var m := if t.Node? then t.children else map[];
      var child := if p[0] in m then m[p[0]] else Empty;
      Node(m[p[0] := Set(child, p[1..], v)])
  }

  /** Neither path is a prefix of the other: they name unrelated places. */
  predicate Disjoint(p: Path, q: Path) {
    !(p <= q) && !(q <= p)
  }

  /**
   * What `Get` sees after a `Set` at `q`: below `q`, the stored value; at a
   * place unrelated to `q`, what was there before; on the way to `q`, an
   * object.
   */
  lemma {:induction false} GetSet(t: Tree, q: Path, v: Tree, p: Path)
    ensures q <= p ==> Get(Set(t, q, v), p) == Get(v, p[|q|..])
    ensures Disjoint(p, q) ==> Get(Set(t, q, v), p) == Get(t, p)
    ensures p < q ==> Get(Set(t, q, v), p).Some? && Get(Set(t, q, v), p).value.Node?
    decreases q
  {
    if q != [] && p != [] {
      var m := if t.Node? then t.children else map[];
      var child := if q[0] in m then m[q[0]] else Empty;
      GetSet(child, q[1..], v, p[1..]);
      if p[0] == q[0] {
        assert q <= p ==> q[1..] <= p[1..];
        assert p < q ==> p[1..] < q[1..];
        if q <= p {
          assert p[1..][|q[1..]|..] == p[|q|..];
        }
        assert Disjoint(p, q) ==> Disjoint(p[1..], q[1..]);
        if Disjoint(p, q) && q[0] !in m {
          assert p[1..] != [];
        }
      }
    }
  }

  /**
   * A leaf read after a `Set` was either stored by that `Set` or was already
   * there at a place the `Set` did not touch.
   */
  lemma {:induction false} SetLeafOrigin(t: Tree, q: Path, v: Tree, p: Path, x: Scalar)
    requires Get(Set(t, q, v), p) == Some(Leaf(x))
    ensures (q <= p && Get(v, p[|q|..]) == Some(Leaf(x))) || (Disjoint(p, q) && Get(t, p) == Some(Leaf(x)))
  {
    GetSet(t, q, v, p);
  }
}
