/**
 * Path operations on a nested configuration tree: lookup, insertion, removal and deep merge.
 * Paths are already split into segments here (see module Paths).
 */
module Tree {
  import opened Values

  /** The value found by walking `p` from `v`; Null when a segment is missing or crosses a non-mapping. */
  function At(v: Value, p: seq<string>): Value
    decreases |p|
  {
    if p == [] then v
    else if v.Map? && p[0] in v.m then At(v.m[p[0]], p[1..])
    else Null
  }

  /** Sets the value at path `p`, creating missing levels and overwriting non-mapping ones with mappings. */
  function Insert(m: map<string, Value>, p: seq<string>, v: Value): (r: map<string, Value>)
    requires |p| >= 1
    ensures r.Keys == m.Keys + {p[0]}
    ensures forall k :: k in m && k != p[0] ==> r[k] == m[k]
    decreases |p|
  {
    if |p| == 1 then m[p[0] := v]
    else
      var child := if p[0] in m && m[p[0]].Map? then m[p[0]].m else map[];
      m[p[0] := Map(Insert(child, p[1..], v))]
  }

  /** Removes the leaf of path `p`; changes nothing when the path does not lead into mappings. */
  function Remove(m: map<string, Value>, p: seq<string>): (r: map<string, Value>)
    requires |p| >= 1
    ensures r.Keys <= m.Keys
    ensures forall k :: k in m && k != p[0] ==> k in r && r[k] == m[k]
    decreases |p|
  {
    if |p| == 1 then m - {p[0]}
    else if p[0] in m && m[p[0]].Map? then m[p[0] := Map(Remove(m[p[0]].m, p[1..]))]
    else m
  }

  /**
   * Deep merge of `b` into `a`: where both hold a mapping under the same key the two are merged,
   * otherwise `b`'s value wins; keys of only one side are kept as they are.
   */
  function Merge(a: map<string, Value>, b: map<string, Value>): (r: map<string, Value>)
    ensures r.Keys == a.Keys + b.Keys
    ensures forall k :: k in a && k !in b ==> r[k] == a[k]
    ensures forall k :: k in b && !(k in a && a[k].Map? && b[k].Map?) ==> r[k] == b[k]
    decreases Map(b)
  {
    map k | k in a.Keys + b.Keys ::
      if k in b then
        if k in a && a[k].Map? && b[k].Map? then
          assert b[k] in b.Values;
          Map(Merge(a[k].m, b[k].m))
        else b[k]
      else a[k]
  }

  /** Two paths that part ways at some segment: neither is a prefix of the other. */
  predicate Diverge(p: seq<string>, q: seq<string>)
    decreases |p|
  {
    |p| > 0 && |q| > 0 && (p[0] != q[0] || Diverge(p[1..], q[1..]))
  }

  /** `b` has no entry at `p` nor at any prefix of `p`, except mappings leading towards it. */
  predicate NotOverridden(b: map<string, Value>, p: seq<string>)
    requires |p| >= 1
    decreases |p|
  {
    p[0] !in b || (|p| > 1 && b[p[0]].Map? && NotOverridden(b[p[0]].m, p[1..]))
  }

  // ----- Insert -----

  /** After inserting `v` at `p`, the paths at and below `p` read `v` and its parts. */
  lemma {:induction false} AtInsertBeneath(m: map<string, Value>, p: seq<string>, v: Value, q: seq<string>)
    requires |p| >= 1
    ensures At(Map(Insert(m, p, v)), p + q) == At(v, q)
    decreases |p|
  {
    assert (p + q)[0] == p[0] && (p + q)[1..] == p[1..] + q;
    if |p| > 1 {
      var child := if p[0] in m && m[p[0]].Map? then m[p[0]].m else map[];
      AtInsertBeneath(child, p[1..], v, q);
    }
  }

  /** Inserting at `p` leaves every path that diverges from `p` as it was. */
  lemma {:induction false} AtInsertOther(m: map<string, Value>, p: seq<string>, v: Value, q: seq<string>)
    requires |p| >= 1 && Diverge(p, q)
    ensures At(Map(Insert(m, p, v)), q) == At(Map(m), q)
    decreases |p|
  {
    if p[0] == q[0] {
      var child := if p[0] in m && m[p[0]].Map? then m[p[0]].m else map[];
      AtInsertOther(child, p[1..], v, q[1..]);
      if !(p[0] in m && m[p[0]].Map?) {
        AtEmpty(q[1..]);
        if p[0] in m {
          AtScalar(m[p[0]], q[1..]);
        }
      }
    }
  }

  lemma AtEmpty(q: seq<string>)
    requires |q| >= 1
    ensures At(Map(map[]), q) == Null
  {
  }

  lemma AtScalar(v: Value, q: seq<string>)
    requires |q| >= 1 && !v.Map?
    ensures At(v, q) == Null
  {
  }

  /** The value a write at path `p` builds where nothing was: one single-entry mapping per segment. */
  function Nest(p: seq<string>, v: Value): Value
    requires |p| >= 1
    decreases |p|
  {
    if |p| == 1 then Map(map[p[0] := v]) else Map(map[p[0] := Nest(p[1..], v)])
  }

  /** Inserting into an empty mapping builds exactly the nested levels of the path. */
  lemma {:induction false} InsertEmpty(p: seq<string>, v: Value)
    requires |p| >= 1
    ensures Map(Insert(map[], p, v)) == Nest(p, v)
    decreases |p|
  {
    if |p| > 1 {
      InsertEmpty(p[1..], v);
    }
  }

  /** A deep write below a path that holds no mapping creates the missing levels there. */
  lemma {:induction false} AtInsertFresh(m: map<string, Value>, p: seq<string>, rest: seq<string>, v: Value)
    requires |p| >= 1 && |rest| >= 1 && !At(Map(m), p).Map?
    ensures At(Map(Insert(m, p + rest, v)), p) == Nest(rest, v)
    decreases |p|
  {
    var k := p[0];
    assert (p + rest)[0] == k && (p + rest)[1..] == p[1..] + rest;
    var child := if k in m && m[k].Map? then m[k].m else map[];
    if |p| == 1 {
      InsertEmpty(rest, v);
    } else {
      if !(k in m && m[k].Map?) {
        AtEmpty(p[1..]);
      }
      AtInsertFresh(child, p[1..], rest, v);
    }
  }

  // ----- Remove -----

  /** After removing `p`, the path `p` and every path beneath it read Null. */
  lemma {:induction false} AtRemoveBeneath(m: map<string, Value>, p: seq<string>, q: seq<string>)
    requires |p| >= 1
    ensures At(Map(Remove(m, p)), p + q) == Null
    decreases |p|
  {
    assert (p + q)[0] == p[0] && (p + q)[1..] == p[1..] + q;
    if |p| > 1 {
      if p[0] in m && m[p[0]].Map? {
        AtRemoveBeneath(m[p[0]].m, p[1..], q);
      } else if p[0] in m {
        AtScalar(m[p[0]], p[1..] + q);
      }
    }
  }

  /** Removing `p` leaves every path that diverges from `p` as it was. */
  lemma {:induction false} AtRemoveOther(m: map<string, Value>, p: seq<string>, q: seq<string>)
    requires |p| >= 1 && Diverge(p, q)
    ensures At(Map(Remove(m, p)), q) == At(Map(m), q)
    decreases |p|
  {
    if p[0] == q[0] && p[0] in m && m[p[0]].Map? {
      AtRemoveOther(m[p[0]].m, p[1..], q[1..]);
    }
  }

  /** Removing child `k` of a mapping at `p` leaves that mapping without `k` and nothing else changed. */
  lemma {:induction false} AtRemoveChild(m: map<string, Value>, p: seq<string>, k: string, c: map<string, Value>)
    requires At(Map(m), p) == Map(c)
    ensures At(Map(Remove(m, p + [k])), p) == Map(c - {k})
    decreases |p|
  {
    if p == [] {
      assert Remove(m, [k]) == m - {k};
    } else {
      assert (p + [k])[0] == p[0] && (p + [k])[1..] == p[1..] + [k];
      assert p[0] in m && m[p[0]].Map?;
      AtRemoveChild(m[p[0]].m, p[1..], k, c);
    }
  }

  /** Two paths that share a prefix and then name different keys diverge. */
  lemma {:induction false} SiblingsDiverge(p: seq<string>, a: string, x: seq<string>, b: string, y: seq<string>)
    requires a != b
    ensures Diverge(p + [a] + x, p + [b] + y)
    decreases |p|
  {
    if p != [] {
      assert (p + [a] + x)[1..] == p[1..] + [a] + x;
      assert (p + [b] + y)[1..] == p[1..] + [b] + y;
      SiblingsDiverge(p[1..], a, x, b, y);
    }
  }

  // ----- Merge -----

  /** A non-mapping value that `b` holds at `p` is what the merge holds there: loaded scalars win. */
  lemma {:induction false} MergeWins(a: map<string, Value>, b: map<string, Value>, p: seq<string>)
    requires At(Map(b), p) != Null && !At(Map(b), p).Map?
    ensures At(Map(Merge(a, b)), p) == At(Map(b), p)
    decreases |p|
  {
    var r := Merge(a, b);
    assert p != [] && p[0] in b;
    var k := p[0];
    if |p| > 1 {
      assert b[k].Map?;
      if k in a && a[k].Map? {
        MergeWins(a[k].m, b[k].m, p[1..]);
      }
    }
  }

  /** A value of `a` that `b` does not override at any level survives the merge. */
  lemma {:induction false} MergeKeeps(a: map<string, Value>, b: map<string, Value>, p: seq<string>)
    requires |p| >= 1 && NotOverridden(b, p)
    ensures At(Map(Merge(a, b)), p) == At(Map(a), p)
    decreases |p|
  {
    var k := p[0];
    if k in b {
      if k in a && a[k].Map? {
        MergeKeeps(a[k].m, b[k].m, p[1..]);
      } else {
        var r := Merge(a, b);
        assert r[k] == b[k];
        AtSubtree(b[k].m, p[1..]);
        if k in a {
          AtScalar(a[k], p[1..]);
        }
      }
    }
  }

  /** A path that `b` does not override finds nothing in `b`. */
  lemma {:induction false} AtSubtree(b: map<string, Value>, p: seq<string>)
    requires |p| >= 1 && NotOverridden(b, p)
    ensures At(Map(b), p) == Null
    decreases |p|
  {
    if p[0] in b {
      AtSubtree(b[p[0]].m, p[1..]);
    }
  }

  /** Merging a tree with itself gives the same tree. */
  lemma {:induction false} MergeSelf(a: map<string, Value>)
    ensures Merge(a, a) == a
    decreases Map(a)
  {
    var r := Merge(a, a);
    forall k | k in a
      ensures r[k] == a[k]
    {
      if a[k].Map? {
        assert a[k] in a.Values;
        MergeSelf(a[k].m);
      }
    }
  }

  /** Merging in a part of `a` (a sub-map with equal values) gives `a` back. */
  lemma MergeSubmap(a: map<string, Value>, b: map<string, Value>)
    requires b.Keys <= a.Keys && forall k :: k in b ==> b[k] == a[k]
    ensures Merge(a, b) == a
  {
    var r := Merge(a, b);
    forall k | k in b
      ensures r[k] == a[k]
    {
      if a[k].Map? {
        MergeSelf(a[k].m);
      }
    }
  }
}
