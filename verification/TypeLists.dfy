/**
 The type-list templates of `type-traits.h` on sequences of type names: contains, union,
 union of many, and subtraction.
 */
module TypeLists {
  import opened Sequences

  type Type = nat
  type Types = seq<Type>

  function Intersection(l: Types, r: Types): Types {
    if l == [] then [] else (if l[0] in r then [l[0]] else []) + Intersection(l[1..], r)
  }

  function UniqueLeft(l: Types, r: Types): Types {
    if l == [] then [] else (if l[0] in r then [] else [l[0]]) + UniqueLeft(l[1..], r)
  }

  function UniqueRight(l: Types, r: Types): Types {
    if r == [] then [] else (if r[0] in l then [] else [r[0]]) + UniqueRight(l, r[1..])
  }

  /** `tuple_types_union_t`: what only the left has, what only the right has, what both have. */
  function Union(l: Types, r: Types): Types {
    if r == [] then l
    else if l == [] then r
    else UniqueLeft(l, r) + UniqueRight(l, r) + Intersection(l, r)
  }

  /** `tuple_types_union_all_t`, which takes its operands two at a time. */
  function UnionAll(tuples: seq<Types>): Types {
    if |tuples| == 0 then []
    else if |tuples| == 1 then tuples[0]
    else Union(Union(tuples[0], tuples[1]), UnionAll(tuples[2..]))
  }

  function Subtract(ts: Types, excluded: Types): Types {
    if ts == [] then [] else (if ts[0] in excluded then [] else [ts[0]]) + Subtract(ts[1..], excluded)
  }

  lemma {:induction false} PartsMembers(l: Types, r: Types, t: Type)
    ensures t in Intersection(l, r) <==> t in l && t in r
    ensures t in UniqueLeft(l, r) <==> t in l && t !in r
    decreases |l|
  {
    if l != [] {
      PartsMembers(l[1..], r, t);
    }
  }

  /** `unique_right` is `unique_left` with the operands exchanged. */
  lemma {:induction false} RightIsLeft(l: Types, r: Types)
    ensures UniqueRight(l, r) == UniqueLeft(r, l)
    decreases |r|
  {
    if r != [] {
      RightIsLeft(l, r[1..]);
    }
  }

  lemma {:induction false} PartsDistinct(l: Types, r: Types)
    requires Distinct(l)
    ensures Distinct(Intersection(l, r)) && Distinct(UniqueLeft(l, r))
    decreases |l|
  {
    if l != [] {
      PartsDistinct(l[1..], r);
      PartsMembers(l[1..], r, l[0]);
      assert l[0] !in l[1..];
    }
  }

  /** Union is set union. */
  lemma {:induction false} UnionMembers(l: Types, r: Types, t: Type)
    ensures t in Union(l, r) <==> t in l || t in r
  {
    PartsMembers(l, r, t);
    PartsMembers(r, l, t);
    RightIsLeft(l, r);
  }

  /** Union adds no duplicates. */
  lemma {:induction false} UnionDistinct(l: Types, r: Types)
    requires Distinct(l) && Distinct(r)
    ensures Distinct(Union(l, r))
  {
    PartsDistinct(l, r);
    PartsDistinct(r, l);
    RightIsLeft(l, r);
    var a, b, c := UniqueLeft(l, r), UniqueRight(l, r), Intersection(l, r);
    forall t ensures !(t in a && t in b) && !(t in a && t in c) && !(t in b && t in c) {
      PartsMembers(l, r, t);
      PartsMembers(r, l, t);
    }
    ConcatDistinct(a, b);
    ConcatDistinct(a + b, c);
  }

  lemma {:induction false} UnionAllMembers(tuples: seq<Types>, t: Type)
    ensures t in UnionAll(tuples) <==> exists i :: 0 <= i < |tuples| && t in tuples[i]
    decreases |tuples|
  {
    if |tuples| > 1 {
      UnionAllMembers(tuples[2..], t);
      UnionMembers(tuples[0], tuples[1], t);
      UnionMembers(Union(tuples[0], tuples[1]), UnionAll(tuples[2..]), t);
      if i :| 0 <= i < |tuples| && t in tuples[i] {
        assert i >= 2 ==> tuples[2..][i - 2] == tuples[i];
      }
      if i :| 0 <= i < |tuples[2..]| && t in tuples[2..][i] {
        assert tuples[i + 2] == tuples[2..][i];
      }
    }
  }

  lemma {:induction false} SubtractMembers(ts: Types, excluded: Types, t: Type)
    ensures t in Subtract(ts, excluded) <==> t in ts && t !in excluded
    decreases |ts|
  {
    if ts != [] {
      SubtractMembers(ts[1..], excluded, t);
    }
  }

  lemma {:induction false} SubtractDistinct(ts: Types, excluded: Types)
    requires Distinct(ts)
    ensures Distinct(Subtract(ts, excluded))
    decreases |ts|
  {
    if ts != [] {
      SubtractDistinct(ts[1..], excluded);
      SubtractMembers(ts[1..], excluded, ts[0]);
      assert ts[0] !in ts[1..];
    }
  }

  lemma {:induction false} UnionAllDistinct(tuples: seq<Types>)
    requires forall i :: 0 <= i < |tuples| ==> Distinct(tuples[i])
    ensures Distinct(UnionAll(tuples))
    decreases |tuples|
  {
    if |tuples| > 1 {
      UnionAllDistinct(tuples[2..]);
      UnionDistinct(tuples[0], tuples[1]);
      UnionDistinct(Union(tuples[0], tuples[1]), UnionAll(tuples[2..]));
    }
  }
}
