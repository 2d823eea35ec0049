/** The ordered string-set helpers of set.go: `union` and `difference` over
    sequences of names, as loops that fill a lookup map and then append. */
module Sets {

  /** The distinct elements of a sequence. */
  function Elems(s: seq<string>): set<string>
  {
    set x | x in s
  }

  /** The elements of `s` that are not in `excl`, in `s`'s order, repetitions kept. */
  function Without(s: seq<string>, excl: set<string>): seq<string>
  {
    if s == [] then [] else (if s[0] in excl then [] else [s[0]]) + Without(s[1..], excl)
  }

  /** What `union(a, b)` computes: `a` unchanged, then the elements of `b` that do not
      occur in `a`, in `b`'s order. Only `a`'s elements are looked up, so an element
      repeated in `b` and absent from `a` is appended each time. */
  function UnionOf(a: seq<string>, b: seq<string>): seq<string>
  {
    a + Without(b, Elems(a))
  }

  /** What `difference(a, b)` computes: the elements of `a` that do not occur in `b`. */
  function DifferenceOf(a: seq<string>, b: seq<string>): seq<string>
  {
    Without(a, Elems(b))
  }

  // ---------------------------------------------------------------- Without

  lemma {:induction false} WithoutConcat(s: seq<string>, t: seq<string>, excl: set<string>)
    ensures Without(s + t, excl) == Without(s, excl) + Without(t, excl)
  {
    if s == [] {
      assert s + t == t;
    } else {
      assert (s + t)[1..] == s[1..] + t;
      WithoutConcat(s[1..], t, excl);
    }
  }

  lemma {:induction false} WithoutMembers(s: seq<string>, excl: set<string>)
    ensures forall x :: x in Without(s, excl) <==> x in s && x !in excl
  {
    if s != [] {
      WithoutMembers(s[1..], excl);
      assert s == [s[0]] + s[1..];
    }
  }

  lemma {:induction false} WithoutNothing(s: seq<string>, excl: set<string>)
    requires forall x :: x in s ==> x !in excl
    ensures Without(s, excl) == s
  {
    if s != [] {
      assert s == [s[0]] + s[1..];
      WithoutNothing(s[1..], excl);
    }
  }

  lemma {:induction false} WithoutEverything(s: seq<string>, excl: set<string>)
    requires forall x :: x in s ==> x in excl
    ensures Without(s, excl) == []
  {
    if s != [] {
      assert s[0] in excl;
      WithoutEverything(s[1..], excl);
    }
  }

  lemma {:induction false} WithoutTwice(s: seq<string>, e1: set<string>, e2: set<string>)
    ensures Without(Without(s, e1), e2) == Without(s, e1 + e2)
  {
    if s != [] {
      WithoutTwice(s[1..], e1, e2);
      var head := if s[0] in e1 then [] else [s[0]];
      WithoutConcat(head, Without(s[1..], e1), e2);
      if s[0] !in e1 {
        assert Without(head, e2) == (if s[0] in e2 then [] else [s[0]]) + Without([], e2);
      }
    }
  }

  lemma {:induction false} WithoutLength(s: seq<string>, excl: set<string>)
    ensures |Without(s, excl)| <= |s|
  {
    if s != [] {
      WithoutLength(s[1..], excl);
    }
  }

  /** Filtering keeps every occurrence of a name it does not exclude. */
  lemma {:induction false} WithoutCount(s: seq<string>, excl: set<string>, x: string)
    requires x !in excl
    ensures multiset(Without(s, excl))[x] == multiset(s)[x]
  {
    if s != [] {
      WithoutCount(s[1..], excl, x);
      assert s == [s[0]] + s[1..];
    }
  }

  // ---------------------------------------------------------------- union laws

  /** `a` is an unchanged prefix of `union(a, b)`; the rest is `b` without `a`'s elements. */
  lemma UnionPrefix(a: seq<string>, b: seq<string>)
    ensures |a| <= |UnionOf(a, b)|
    ensures UnionOf(a, b)[..|a|] == a
    ensures UnionOf(a, b)[|a|..] == Without(b, Elems(a))
  {
  }

  /** Every element of `a` and every element of `b` is in `union(a, b)`, and nothing else is. */
  lemma UnionMembers(a: seq<string>, b: seq<string>)
    ensures forall x :: x in UnionOf(a, b) <==> x in a || x in b
    ensures Elems(UnionOf(a, b)) == Elems(a) + Elems(b)
  {
    WithoutMembers(b, Elems(a));
  }

  /** `union(a, union(b, c)) == union(union(a, b), c)`, as sequences. */
  lemma UnionAssociative(a: seq<string>, b: seq<string>, c: seq<string>)
    ensures UnionOf(a, UnionOf(b, c)) == UnionOf(UnionOf(a, b), c)
  {
    var bc := UnionOf(b, c);
    WithoutConcat(b, Without(c, Elems(b)), Elems(a));
    WithoutTwice(c, Elems(b), Elems(a));
    UnionMembers(a, b);
    assert Elems(b) + Elems(a) == Elems(UnionOf(a, b));
    calc {
      UnionOf(a, bc);
      a + Without(b + Without(c, Elems(b)), Elems(a));
      a + (Without(b, Elems(a)) + Without(c, Elems(b) + Elems(a)));
      (a + Without(b, Elems(a))) + Without(c, Elems(UnionOf(a, b)));
      UnionOf(UnionOf(a, b), c);
    }
  }

  /** When `b` adds nothing new, `union(a, b) == a`. */
  lemma UnionAbsorbs(a: seq<string>, b: seq<string>)
    requires forall x :: x in b ==> x in a
    ensures UnionOf(a, b) == a
  {
    WithoutEverything(b, Elems(a));
  }

  /** `union([], b) == b`, whatever repetitions `b` holds. */
  lemma UnionEmptyLeft(b: seq<string>)
    ensures UnionOf([], b) == b
  {
    WithoutNothing(b, Elems([]));
  }

  /** The first two examples of parse_test.go's TestUnionBasic: overlapping and
      disjoint lists. */
  lemma UnionExamples()
    ensures UnionOf(["a", "b", "c"], ["b", "d"]) == ["a", "b", "c", "d"]
    ensures UnionOf(["a", "b"], ["c", "d"]) == ["a", "b", "c", "d"]
  {
    assert Elems(["a", "b", "c"]) == {"a", "b", "c"};
    assert Elems(["a", "b"]) == {"a", "b"};
    assert ["b", "d"][1..] == ["d"] && ["c", "d"][1..] == ["d"] && ["d"][1..] == [];
  }

  /** The last two examples of TestUnionBasic: an empty left side, and a list with
      itself. */
  lemma UnionEdgeExamples()
    ensures UnionOf([], ["b", "d"]) == ["b", "d"]
    ensures UnionOf(["b", "d"], ["b", "d"]) == ["b", "d"]
  {
    UnionEmptyLeft(["b", "d"]);
    UnionAbsorbs(["b", "d"], ["b", "d"]);
  }

  /** `union` does not deduplicate: a name of `a` occurs in `union(a, b)` as often as
      in `a`, and a name absent from `a` as often as in `b`, so a repeat in `b` is
      appended each time. */
  lemma UnionKeepsRepeats(a: seq<string>, b: seq<string>, x: string)
    ensures x in a ==> multiset(UnionOf(a, b))[x] == multiset(a)[x]
    ensures x !in a ==> multiset(UnionOf(a, b))[x] == multiset(b)[x]
  {
    if x !in a {
      WithoutCount(b, Elems(a), x);
    } else {
      WithoutMembers(b, Elems(a));
      assert x in Elems(a);
      assert x !in Without(b, Elems(a));
    }
    assert multiset(UnionOf(a, b)) == multiset(a) + multiset(Without(b, Elems(a)));
  }

  // ---------------------------------------------------------------- difference laws

  /** `difference(a, b)` holds exactly the elements of `a` that are not in `b`. */
  lemma DifferenceMembers(a: seq<string>, b: seq<string>)
    ensures forall x :: x in DifferenceOf(a, b) <==> x in a && x !in b
  {
    WithoutMembers(a, Elems(b));
  }

  /** `difference(a, b)` is never longer than `a`, keeps `a`'s order (it distributes
      over concatenation of `a`), and `difference(a, []) == a`. */
  lemma DifferenceShape(a: seq<string>, a': seq<string>, b: seq<string>)
    ensures |DifferenceOf(a, b)| <= |a|
    ensures DifferenceOf(a + a', b) == DifferenceOf(a, b) + DifferenceOf(a', b)
    ensures DifferenceOf(a, []) == a
  {
    WithoutLength(a, Elems(b));
    WithoutConcat(a, a', Elems(b));
    WithoutNothing(a, Elems([]));
  }

  // ---------------------------------------------------------------- the loops of set.go

  /** set.go's `union`: record `a` in a map, then append each element of `b` the map lacks. */
  method Union(a: seq<string>, b: seq<string>) returns (r: seq<string>)
    ensures r == UnionOf(a, b)
  {
    var m: map<string, bool> := map[];
    var i := 0;
    while i < |a|
      invariant 0 <= i <= |a|
      invariant m.Keys == Elems(a[..i])
    {
      assert a[..i + 1] == a[..i] + [a[i]];
      m := m[a[i] := true];
      i := i + 1;
    }
    assert a[..i] == a;
    r := a;
    var j := 0;
    while j < |b|
      invariant 0 <= j <= |b|
      invariant r == a + Without(b[..j], m.Keys)
    {
      assert b[..j + 1] == b[..j] + [b[j]];
      WithoutConcat(b[..j], [b[j]], m.Keys);
      if b[j] !in m {
        r := r + [b[j]];
      }
      j := j + 1;
    }
    assert b[..j] == b;
  }

  /** set.go's `difference`: record `b` in a map, then keep each element of `a` the map lacks. */
  method Difference(a: seq<string>, b: seq<string>) returns (diff: seq<string>)
    ensures diff == DifferenceOf(a, b)
  {
    diff := [];
    var m: map<string, bool> := map[];
    var i := 0;
    while i < |b|
      invariant 0 <= i <= |b|
      invariant m.Keys == Elems(b[..i])
    {
      assert b[..i + 1] == b[..i] + [b[i]];
      m := m[b[i] := true];
      i := i + 1;
    }
    assert b[..i] == b;
    var j := 0;
    while j < |a|
      invariant 0 <= j <= |a|
      invariant diff == Without(a[..j], m.Keys)
    {
      assert a[..j + 1] == a[..j] + [a[j]];
      WithoutConcat(a[..j], [a[j]], m.Keys);
      if a[j] !in m {
        diff := diff + [a[j]];
      }
      j := j + 1;
    }
    assert a[..j] == a;
  }
}
