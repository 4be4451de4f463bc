/** `sort.Strings` on distinct keys. */
module Sorting {

  predicate Less(a: string, b: string) {
    if b == "" then false
    else if a == "" then true
    else a[0] < b[0] || (a[0] == b[0] && Less(a[1..], b[1..]))
  }

  lemma LessNever(a: string)
    ensures !Less(a, a)
  {}

  lemma {:induction false} LessTrichotomy(a: string, b: string)
    ensures Less(a, b) || a == b || Less(b, a)
    ensures !(Less(a, b) && Less(b, a)) && !Less(a, a)
  {
    LessNever(a);
    if a != "" && b != "" {
      LessTrichotomy(a[1..], b[1..]);
      assert a == [a[0]] + a[1..] && b == [b[0]] + b[1..];
    }
  }

  lemma {:induction false} LessTransitive(a: string, b: string, c: string)
    requires Less(a, b) && Less(b, c)
    ensures Less(a, c)
  {
    if a != "" && a[0] == b[0] && b[0] == c[0] {
      LessTransitive(a[1..], b[1..], c[1..]);
    }
  }

  /** The texts agree up to there, and then `a` has the smaller character. */
  ghost predicate SmallerAt(a: string, b: string, i: int) {
    0 <= i < |a| && i < |b| && a[..i] == b[..i] && a[i] < b[i]
  }

  lemma SmallerFirst(a: string, b: string)
    requires a != "" && b != "" && a[0] != b[0]
    ensures (exists i :: SmallerAt(a, b, i)) <==> a[0] < b[0]
  {
    if a[0] < b[0] {
      assert SmallerAt(a, b, 0);
    }
    forall i | SmallerAt(a, b, i) ensures i == 0 {
      AgreeBefore(a, b, i);
    }
  }

  lemma AgreeBefore(a: string, b: string, i: int)
    requires 0 <= i <= |a| && i <= |b| && a[..i] == b[..i]
    ensures forall j :: 0 <= j < i ==> a[j] == b[j]
  {
    assert forall j :: 0 <= j < i ==> a[..i][j] == b[..i][j];
  }

  lemma SmallerLater(a: string, b: string)
    requires a != "" && b != "" && a[0] == b[0]
    ensures (exists i :: SmallerAt(a, b, i)) <==> exists i :: SmallerAt(a[1..], b[1..], i)
  {
    forall i | SmallerAt(a[1..], b[1..], i) ensures SmallerAt(a, b, i + 1) {
      assert a[..i + 1] == [a[0]] + a[1..][..i] && b[..i + 1] == [b[0]] + b[1..][..i];
    }
    forall i | SmallerAt(a, b, i) ensures i > 0 && SmallerAt(a[1..], b[1..], i - 1) {
      assert i > 0 ==> a[1..][..i - 1] == a[..i][1..] && b[1..][..i - 1] == b[..i][1..];
    }
  }

  /** In dictionary order one text is before another if it is the beginning of it, or has the smaller character where
      they first differ. */
  lemma {:induction false} LessIff(a: string, b: string)
    ensures Less(a, b) <==> a < b || exists i :: SmallerAt(a, b, i)
  {
    if a != "" && b != "" {
      if a[0] == b[0] {
        LessIff(a[1..], b[1..]);
        SmallerLater(a, b);
        assert a == [a[0]] + a[1..] && b == [b[0]] + b[1..];
        assert a < b <==> a[1..] < b[1..];
      } else {
        SmallerFirst(a, b);
      }
    }
  }

  ghost predicate Sorted(xs: seq<string>) {
    forall i, j :: 0 <= i < j < |xs| ==> Less(xs[i], xs[j])
  }

  ghost predicate Enumerates(xs: seq<string>, s: set<string>) {
    && (forall i, j :: 0 <= i < j < |xs| ==> xs[i] != xs[j])
    && (forall x :: x in xs <==> x in s)
  }

  /** The one sorted enumeration of a set. */
  ghost function InOrder(s: set<string>): (xs: seq<string>)
    ensures Sorted(xs) && Enumerates(xs, s)
  {
    if s == {} then []
    else
      LeastExists(s);
      var x :| IsLeast(x, s);
      var rest := InOrder(s - {x});
      LessIrreflexive();
      [x] + rest
  }

  lemma LessIrreflexive()
    ensures forall a, b :: Less(a, b) ==> a != b
  {
    forall a, b | Less(a, b) ensures a != b { LessTrichotomy(a, b); }
  }

  ghost predicate IsLeast(x: string, s: set<string>) {
    x in s && forall y :: y in s && y != x ==> Less(x, y)
  }

  lemma LeastExists(s: set<string>)
    requires s != {}
    ensures exists x :: IsLeast(x, s)
  {
    var z :| z in s;
    var rest := s - {z};
    assert forall y :: y in s ==> y == z || y in rest;
    if rest == {} {
      assert IsLeast(z, s);
    } else {
      LeastExists(rest);
      var w :| IsLeast(w, rest);
      LessTrichotomy(z, w);
      if Less(w, z) {
        assert IsLeast(w, s);
      } else {
        forall y | y in rest ensures Less(z, y) {
          if y != w { LessTransitive(z, w, y); }
        }
        assert IsLeast(z, s);
      }
    }
  }

  /** However a set is put in order, the result is the same. */
  lemma {:induction false} SortedIsUnique(xs: seq<string>, ys: seq<string>)
    requires Sorted(xs) && Sorted(ys) && forall x :: x in xs <==> x in ys
    ensures xs == ys
  {
    LessIrreflexive();
    assert xs != [] ==> xs[0] in xs;
    assert ys != [] ==> ys[0] in ys;
    if xs != [] && ys != [] {
      assert xs[0] in xs && ys[0] in ys;
      var i :| 0 <= i < |ys| && ys[i] == xs[0];
      var j :| 0 <= j < |xs| && xs[j] == ys[0];
      LessTrichotomy(xs[0], ys[0]);
      assert xs[0] == ys[0];
      forall x ensures x in xs[1..] <==> x in ys[1..] {
        if x in xs[1..] { assert x in ys && x != ys[0]; }
        if x in ys[1..] { assert x in xs && x != xs[0]; }
      }
      SortedIsUnique(xs[1..], ys[1..]);
    }
  }

  method Insert(x: string, xs: seq<string>) returns (ys: seq<string>)
    requires Sorted(xs) && x !in xs
    ensures Sorted(ys) && forall y :: y in ys <==> y == x || y in xs
  {
    var i := 0;
    while i < |xs| && Less(xs[i], x)
      invariant 0 <= i <= |xs| && forall j :: 0 <= j < i ==> Less(xs[j], x)
    {
      i := i + 1;
    }
    forall j | i <= j < |xs| ensures Less(x, xs[j]) {
      LessTrichotomy(x, xs[i]);
      if i < j { LessTransitive(x, xs[i], xs[j]); }
    }
    ys := xs[..i] + [x] + xs[i..];
  }

  method SortStrings(keys: seq<string>, ghost s: set<string>) returns (xs: seq<string>)
    requires Enumerates(keys, s)
    ensures xs == InOrder(s)
  {
    xs := [];
    for i := 0 to |keys|
      invariant Sorted(xs) && forall x :: x in xs <==> x in keys[..i]
    {
      assert keys[..i + 1] == keys[..i] + [keys[i]];
      xs := Insert(keys[i], xs);
    }
    assert keys[..|keys|] == keys;
    SortedIsUnique(xs, InOrder(s));
  }
}
