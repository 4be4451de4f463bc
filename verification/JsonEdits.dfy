/** Edits of single places in a JSON object, and when their order does not matter. */
module JsonEdits {
  import opened Json

  type Fields = map<string, JSON>

  datatype Op =
    | Put(value: JSON)
    | PutIfAbsent(value: JSON)
    | Remove
    | MakeObject            // leave an object there: the one found, or an empty one

  type Path = p: seq<string> | p != [] witness ["root"]

  datatype Edit = Edit(path: Path, op: Op)

  /** The object below `key`; anything else counts as an empty object. */
  function Child(m: Fields, key: string): Fields {
    if key in m && m[key].JObj? then m[key].fields else map[]
  }

  function ApplyOp(m: Fields, key: string, op: Op): Fields {
    match op
    case Put(v) => m[key := v]
    case PutIfAbsent(v) => if key in m then m else m[key := v]
    case Remove => m - {key}
    case MakeObject => m[key := JObj(Child(m, key))]
  }

  /** On the way down, whatever is not an object is replaced by one. */
  function ApplyAt(m: Fields, path: Path, op: Op): Fields
    decreases |path|
  {
    if |path| == 1 then ApplyOp(m, path[0], op)
    else m[path[0] := JObj(ApplyAt(Child(m, path[0]), path[1..], op))]
  }

  function Apply(m: Fields, e: Edit): Fields { ApplyAt(m, e.path, e.op) }

  function ApplyAll(m: Fields, edits: seq<Edit>): Fields
    decreases |edits|
  {
    if edits == [] then m else ApplyAll(Apply(m, edits[0]), edits[1..])
  }

  function Lookup(m: Fields, path: Path): Option<JSON>
    decreases |path|
  {
    if |path| == 1 then (if path[0] in m then Some(m[path[0]]) else None)
    else Lookup(Child(m, path[0]), path[1..])
  }

  // ---------- independence ----------

  /** The paths part ways, or one edit only makes an object that the other one reaches into. */
  ghost predicate Independent(a: Edit, b: Edit) {
    || (!(a.path <= b.path) && !(b.path <= a.path))
    || (a.op.MakeObject? && a.path < b.path)
    || (b.op.MakeObject? && b.path < a.path)
  }

  ghost predicate PairwiseIndependent(edits: seq<Edit>) {
    forall i, j :: 0 <= i < j < |edits| ==> Independent(edits[i], edits[j])
  }

  /** The path neither leads to the edited place nor through it. */
  ghost predicate Untouched(e: Edit, path: Path) {
    !(path <= e.path) && (e.op.MakeObject? || !(e.path <= path))
  }

  lemma {:induction false} ApplyFrame(m: Fields, e: Edit, path: Path)
    requires Untouched(e, path)
    ensures Lookup(Apply(m, e), path) == Lookup(m, path)
    decreases |path|
  {
    if path[0] == e.path[0] {
      if |e.path| > 1 {
        var inner := Below(e);
        assert path <= e.path <==> path[1..] <= e.path[1..];
        assert e.path <= path <==> e.path[1..] <= path[1..];
        ApplyFrame(Child(m, path[0]), inner, path[1..]);
      } else {
        assert e.path == path[..1];
      }
    }
  }

  /** Independent edits commute. */
  lemma {:induction false} Commute(m: Fields, a: Edit, b: Edit)
    requires Independent(a, b)
    ensures Apply(Apply(m, a), b) == Apply(Apply(m, b), a)
    decreases |a.path|
  {
    var k := a.path[0];
    if k != b.path[0] {
      CommuteApart(m, a, b);
    } else if |a.path| > 1 && |b.path| > 1 {
      BelowIndependent(a, b);
      Commute(Child(m, k), Below(a), Below(b));
      BothBelow(m, a, b);
      BothBelow(m, b, a);
    } else if |a.path| == 1 {
      CommuteAbove(m, a, b);
    } else {
      CommuteAbove(m, b, a);
    }
  }

  lemma CommuteApart(m: Fields, a: Edit, b: Edit)
    requires a.path[0] != b.path[0]
    ensures Apply(Apply(m, a), b) == Apply(Apply(m, b), a)
  {
    OtherKey(m, a, b.path[0]);
    OtherKey(m, b, a.path[0]);
  }

  /** An edit of a place on the way to another. */
  lemma CommuteAbove(m: Fields, a: Edit, b: Edit)
    requires Independent(a, b) && |a.path| == 1 && a.path[0] == b.path[0]
    ensures Apply(Apply(m, a), b) == Apply(Apply(m, b), a)
  {
    assert a.path == b.path[..1];
    ApplyBelow(m, b, Child(m, a.path[0]));
  }

  lemma BelowIndependent(a: Edit, b: Edit)
    requires |a.path| > 1 && |b.path| > 1 && a.path[0] == b.path[0] && Independent(a, b)
    ensures Independent(Below(a), Below(b))
  {
    assert a.path <= b.path <==> Below(a).path <= Below(b).path;
    assert b.path <= a.path <==> Below(b).path <= Below(a).path;
  }

  lemma BothBelow(m: Fields, a: Edit, b: Edit)
    requires |a.path| > 1 && |b.path| > 1 && a.path[0] == b.path[0]
    ensures Apply(Apply(m, a), b) ==
      m[a.path[0] := JObj(Apply(Apply(Child(m, a.path[0]), Below(a)), Below(b)))]
  {
    ApplyBelow(m, b, Apply(Child(m, a.path[0]), Below(a)));
  }

  /** The same edit as seen from the child it goes through. */
  function Below(e: Edit): Edit
    requires |e.path| > 1
  {
    Edit(e.path[1..], e.op)
  }

  lemma ApplyBelow(m: Fields, e: Edit, child: Fields)
    requires |e.path| > 1
    ensures Apply(m[e.path[0] := JObj(child)], e) == m[e.path[0] := JObj(Apply(child, Below(e)))]
  {
    assert Child(m[e.path[0] := JObj(child)], e.path[0]) == child;
  }

  lemma OtherKey(m: Fields, e: Edit, key: string)
    requires key != e.path[0]
    ensures (key in Apply(m, e) <==> key in m) && (key in m ==> Apply(m, e)[key] == m[key])
  {}

  lemma {:induction false} ApplyTwice(m: Fields, e: Edit)
    ensures Apply(Apply(m, e), e) == Apply(m, e)
    decreases |e.path|
  {
    if |e.path| > 1 {
      ApplyTwice(Child(m, e.path[0]), Below(e));
    }
  }

  // ---------- lists of independent edits ----------

  lemma {:induction false} CommuteAll(m: Fields, e: Edit, edits: seq<Edit>)
    requires forall i :: 0 <= i < |edits| ==> Independent(e, edits[i])
    ensures ApplyAll(Apply(m, e), edits) == Apply(ApplyAll(m, edits), e)
    decreases |edits|
  {
    if edits != [] {
      Commute(m, e, edits[0]);
      CommuteAll(Apply(m, edits[0]), e, edits[1..]);
    }
  }

  /** A list of pairwise independent edits can be applied again without effect. */
  lemma {:induction false} AllIdempotent(m: Fields, edits: seq<Edit>)
    requires PairwiseIndependent(edits)
    ensures ApplyAll(ApplyAll(m, edits), edits) == ApplyAll(m, edits)
    decreases |edits|
  {
    if edits != [] {
      var e, rest := edits[0], edits[1..];
      var once := Apply(m, e);
      assert forall i :: 0 <= i < |rest| ==> rest[i] == edits[i + 1];
      CommuteAll(once, e, rest);
      ApplyTwice(m, e);
      AllIdempotent(once, rest);
    }
  }

  ghost predicate AllUntouched(edits: seq<Edit>, path: Path) {
    forall i :: 0 <= i < |edits| ==> Untouched(edits[i], path)
  }

  lemma {:induction false} AllFrame(m: Fields, edits: seq<Edit>, path: Path)
    requires AllUntouched(edits, path)
    ensures Lookup(ApplyAll(m, edits), path) == Lookup(m, path)
    decreases |edits|
  {
    if edits != [] {
      ApplyFrame(m, edits[0], path);
      AllFrame(Apply(m, edits[0]), edits[1..], path);
    }
  }

  lemma {:induction false} ApplyAllAppend(m: Fields, a: seq<Edit>, b: seq<Edit>)
    ensures ApplyAll(m, a + b) == ApplyAll(ApplyAll(m, a), b)
    decreases |a|
  {
    if a == [] {
      assert a + b == b;
    } else {
      assert (a + b)[1..] == a[1..] + b;
      ApplyAllAppend(Apply(m, a[0]), a[1..], b);
    }
  }

  /** Where the first element of `a` is in a permutation `b` of it. */
  lemma PickFirst(a: seq<Edit>, b: seq<Edit>) returns (i: nat)
    requires multiset(a) == multiset(b) && a != []
    ensures i < |b| && b[i] == a[0] && multiset(b[..i] + b[i + 1..]) == multiset(a[1..])
  {
    assert a == [a[0]] + a[1..];
    assert a[0] in multiset(b);
    i :| 0 <= i < |b| && b[i] == a[0];
    assert b == b[..i] + [a[0]] + b[i + 1..];
    assert multiset(b[..i] + b[i + 1..]) == multiset(b) - multiset{a[0]};
    assert multiset(a[1..]) == multiset(a) - multiset{a[0]};
  }

  /** ... and in any order. */
  lemma {:induction false} AllPermuted(m: Fields, a: seq<Edit>, b: seq<Edit>)
    requires multiset(a) == multiset(b) && PairwiseIndependent(a)
    ensures ApplyAll(m, a) == ApplyAll(m, b)
    decreases |a|
  {
    if a == [] {
      assert |b| == |multiset(b)| == 0;
    } else {
      var i := PickFirst(a, b);
      var e, before, after := a[0], b[..i], b[i + 1..];
      assert PairwiseIndependent(a[1..]) by {
        assert forall j :: 0 <= j < |a[1..]| ==> a[1..][j] == a[j + 1];
      }
      AllPermuted(Apply(m, e), a[1..], before + after);
      FirstIndependent(a, before + after);
      assert forall j :: 0 <= j < |before| ==> before[j] == (before + after)[j];
      MoveToFront(m, e, before, after);
      assert b == before + [e] + after;
    }
  }

  lemma FirstIndependent(a: seq<Edit>, others: seq<Edit>)
    requires a != [] && PairwiseIndependent(a) && multiset(others) == multiset(a[1..])
    ensures forall j :: 0 <= j < |others| ==> Independent(a[0], others[j])
  {
    forall j | 0 <= j < |others| ensures Independent(a[0], others[j]) {
      assert others[j] in multiset(others);
      var k :| 0 <= k < |a[1..]| && a[1..][k] == others[j];
      assert a[k + 1] == others[j];
    }
  }

  lemma MoveToFront(m: Fields, e: Edit, before: seq<Edit>, after: seq<Edit>)
    requires forall j :: 0 <= j < |before| ==> Independent(e, before[j])
    ensures ApplyAll(m, before + [e] + after) == ApplyAll(Apply(m, e), before + after)
  {
    CommuteAll(m, e, before);
    ApplyAllAppend(Apply(m, e), before, after);
    assert before + [e] + after == before + ([e] + after);
    ApplyAllAppend(m, before, [e] + after);
    assert ([e] + after)[1..] == after;
  }

  /** What an edit leaves at its place. */
  ghost predicate InEffect(before: Option<JSON>, after: Option<JSON>, op: Op) {
    match op
    case Put(v) => after == Some(v)
    case PutIfAbsent(v) => after == if before.Some? then before else Some(v)
    case Remove => after == None
    case MakeObject => after.Some? && after.value.JObj?
  }

  lemma {:induction false} ApplyEffect(m: Fields, e: Edit)
    ensures InEffect(Lookup(m, e.path), Lookup(Apply(m, e), e.path), e.op)
    decreases |e.path|
  {
    if |e.path| > 1 {
      ApplyEffect(Child(m, e.path[0]), Below(e));
    }
  }

  /** Of pairwise independent edits every one that decides a value takes effect. */
  lemma {:induction false} AllInEffect(m: Fields, edits: seq<Edit>, i: nat)
    requires PairwiseIndependent(edits) && i < |edits| && !edits[i].op.MakeObject?
    ensures InEffect(Lookup(m, edits[i].path), Lookup(ApplyAll(m, edits), edits[i].path), edits[i].op)
  {
    var e, before, after := edits[i], edits[..i], edits[i + 1..];
    assert edits == before + ([e] + after);
    ApplyAllAppend(m, before, [e] + after);
    assert ([e] + after)[1..] == after;
    forall j | 0 <= j < |before| ensures Untouched(before[j], e.path) { assert Independent(before[j], e); }
    forall j | 0 <= j < |after| ensures Untouched(after[j], e.path) { assert Independent(e, edits[i + 1 + j]); }
    AllFrame(m, before, e.path);
    ApplyEffect(ApplyAll(m, before), e);
    AllFrame(Apply(ApplyAll(m, before), e), after, e.path);
  }

  // ---------- blocks of edits, one for each key ----------

  function Flatten(blocks: map<string, seq<Edit>>, order: seq<string>): seq<Edit>
    requires forall p :: p in order ==> p in blocks
  {
    if order == [] then [] else blocks[order[0]] + Flatten(blocks, order[1..])
  }

  lemma {:induction false} FlattenAppend(blocks: map<string, seq<Edit>>, a: seq<string>, b: seq<string>)
    requires forall p :: p in a || p in b ==> p in blocks
    ensures Flatten(blocks, a + b) == Flatten(blocks, a) + Flatten(blocks, b)
  {
    if a == [] {
      assert a + b == b;
    } else {
      assert (a + b)[1..] == a[1..] + b;
      FlattenAppend(blocks, a[1..], b);
    }
  }

  ghost predicate Distinct(order: seq<string>) {
    forall i, j :: 0 <= i < j < |order| ==> order[i] != order[j]
  }

  /** Whatever the order, the same edits. */
  lemma {:induction false} FlattenPermuted(blocks: map<string, seq<Edit>>, a: seq<string>, b: seq<string>)
    requires Distinct(a) && Distinct(b) && forall p :: p in a <==> p in b
    requires forall p :: p in a ==> p in blocks
    ensures multiset(Flatten(blocks, a)) == multiset(Flatten(blocks, b))
    decreases |a|
  {
    assert b != [] ==> b[0] in b;
    if a != [] {
      var p := a[0];
      assert p in a;
      var i :| 0 <= i < |b| && b[i] == p;
      var before, after := b[..i], b[i + 1..];
      assert b == before + [p] + after;
      RestSame(a, b, i);
      FlattenPermuted(blocks, a[1..], before + after);
      FlattenMove(blocks, before, p, after);
    }
  }

  lemma RestSame(a: seq<string>, b: seq<string>, i: nat)
    requires Distinct(a) && Distinct(b) && (forall p :: p in a <==> p in b) && a != []
    requires i < |b| && b[i] == a[0]
    ensures Distinct(b[..i] + b[i + 1..]) && Distinct(a[1..])
    ensures forall q :: q in a[1..] <==> q in b[..i] + b[i + 1..]
  {
    var rest := b[..i] + b[i + 1..];
    forall j | 0 <= j < |rest| ensures rest[j] == b[if j < i then j else j + 1] {}
    assert a == [a[0]] + a[1..];
    assert b == b[..i] + [a[0]] + b[i + 1..];
    assert a[0] !in a[1..] && a[0] !in rest;
    forall q ensures q in a[1..] <==> q in rest {
      assert q in a <==> q == a[0] || q in a[1..];
      assert q in b <==> q == a[0] || q in rest;
    }
  }

  lemma FlattenMove(blocks: map<string, seq<Edit>>, before: seq<string>, p: string, after: seq<string>)
    requires forall q :: q in before || q == p || q in after ==> q in blocks
    ensures multiset(Flatten(blocks, before + [p] + after)) ==
      multiset(blocks[p]) + multiset(Flatten(blocks, before + after))
  {
    FlattenAppend(blocks, before, after);
    FlattenAppend(blocks, before, [p] + after);
    assert before + [p] + after == before + ([p] + after);
    assert ([p] + after)[1..] == after;
  }

  // ---------- edits below one key ----------

  /** The same edits, one level further down. */
  function Under(key: string, edits: seq<Edit>): seq<Edit> {
    if edits == [] then [] else [Edit([key] + edits[0].path, edits[0].op)] + Under(key, edits[1..])
  }

  lemma {:induction false} UnderAppend(key: string, a: seq<Edit>, b: seq<Edit>)
    ensures Under(key, a + b) == Under(key, a) + Under(key, b)
  {
    if a == [] {
      assert a + b == b;
    } else {
      assert (a + b)[1..] == a[1..] + b;
      UnderAppend(key, a[1..], b);
    }
  }

  lemma {:induction false} ApplyUnder(m: Fields, key: string, edits: seq<Edit>)
    requires edits != [] || (key in m && m[key].JObj?)
    ensures ApplyAll(m, Under(key, edits)) == m[key := JObj(ApplyAll(Child(m, key), edits))]
    decreases |edits|
  {
    if edits != [] {
      var e := Edit([key] + edits[0].path, edits[0].op);
      assert e.path[1..] == edits[0].path;
      var next := Apply(m, e);
      assert next == m[key := JObj(Apply(Child(m, key), edits[0]))];
      assert Child(next, key) == Apply(Child(m, key), edits[0]);
      ApplyUnder(next, key, edits[1..]);
      assert Under(key, edits)[1..] == Under(key, edits[1..]);
    }
  }

  /** Going down to the object below `key`, making it if need be, and editing it there. */
  lemma ApplyInside(m: Fields, key: string, edits: seq<Edit>)
    requires edits != []
    ensures ApplyOp(m, key, MakeObject)[key := JObj(ApplyAll(Child(m, key), edits))] == ApplyAll(m, Under(key, edits))
  {
    ApplyUnder(m, key, edits);
  }

  lemma ApplyNextBlock(m: Fields, blocks: map<string, seq<Edit>>, order: seq<string>, p: string)
    requires p in blocks && forall q :: q in order ==> q in blocks
    ensures ApplyAll(ApplyAll(m, Flatten(blocks, order)), blocks[p]) == ApplyAll(m, Flatten(blocks, order + [p]))
  {
    FlattenAppend(blocks, order, [p]);
    assert Flatten(blocks, [p]) == blocks[p] + [] == blocks[p];
    ApplyAllAppend(m, Flatten(blocks, order), blocks[p]);
  }

  lemma {:induction false} UnderAt(key: string, edits: seq<Edit>)
    ensures |Under(key, edits)| == |edits|
    ensures forall i :: 0 <= i < |edits| ==>
      Under(key, edits)[i].path == [key] + edits[i].path && Under(key, edits)[i].op == edits[i].op
  {
    if edits != [] { UnderAt(key, edits[1..]); }
  }

  lemma UnderIndependent(key: string, edits: seq<Edit>)
    requires PairwiseIndependent(edits)
    ensures PairwiseIndependent(Under(key, edits)) && HeadsIn(Under(key, edits), {key})
  {
    var under := Under(key, edits);
    UnderAt(key, edits);
    forall i, j | 0 <= i < j < |edits| ensures Independent(under[i], under[j]) {
      PrefixBelow(key, edits[i].path, edits[j].path);
      PrefixBelow(key, edits[j].path, edits[i].path);
      assert Independent(edits[i], edits[j]);
    }
  }

  lemma PrefixBelow(key: string, p: seq<string>, q: seq<string>)
    ensures [key] + p <= [key] + q <==> p <= q
  {
    assert ([key] + p)[1..] == p && ([key] + q)[1..] == q;
  }

  lemma UnderUntouched(key: string, edits: seq<Edit>, path: Path)
    requires path[0] == key ==> |path| > 1 && AllUntouched(edits, path[1..])
    ensures AllUntouched(Under(key, edits), path)
  {
    UnderAt(key, edits);
    forall i | 0 <= i < |edits| ensures Untouched(Under(key, edits)[i], path) {
      if path[0] == key {
        assert path == [key] + path[1..];
        PrefixBelow(key, edits[i].path, path[1..]);
        PrefixBelow(key, path[1..], edits[i].path);
      }
    }
  }

  lemma {:induction false} UnderPermuted(key: string, a: seq<Edit>, b: seq<Edit>)
    requires multiset(a) == multiset(b)
    ensures multiset(Under(key, a)) == multiset(Under(key, b))
    decreases |a|
  {
    if a == [] {
      assert |b| == |multiset(b)| == 0;
    } else {
      var i := PickFirst(a, b);
      var before, after := b[..i], b[i + 1..];
      UnderPermuted(key, a[1..], before + after);
      assert b == before + ([a[0]] + after) && a == [a[0]] + a[1..];
      UnderAppend(key, [a[0]], a[1..]);
      UnderAppend(key, before, after);
      UnderAppend(key, before, [a[0]] + after);
      UnderAppend(key, [a[0]], after);
    }
  }

  /** All the paths begin with one of the keys. */
  ghost predicate HeadsIn(edits: seq<Edit>, keys: set<string>) {
    forall i :: 0 <= i < |edits| ==> edits[i].path[0] in keys
  }

  lemma DistinctHeads(edits: seq<Edit>)
    requires forall i, j :: 0 <= i < j < |edits| ==> edits[i].path[0] != edits[j].path[0]
    ensures PairwiseIndependent(edits)
  {}

  lemma DisjointHeads(a: seq<Edit>, b: seq<Edit>, ka: set<string>, kb: set<string>)
    requires PairwiseIndependent(a) && PairwiseIndependent(b)
    requires HeadsIn(a, ka) && HeadsIn(b, kb) && ka !! kb
    ensures PairwiseIndependent(a + b) && HeadsIn(a + b, ka + kb)
  {
    var both := a + b;
    forall i, j | 0 <= i < j < |both| ensures Independent(both[i], both[j]) {
      if i >= |a| {
        assert both[i] == b[i - |a|] && both[j] == b[j - |a|];
      }
    }
  }

  lemma OneEdit(e: Edit)
    ensures PairwiseIndependent([e]) && HeadsIn([e], {e.path[0]})
  {}

  /** An edit that only makes the object the others reach into. */
  lemma MakeFirst(key: string, edits: seq<Edit>)
    requires PairwiseIndependent(edits)
    ensures PairwiseIndependent([Edit([key], MakeObject)] + Under(key, edits))
    ensures HeadsIn([Edit([key], MakeObject)] + Under(key, edits), {key})
  {
    var make, under := Edit([key], MakeObject), Under(key, edits);
    UnderAt(key, edits);
    UnderIndependent(key, edits);
    var all := [make] + under;
    forall i, j | 0 <= i < j < |all| ensures Independent(all[i], all[j]) {
      assert all[j] == under[j - 1];
      if i > 0 { assert all[i] == under[i - 1]; }
    }
  }
}
