/** When applying edits to a document leaves no more than applying them to an empty one. */
module JsonAbsorbed {
  import opened Json
  import opened JsonEdits

  /** The document has nothing where no edit leads, and nothing of its own where an edit only supplies a default. */
  ghost predicate Absorbed(m: Fields, edits: seq<Edit>) {
    && (forall path: Path :: AllUntouched(edits, path) ==> Lookup(m, path).None?)
    && (forall i :: 0 <= i < |edits| ==> AcceptsDefault(m, edits[i]))
  }

  predicate AcceptsDefault(m: Fields, e: Edit) {
    e.op.PutIfAbsent? ==> Lookup(m, e.path) == None || Lookup(m, e.path) == Some(e.op.value)
  }

  lemma {:induction false} NothingInEmpty(path: Path)
    ensures Lookup(map[], path) == None
    decreases |path|
  {
    if |path| > 1 {
      NothingInEmpty(path[1..]);
    }
  }

  /** A longer path is looked up in what is found on the way. */
  lemma {:induction false} LookupThrough(m: Fields, path: Path, below: Path)
    ensures Lookup(m, path + below) ==
      match Lookup(m, path)
      case Some(JObj(fields)) => Lookup(fields, below)
      case _ => None
    decreases |path|
  {
    if |path| == 1 {
      assert (path + below)[1..] == below;
      NothingInEmpty(below);
    } else {
      assert (path + below)[1..] == path[1..] + below;
      LookupThrough(Child(m, path[0]), path[1..], below);
    }
  }

  lemma {:induction false} OnTheWay(m: Fields, e: Edit, path: Path)
    requires path <= e.path && (|path| < |e.path| || e.op.MakeObject?)
    ensures Lookup(Apply(m, e), path).Some? && Lookup(Apply(m, e), path).value.JObj?
    decreases |path|
  {
    if |path| > 1 {
      assert path[1..] <= e.path[1..];
      OnTheWay(Child(m, path[0]), Below(e), path[1..]);
    }
  }

  /** What edits lead through is an object afterwards. */
  lemma AllOnTheWay(m: Fields, edits: seq<Edit>, i: nat, path: Path)
    requires PairwiseIndependent(edits) && i < |edits|
    requires path <= edits[i].path && (|path| < |edits[i].path| || edits[i].op.MakeObject?)
    ensures Lookup(ApplyAll(m, edits), path).Some? && Lookup(ApplyAll(m, edits), path).value.JObj?
  {
    var e, others := edits[i], edits[..i] + edits[i + 1..];
    assert edits == edits[..i] + [e] + edits[i + 1..];
    AllPermuted(m, edits, others + [e]);
    ApplyAllAppend(m, others, [e]);
    assert [e][1..] == [];
    OnTheWay(ApplyAll(m, others), e, path);
  }

  function Longest(edits: seq<Edit>): nat {
    if edits == [] then 0
    else if |edits[0].path| > Longest(edits[1..]) then |edits[0].path| else Longest(edits[1..])
  }

  lemma {:induction false} NoneLonger(edits: seq<Edit>, i: nat)
    requires i < |edits|
    ensures |edits[i].path| <= Longest(edits)
  {
    if i > 0 {
      NoneLonger(edits[1..], i - 1);
    }
  }

  lemma EmptyAccepts(e: Edit)
    ensures AcceptsDefault(map[], e)
  {
    NothingInEmpty(e.path);
  }

  /** At the place of an edit that decides a value the two results agree. */
  lemma AgreeAtEdit(m: Fields, edits: seq<Edit>, i: nat)
    requires PairwiseIndependent(edits) && i < |edits| && !edits[i].op.MakeObject? && AcceptsDefault(m, edits[i])
    ensures Lookup(ApplyAll(m, edits), edits[i].path) == Lookup(ApplyAll(map[], edits), edits[i].path)
  {
    AllInEffect(m, edits, i);
    AllInEffect(map[], edits, i);
    EmptyAccepts(edits[i]);
  }

  lemma {:induction false} AgreeAt(m: Fields, edits: seq<Edit>, path: Path)
    requires PairwiseIndependent(edits) && Absorbed(m, edits)
    ensures Lookup(ApplyAll(m, edits), path) == Lookup(ApplyAll(map[], edits), path)
    decreases Longest(edits) + 1 - |path|
  {
    if AllUntouched(edits, path) {
      AllFrame(m, edits, path);
      AllFrame(map[], edits, path);
      NothingInEmpty(path);
    } else {
      var i :| 0 <= i < |edits| && !Untouched(edits[i], path);
      var e := edits[i];
      NoneLonger(edits, i);
      if e.path <= path && !e.op.MakeObject? {
        AgreeAtEdit(m, edits, i);
        AgreeBelow(ApplyAll(m, edits), ApplyAll(map[], edits), e.path, path);
      } else {
        AllOnTheWay(m, edits, i, path);
        AllOnTheWay(map[], edits, i, path);
        forall k: string ensures Lookup(ApplyAll(m, edits), path + [k]) == Lookup(ApplyAll(map[], edits), path + [k]) {
          AgreeAt(m, edits, path + [k]);
        }
        SameObject(ApplyAll(m, edits), ApplyAll(map[], edits), path);
      }
    }
  }

  lemma AgreeBelow(a: Fields, b: Fields, place: Path, path: Path)
    requires place <= path && Lookup(a, place) == Lookup(b, place)
    ensures Lookup(a, path) == Lookup(b, path)
  {
    if |place| < |path| {
      var below: Path := path[|place|..];
      assert path == place + below;
      LookupThrough(a, place, below);
      LookupThrough(b, place, below);
    } else {
      assert place == path;
    }
  }

  lemma SameObject(a: Fields, b: Fields, path: Path)
    requires Lookup(a, path).Some? && Lookup(a, path).value.JObj?
    requires Lookup(b, path).Some? && Lookup(b, path).value.JObj?
    requires forall k: string :: Lookup(a, path + [k]) == Lookup(b, path + [k])
    ensures Lookup(a, path) == Lookup(b, path)
  {
    var f, g := Lookup(a, path).value.fields, Lookup(b, path).value.fields;
    forall k: string ensures (k in f <==> k in g) && (k in f ==> f[k] == g[k]) {
      assert Lookup(a, path + [k]) == Lookup(b, path + [k]);
      LookupThrough(a, path, [k]);
      LookupThrough(b, path, [k]);
    }
    assert f == g;
  }

  lemma SameEverywhere(a: Fields, b: Fields)
    requires forall path: Path :: Lookup(a, path) == Lookup(b, path)
    ensures a == b
  {
    forall k: string ensures (k in a <==> k in b) && (k in a ==> a[k] == b[k]) {
      assert Lookup(a, [k]) == Lookup(b, [k]);
    }
  }

  /** The edits make the document what they make of an empty one if and only if it is absorbed. */
  lemma AbsorbedIff(m: Fields, edits: seq<Edit>)
    requires PairwiseIndependent(edits)
    ensures ApplyAll(m, edits) == ApplyAll(map[], edits) <==> Absorbed(m, edits)
  {
    if Absorbed(m, edits) {
      forall path: Path ensures Lookup(ApplyAll(m, edits), path) == Lookup(ApplyAll(map[], edits), path) {
        AgreeAt(m, edits, path);
      }
      SameEverywhere(ApplyAll(m, edits), ApplyAll(map[], edits));
    }
    if ApplyAll(m, edits) == ApplyAll(map[], edits) {
      forall path: Path | AllUntouched(edits, path) ensures Lookup(m, path).None? {
        AllFrame(m, edits, path);
        AllFrame(map[], edits, path);
        NothingInEmpty(path);
      }
      forall i | 0 <= i < |edits| ensures AcceptsDefault(m, edits[i]) {
        if edits[i].op.PutIfAbsent? {
          AllInEffect(m, edits, i);
          AllInEffect(map[], edits, i);
          NothingInEmpty(edits[i].path);
        }
      }
    }
  }
}
