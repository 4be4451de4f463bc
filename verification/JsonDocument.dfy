/** openclaw.json in memory: maps that are reached, and changed in place, through references to them. */
module JsonDocument {
  import opened Json
  import opened JsonEdits

  /** A map value: another map, by reference, or anything else, as it is. */
  datatype Slot = Leaf(value: JSON) | Sub(node: Node)

  class Node {
    var fields: map<string, Slot>
    ghost var repr: set<Node>

    /** The maps below this one form a tree. */
    ghost predicate Valid()
      reads this, repr
      decreases repr
    {
      && this in repr
      && (forall k | k in fields && fields[k].Leaf? :: !fields[k].value.JObj?)
      && (forall k | k in fields && fields[k].Sub? ::
            && fields[k].node in repr
            && fields[k].node.repr <= repr
            && this !in fields[k].node.repr
            && fields[k].node.Valid())
      && (forall j, k | j in fields && k in fields && j != k && fields[j].Sub? && fields[k].Sub? ::
            fields[j].node.repr !! fields[k].node.repr)
    }

    /** The JSON object this map stands for. */
    ghost function View(): (v: Fields)
      requires Valid()
      reads this, repr
      ensures v.Keys == fields.Keys
      decreases repr
    {
      map k | k in fields :: match fields[k] case Leaf(v) => v case Sub(n) => JObj(n.View())
    }

    constructor ()
      ensures Valid() && repr == {this} && fields == map[] && View() == map[]
    {
      fields := map[];
      repr := {this};
    }
  }

  /** Everything in `parent` but what is below `key`: it reads as in `view`, and uses no maps but `rest`. */
  ghost predicate Intact(parent: Node, key: string, view: Fields, rest: set<Node>)
    reads parent, rest
  {
    && parent !in rest
    && view.Keys == parent.fields.Keys
    && (forall k | k in parent.fields && k != key && parent.fields[k].Leaf? ::
          view[k] == parent.fields[k].value && !parent.fields[k].value.JObj?)
    && (forall k | k in parent.fields && k != key && parent.fields[k].Sub? ::
          && parent.fields[k].node in rest
          && parent.fields[k].node.repr <= rest
          && parent.fields[k].node.Valid()
          && view[k] == JObj(parent.fields[k].node.View()))
    && (forall j, k | j in parent.fields && k in parent.fields && j != k && j != key && k != key &&
            parent.fields[j].Sub? && parent.fields[k].Sub? ::
          parent.fields[j].node.repr !! parent.fields[k].node.repr)
  }

  /** Taking a reference to a map below leaves the rest intact, whatever is done through the reference ... */
  lemma Exposed(parent: Node, key: string, child: Node)
    requires parent.Valid() && key in parent.fields && parent.fields[key] == Sub(child)
    ensures child in parent.repr && child.Valid() && child.repr <= parent.repr && parent !in child.repr
    ensures parent.View()[key] == JObj(child.View())
    ensures Intact(parent, key, parent.View(), parent.repr - child.repr - {parent})
  {
    forall k | k in parent.fields && k != key && parent.fields[k].Sub?
      ensures parent.fields[k].node.repr <= parent.repr - child.repr - {parent}
    {
      assert parent.fields[k].node.repr !! child.repr;
    }
  }

  /** ... and afterwards the parent reads as before, with the changed map below `key`. */
  lemma Restored(parent: Node, key: string, child: Node, view: Fields, rest: set<Node>)
    requires Intact(parent, key, view, rest) && key in parent.fields && parent.fields[key] == Sub(child)
    requires child.Valid() && child.repr !! rest && parent !in child.repr
    requires parent in parent.repr && rest <= parent.repr && child.repr <= parent.repr
    ensures parent.Valid() && parent.View() == view[key := JObj(child.View())]
  {
    forall k | k in parent.fields && k != key && parent.fields[k].Sub?
      ensures parent.fields[k].node.repr !! child.repr && parent !in parent.fields[k].node.repr
    {
      assert parent.fields[k].node.repr <= rest;
    }
  }

  // ---------- single steps ----------

  method PutLeaf(m: Node, key: string, value: JSON)
    requires m.Valid() && !value.JObj?
    modifies m`fields
    ensures m.Valid() && m.View() == ApplyOp(old(m.View()), key, Put(value))
  {
    m.fields := m.fields[key := Leaf(value)];
  }

  method PutLeafIfAbsent(m: Node, key: string, value: JSON)
    requires m.Valid() && !value.JObj?
    modifies m`fields
    ensures m.Valid() && m.View() == ApplyOp(old(m.View()), key, PutIfAbsent(value))
  {
    if key !in m.fields {
      PutLeaf(m, key, value);
    }
  }

  method Delete(m: Node, key: string)
    requires m.Valid()
    modifies m`fields
    ensures m.Valid() && m.View() == ApplyOp(old(m.View()), key, Remove)
  {
    m.fields := m.fields - {key};
  }

  /** ensureMap: a reference to the map below `key`, which is made if need be. */
  method EnsureMap(m: Node, key: string) returns (child: Node)
    requires m.Valid()
    modifies m
    ensures m.Valid() && key in m.fields && m.fields[key] == Sub(child) && child in m.repr && child.Valid()
    ensures fresh(m.repr - old(m.repr)) && m.repr <= old(m.repr) + child.repr
    ensures m.View() == ApplyOp(old(m.View()), key, MakeObject)
    ensures child.View() == Child(old(m.View()), key)
  {
    if key in m.fields && m.fields[key].Sub? {
      child := m.fields[key].node;
    } else {
      child := new Node();
      Attach(m, key, child);
    }
  }

  /** A new map, with what is below it, is put in place. */
  method Attach(m: Node, key: string, child: Node)
    requires m.Valid() && child.Valid() && child.repr !! m.repr
    requires key in m.fields ==> m.fields[key].Leaf?
    modifies m
    ensures m.Valid() && m.fields == old(m.fields)[key := Sub(child)] && m.repr == old(m.repr) + child.repr
    ensures m.View() == old(m.View())[key := JObj(old(child.View()))]
    ensures child.Valid() && child.View() == old(child.View())
  {
    ghost var before := m.fields;
    m.fields := m.fields[key := Sub(child)];
    m.repr := m.repr + child.repr;
    forall k | k in before && before[k].Sub?
      ensures before[k].node.Valid() && before[k].node.View() == old(before[k].node.View())
      ensures before[k].node.repr !! child.repr && m !in before[k].node.repr
    {
      assert before[k].node.repr <= old(m.repr);
    }
    assert m.Valid();
    assert m.View() == old(m.View())[key := JObj(child.View())];
  }

  // ---------- reading and writing the file ----------

  /** What has been copied while the keys `todo` are still to be done. */
  function Copied(fields: Fields, todo: set<string>): Fields { map k | k in fields && k !in todo :: fields[k] }

  lemma CopyOne(fields: Fields, todo: set<string>, k: string)
    requires k in todo && k in fields
    ensures Copied(fields, todo - {k}) == Copied(fields, todo)[k := fields[k]]
  {
  }

  /** json.Unmarshal into a fresh tree of maps. */
  method Decode(j: Object) returns (m: Node)
    ensures m.Valid() && fresh(m.repr) && m.View() == j.fields
    decreases j, 0
  {
    m := new Node();
    var todo := j.fields.Keys;
    while todo != {}
      invariant todo <= j.fields.Keys
      invariant m.Valid() && fresh(m.repr)
      invariant m.View() == Copied(j.fields, todo)
    {
      var k :| k in todo;
      CopyOne(j.fields, todo, k);
      todo := todo - {k};
      DecodeField(m, k, j.fields[k]);
    }
  }

  method DecodeField(m: Node, key: string, value: JSON)
    requires m.Valid() && key !in m.fields
    modifies m
    ensures m.Valid() && fresh(m.repr - old(m.repr)) && m.View() == old(m.View())[key := value]
    decreases value, 1
  {
    if value.JObj? {
      var child := Decode(value);
      Attach(m, key, child);
    } else {
      PutLeaf(m, key, value);
    }
  }

  /** json.Marshal */
  method Encode(m: Node) returns (j: Object)
    requires m.Valid()
    ensures j.fields == m.View()
    decreases m.repr
  {
    var fields: Fields := map[];
    var todo := m.fields.Keys;
    ghost var view := m.View();
    while todo != {}
      invariant todo <= m.fields.Keys
      invariant fields == Copied(view, todo)
    {
      var k :| k in todo;
      CopyOne(view, todo, k);
      todo := todo - {k};
      match m.fields[k] {
        case Leaf(v) => fields := fields[k := v];
        case Sub(n) =>
          assert n.repr < m.repr;
          var inner := Encode(n);
          fields := fields[k := inner];
      }
    }
    j := JObj(fields);
  }

  /** A reference to the map below `key`, with all that is needed to account for changes made through it. */
  method Open(m: Node, key: string) returns (child: Node, ghost view: Fields, ghost rest: set<Node>)
    requires m.Valid()
    modifies m
    ensures key in m.fields && m.fields[key] == Sub(child) && Intact(m, key, view, rest)
    ensures child.Valid() && child.View() == Child(old(m.View()), key)
    ensures view == ApplyOp(old(m.View()), key, MakeObject)
    ensures m !in child.repr && rest !! child.repr && rest <= old(m.repr) && m in old(m.repr)
    ensures forall n :: n in child.repr ==> n in old(m.repr) || fresh(n)
  {
    child := EnsureMap(m, key);
    Exposed(m, key, child);
    view, rest := m.View(), m.repr - child.repr - {m};
  }

  /** The account is settled: the map above reads as before, with the changed map below `key`. */
  ghost method Close(m: Node, key: string, child: Node, view: Fields, rest: set<Node>)
    requires key in m.fields && m.fields[key] == Sub(child) && Intact(m, key, view, rest)
    requires child.Valid() && m !in child.repr && rest !! child.repr
    modifies m`repr
    ensures m.repr == {m} + rest + child.repr
    ensures m.Valid() && m.View() == view[key := JObj(old(child.View()))]
  {
    m.repr := {m} + rest + child.repr;
    assert Intact(m, key, view, rest) && child.Valid();
    Restored(m, key, child, view, rest);
  }

  /** `ensureMap(m, key)[leaf] = value`, also where only a missing value is set. */
  method PutBelow(m: Node, key: string, leaf: string, op: Op)
    requires m.Valid() && (op.Put? || op.PutIfAbsent?) && !op.value.JObj?
    modifies m.repr
    ensures m.Valid() && fresh(m.repr - old(m.repr))
    ensures m.View() == ApplyAt(old(m.View()), [key, leaf], op)
  {
    ghost var before := m.View();
    var child := EnsureMap(m, key);
    PutInChild(m, key, child, leaf, op);
    TwoLevels(before, key, leaf, op);
  }

  lemma TwoLevels(m: Fields, key: string, leaf: string, op: Op)
    ensures ApplyAt(m, [key, leaf], op) ==
      ApplyOp(m, key, MakeObject)[key := JObj(ApplyOp(Child(m, key), leaf, op))]
  {
    assert [key, leaf][1..] == [leaf];
  }

  method PutInChild(m: Node, key: string, child: Node, leaf: string, op: Op)
    requires m.Valid() && key in m.fields && m.fields[key] == Sub(child) && child in m.repr && child.Valid()
    requires (op.Put? || op.PutIfAbsent?) && !op.value.JObj?
    modifies child`fields
    ensures m.Valid() && m.repr == old(m.repr) && child.Valid()
    ensures m.View() == old(m.View())[key := JObj(ApplyOp(old(child.View()), leaf, op))]
  {
    Exposed(m, key, child);
    ghost var view, rest := m.View(), m.repr - child.repr - {m};
    if op.Put? {
      PutLeaf(child, leaf, op.value);
    } else {
      PutLeafIfAbsent(child, leaf, op.value);
    }
    assert Intact(m, key, view, rest);
    Restored(m, key, child, view, rest);
  }
}
