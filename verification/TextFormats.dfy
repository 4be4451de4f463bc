/** There are file formats of the kind `Apply` relies on: an encoding in which no text begins another. */
module TextFormats {
  import opened Json
  import opened JsonEdits
  import opened Sorting
  import opened Store
  import opened ConfigMachine
  import opened ConfigManager

  function Unary(n: nat): string { if n == 0 then "." else "1" + Unary(n - 1) }

  function Signed(n: int): string { (if n < 0 then "-" else "+") + Unary(Magnitude(n)) }

  function Counted(s: string): string { Unary(|s|) + s }

  ghost function Text(j: JSON): string
    decreases j, 1
  {
    match j
    case JNull => "n"
    case JBool(flag) => if flag then "t" else "f"
    case JNum(n) => "d" + (Signed(n.mantissa) + Signed(n.exponent))
    case JStr(text) => "s" + Counted(text)
    case JArr(items) => "a" + (Unary(|items|) + TextAll(items))
    case JObj(fields) => "o" + (Unary(|InOrder(fields.Keys)|) + TextFields(j, InOrder(fields.Keys)))
  }

  ghost function TextAll(items: seq<JSON>): string
    decreases items, 0
  {
    if items == [] then "" else Text(items[0]) + TextAll(items[1..])
  }

  ghost function TextFields(j: Object, keys: seq<string>): string
    requires forall k :: k in keys ==> k in j.fields
    decreases j, 0, keys
  {
    if keys == [] then "" else Counted(keys[0]) + (Text(j.fields[keys[0]]) + TextFields(j, keys[1..]))
  }

  // ---------- no text begins another ----------

  lemma {:induction false} UnaryApart(a: nat, b: nat, x: string, y: string)
    requires Unary(a) + x == Unary(b) + y
    ensures a == b && x == y
  {
    var s, t := Unary(a) + x, Unary(b) + y;
    assert s[0] == t[0];
    if a == 0 || b == 0 {
      assert s[1..] == t[1..];
    } else {
      assert s[1..] == Unary(a - 1) + x && t[1..] == Unary(b - 1) + y;
      UnaryApart(a - 1, b - 1, x, y);
    }
  }

  lemma SignedApart(a: int, b: int, x: string, y: string)
    requires Signed(a) + x == Signed(b) + y
    ensures a == b && x == y
  {
    var s, t := Signed(a) + x, Signed(b) + y;
    assert s[0] == t[0];
    assert s[1..] == Unary(Magnitude(a)) + x && t[1..] == Unary(Magnitude(b)) + y;
    UnaryApart(Magnitude(a), Magnitude(b), x, y);
  }

  lemma CountedApart(a: string, b: string, x: string, y: string)
    requires Counted(a) + x == Counted(b) + y
    ensures a == b && x == y
  {
    assert Counted(a) + x == Unary(|a|) + (a + x) && Counted(b) + y == Unary(|b|) + (b + y);
    UnaryApart(|a|, |b|, a + x, b + y);
    assert (a + x)[..|a|] == a && (b + y)[..|b|] == b && (a + x)[|a|..] == x && (b + y)[|b|..] == y;
  }

  lemma Headed(c: char, d: char, a: string, b: string, x: string, y: string)
    requires [c] + a + x == [d] + b + y
    ensures c == d && a + x == b + y
  {
    var s, t := [c] + a + x, [d] + b + y;
    assert s[0] == t[0];
    assert s[1..] == a + x && t[1..] == b + y;
  }

  function Tag(j: JSON): char {
    match j
    case JNull => 'n' case JBool(flag) => (if flag then 't' else 'f') case JNum(_) => 'd' case JStr(_) => 's'
    case JArr(_) => 'a' case JObj(_) => 'o'
  }

  ghost function Body(j: JSON): string {
    match j
    case JNull => ""
    case JBool(_) => ""
    case JNum(n) => Signed(n.mantissa) + Signed(n.exponent)
    case JStr(text) => Counted(text)
    case JArr(items) => Unary(|items|) + TextAll(items)
    case JObj(fields) => Unary(|InOrder(fields.Keys)|) + TextFields(j, InOrder(fields.Keys))
  }

  lemma TagAndBody(j: JSON)
    ensures Text(j) == [Tag(j)] + Body(j)
  {
  }

  lemma {:induction false} TextApart(j: JSON, k: JSON, x: string, y: string)
    requires Text(j) + x == Text(k) + y
    ensures j == k && x == y
    decreases j, 2
  {
    TagAndBody(j);
    TagAndBody(k);
    Headed(Tag(j), Tag(k), Body(j), Body(k), x, y);
    match j {
      case JNum(n) => NumberApart(n, k.number, x, y);
      case JStr(text) => CountedApart(text, k.text, x, y);
      case JArr(items) => ItemsApart(items, k.items, x, y);
      case JObj(_) => MembersApart(j, k, x, y);
      case _ =>
        assert "" + x == x && "" + y == y;
    }
  }

  lemma Joined(a: string, b: string, x: string)
    ensures a + b + x == a + (b + x)
  {
  }

  lemma NumberApart(a: Float, b: Float, x: string, y: string)
    requires Signed(a.mantissa) + Signed(a.exponent) + x == Signed(b.mantissa) + Signed(b.exponent) + y
    ensures a == b && x == y
  {
    Joined(Signed(a.mantissa), Signed(a.exponent), x);
    Joined(Signed(b.mantissa), Signed(b.exponent), y);
    SignedApart(a.mantissa, b.mantissa, Signed(a.exponent) + x, Signed(b.exponent) + y);
    SignedApart(a.exponent, b.exponent, x, y);
  }

  lemma ItemsApart(a: seq<JSON>, b: seq<JSON>, x: string, y: string)
    requires Unary(|a|) + TextAll(a) + x == Unary(|b|) + TextAll(b) + y
    ensures a == b && x == y
    decreases a, 1
  {
    Joined(Unary(|a|), TextAll(a), x);
    Joined(Unary(|b|), TextAll(b), y);
    UnaryApart(|a|, |b|, TextAll(a) + x, TextAll(b) + y);
    AllApart(a, b, x, y);
  }

  lemma MembersApart(j: Object, k: Object, x: string, y: string)
    requires Body(j) + x == Body(k) + y
    ensures j == k && x == y
    decreases j, 1
  {
    var a, b := InOrder(j.fields.Keys), InOrder(k.fields.Keys);
    Joined(Unary(|a|), TextFields(j, a), x);
    Joined(Unary(|b|), TextFields(k, b), y);
    UnaryApart(|a|, |b|, TextFields(j, a) + x, TextFields(k, b) + y);
    FieldsApart(j, k, a, b, x, y);
    SameFields(j, k, a);
  }

  lemma SameFields(j: Object, k: Object, keys: seq<string>)
    requires Enumerates(keys, j.fields.Keys) && Enumerates(keys, k.fields.Keys)
    requires forall q :: q in keys ==> j.fields[q] == k.fields[q]
    ensures j == k
  {
    assert j.fields.Keys == k.fields.Keys;
    assert j.fields == k.fields;
  }

  lemma {:induction false} AllApart(a: seq<JSON>, b: seq<JSON>, x: string, y: string)
    requires |a| == |b| && TextAll(a) + x == TextAll(b) + y
    ensures a == b && x == y
    decreases a, 0
  {
    if a == [] {
      assert "" + x == x && "" + y == y;
    } else {
      assert TextAll(a) + x == Text(a[0]) + (TextAll(a[1..]) + x);
      assert TextAll(b) + y == Text(b[0]) + (TextAll(b[1..]) + y);
      TextApart(a[0], b[0], TextAll(a[1..]) + x, TextAll(b[1..]) + y);
      AllApart(a[1..], b[1..], x, y);
      assert a == [a[0]] + a[1..] && b == [b[0]] + b[1..];
    }
  }

  lemma {:induction false} FieldsApart(j: Object, k: Object, a: seq<string>, b: seq<string>, x: string, y: string)
    requires |a| == |b| && (forall q :: q in a ==> q in j.fields) && (forall q :: q in b ==> q in k.fields)
    requires TextFields(j, a) + x == TextFields(k, b) + y
    ensures a == b && x == y && forall q :: q in a ==> j.fields[q] == k.fields[q]
    decreases j, 0, a
  {
    if a == [] {
      assert "" + x == x && "" + y == y;
    } else {
      var restA, restB := TextFields(j, a[1..]) + x, TextFields(k, b[1..]) + y;
      assert TextFields(j, a) + x == Counted(a[0]) + (Text(j.fields[a[0]]) + restA);
      assert TextFields(k, b) + y == Counted(b[0]) + (Text(k.fields[b[0]]) + restB);
      CountedApart(a[0], b[0], Text(j.fields[a[0]]) + restA, Text(k.fields[b[0]]) + restB);
      TextApart(j.fields[a[0]], k.fields[b[0]], restA, restB);
      FieldsApart(j, k, a[1..], b[1..], x, y);
      assert a == [a[0]] + a[1..] && b == [b[0]] + b[1..];
    }
  }

  ghost function StateText(s: State): string {
    Signed(s.version) + (Counted(s.token) + (match s.identity
      case None => "n"
      case Some(i) => "s" + (Counted(i.deviceID) + (Counted(i.publicKey) + Counted(i.privateKey)))))
  }

  lemma StateTextApart(s: State, t: State)
    requires StateText(s) == StateText(t)
    ensures s == t
  {
    var restS, restT := StateText(s)[|Signed(s.version)|..], StateText(t)[|Signed(t.version)|..];
    SignedApart(s.version, t.version, restS, restT);
    var idS, idT := restS[|Counted(s.token)|..], restT[|Counted(t.token)|..];
    assert restS == Counted(s.token) + idS && restT == Counted(t.token) + idT;
    CountedApart(s.token, t.token, idS, idT);
    assert idS[0] == idT[0];
    if s.identity.Some? {
      var i, k := s.identity.value, t.identity.value;
      assert idS[1..] == Counted(i.deviceID) + (Counted(i.publicKey) + Counted(i.privateKey));
      assert idT[1..] == Counted(k.deviceID) + (Counted(k.publicKey) + Counted(k.privateKey));
      CountedApart(i.deviceID, k.deviceID,
        Counted(i.publicKey) + Counted(i.privateKey), Counted(k.publicKey) + Counted(k.privateKey));
      CountedApart(i.publicKey, k.publicKey, Counted(i.privateKey), Counted(k.privateKey));
      assert Counted(i.privateKey) + "" == Counted(k.privateKey) + "";
      CountedApart(i.privateKey, k.privateKey, "", "");
    }
  }

  // ---------- the formats ----------

  ghost function ReadText(s: string): JsonFile {
    if exists doc: Fields :: Text(JObj(doc)) == s then
      var doc: Fields :| Text(JObj(doc)) == s;
      Doc(doc)
    else Malformed
  }

  ghost function ReadState(s: string): Option<State> {
    if exists state: State :: StateText(state) == s then
      var state: State :| StateText(state) == s;
      Some(state)
    else None
  }

  /** So what is required of the formats can be met. */
  lemma FormatsExist()
    ensures exists f: Formats :: Faithful(f)
  {
    var codec := Codec((s: State) => StateText(s), (t: string) => ReadState(t));
    forall s: State ensures codec.decode(codec.encode(s)) == Some(s) {
      var t: State :| StateText(t) == StateText(s) && ReadState(StateText(s)) == Some(t);
      StateTextApart(s, t);
    }
    var f := Formats(codec, (url: string) => url, (text: string) => text,
      (doc: Fields) => Text(JObj(doc)), (text: string) => ReadText(text));
    forall doc: Fields ensures f.writeJson(doc) != "" && f.readJson(f.writeJson(doc)) == Doc(doc) {
      var d: Fields :| Text(JObj(d)) == Text(JObj(doc)) && ReadText(Text(JObj(doc))) == Doc(d);
      assert Text(JObj(d)) + "" == Text(JObj(doc)) + "";
      TextApart(JObj(d), JObj(doc), "", "");
    }
    assert Faithful(f);
  }
}
