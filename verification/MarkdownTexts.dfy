/** How the text of a message is put together from structured content. */
module MarkdownTexts {
  import opened GoText
  import opened Json
  import opened ChatEvents
  import opened EventFields

  // ---------- deep strings ----------

  /** A structure stands for the first text among five of its fields. */
  lemma DeepStringOfObject(v: Object, text: string)
    requires text != ""
    ensures DeepString(v) == text <==>
      IsFirstText([DeepField(v, "text"), DeepField(v, "delta"), DeepField(v, "content"), DeepField(v, "message"),
                   DeepField(v, "value")], text)
  {
    var a, b, c, d, e := DeepField(v, "text"), DeepField(v, "delta"), DeepField(v, "content"),
      DeepField(v, "message"), DeepField(v, "value");
    DeepStep(v, "text", ["delta", "content", "message", "value"]);
    DeepStep(v, "delta", ["content", "message", "value"]);
    DeepStep(v, "content", ["message", "value"]);
    DeepStep(v, "message", ["value"]);
    DeepStep(v, "value", []);
    FirstTextIs([a, b, c, d, e], text);
    FirstOf(a, [b, c, d, e]);
    FirstOfFour(b, c, d, e);
    assert [a, b, c, d, e] == [a] + [b, c, d, e];
    DeepInOrder(v);
  }

  lemma DeepStep(v: Object, key: string, others: seq<string>)
    ensures DeepFirst(v, [key] + others) == if DeepField(v, key) != "" then DeepField(v, key) else DeepFirst(v, others)
  {
    assert ([key] + others)[1..] == others;
  }

  lemma DeepInOrder(v: Object)
    ensures DeepString(v) == DeepFirst(v, ["text"] + ["delta", "content", "message", "value"])
    ensures ["delta"] + ["content", "message", "value"] == ["delta", "content", "message", "value"]
    ensures ["content"] + ["message", "value"] == ["content", "message", "value"]
    ensures ["message"] + ["value"] == ["message", "value"] && ["value"] + [] == ["value"]
    ensures DeepFirst(v, []) == ""
  {
    assert ["text"] + ["delta", "content", "message", "value"] == DEEP_KEYS;
  }

  /** A list stands for its items' texts, one after the other. */
  lemma {:induction false} DeepStringOfList(a: seq<JSON>, b: seq<JSON>)
    ensures DeepString(JArr(a + b)) == DeepString(JArr(a)) + DeepString(JArr(b))
  {
    if a == [] {
      assert a + b == b;
    } else {
      assert (a + b)[1..] == a[1..] + b;
      DeepStringOfList(a[1..], b);
    }
  }

  lemma DeepStringOfOne(v: JSON)
    ensures DeepString(JArr([v])) == DeepString(v)
    ensures v.JStr? ==> DeepString(v) == v.text
    ensures v.JNull? || v.JBool? || v.JNum? ==> DeepString(v) == ""
  {
    assert [v][1..] == [] && DeepString(v) + "" == DeepString(v);
    assert DeepString(JArr([v])) == DeepConcat([v]);
  }

  // ---------- blocks ----------

  function KindOf(block: Object): string { Word(FirstString(block, ["type", "kind"])) }

  predicate IsCode(kind: string) { kind == "code" || kind == "input_code" || kind == "output_code" }

  predicate IsPlain(kind: string) { kind == "" || kind == "text" || kind == "markdown" || kind == "md" }

  /** A text block has its text; a block of any other kind but code has its value if it has no text. */
  lemma TextBlock(block: Object)
    requires !IsCode(KindOf(block))
    ensures DeepField(block, "text") != "" ==> BlockText(block) == DeepField(block, "text")
    ensures DeepField(block, "text") == "" ==>
      BlockText(block) == if IsPlain(KindOf(block)) then "" else DeepField(block, "value")
  {
  }

  /** The field where a block's code is: the first that is not blank. */
  predicate CodeAt(block: Object, key: string) {
    !Blank(DeepField(block, key)) &&
    match key
    case "code" => true
    case "text" => Blank(DeepField(block, "code"))
    case "value" => Blank(DeepField(block, "code")) && Blank(DeepField(block, "text"))
    case "content" =>
      Blank(DeepField(block, "code")) && Blank(DeepField(block, "text")) && Blank(DeepField(block, "value"))
    case _ => false
  }

  function Language(block: Object): string {
    if !Blank(DeepField(block, "language")) then TrimSpace(DeepField(block, "language"))
    else TrimSpace(DeepField(block, "lang"))
  }

  /** A code block is fenced, the language after the opening fence; one without code is nothing. */
  lemma CodeBlock(block: Object, key: string)
    requires IsCode(KindOf(block))
    ensures CodeAt(block, key) ==>
      BlockText(block) == "```" + Language(block) + "\n" + TrimNewlines(DeepField(block, key)) + "\n```"
    ensures (forall k :: !CodeAt(block, k)) ==> BlockText(block) == ""
  {
    CodeIs(block, key);
    LanguageIs(block);
    BlankChars("");
    BlankChars(DeepField(block, key));
    TrimKeepsOnlyCut(DeepField(block, key), IsNewline);
    if forall k :: !CodeAt(block, k) {
      CodeIs(block, "code");
      CodeIs(block, "text");
      CodeIs(block, "value");
      CodeIs(block, "content");
    }
  }

  lemma CodeIs(block: Object, key: string)
    ensures var code := FirstDeepString(block, ["code", "text", "value", "content"]);
      && (CodeAt(block, key) ==> code == DeepField(block, key))
      && (code != "" ==> CodeAt(block, "code") || CodeAt(block, "text") || CodeAt(block, "value")
                         || CodeAt(block, "content"))
  {
    var keys := ["code", "text", "value", "content"];
    assert keys[1..] == ["text", "value", "content"] && keys[1..][1..] == ["value", "content"];
    assert keys[1..][1..][1..] == ["content"] && keys[1..][1..][1..][1..] == [];
    assert FirstDeepString(block, []) == "";
    assert FirstDeepString(block, ["content"]) ==
      if !Blank(DeepField(block, "content")) then DeepField(block, "content") else "";
    assert FirstDeepString(block, ["value", "content"]) ==
      if !Blank(DeepField(block, "value")) then DeepField(block, "value") else FirstDeepString(block, ["content"]);
  }

  lemma LanguageIs(block: Object)
    ensures TrimSpace(FirstDeepString(block, ["language", "lang"])) == Language(block)
  {
    var keys := ["language", "lang"];
    assert keys[1..] == ["lang"] && keys[1..][1..] == [];
    assert FirstDeepString(block, []) == "";
    assert FirstDeepString(block, ["lang"]) ==
      if !Blank(DeepField(block, "lang")) then DeepField(block, "lang") else "";
    BlankChars("");
  }

  /** Content comes before what else a block says. */
  lemma ContentFirst(v: Object)
    ensures MarkdownField(v, "content") != "" ==> MarkdownBlocks(v) == MarkdownField(v, "content")
    ensures MarkdownField(v, "content") == "" ==> MarkdownBlocks(v) == BlockText(v)
  {
  }

  // ---------- joining ----------

  /** The blocks of a list are those of its items, in order, blank ones left out. */
  lemma {:induction false} BlocksAppend(a: seq<JSON>, b: seq<JSON>)
    ensures NonBlankBlocks(a + b) == NonBlankBlocks(a) + NonBlankBlocks(b)
  {
    if a == [] {
      assert a + b == b;
    } else {
      assert (a + b)[1..] == a[1..] + b;
      BlocksAppend(a[1..], b);
    }
  }

  lemma OneBlock(v: JSON)
    ensures NonBlankBlocks([v]) == if Blank(MarkdownBlocks(v)) then [] else [MarkdownBlocks(v)]
    ensures MarkdownBlocks(JArr([v])) == if Blank(MarkdownBlocks(v)) then "" else MarkdownBlocks(v)
  {
    assert [v][1..] == [];
  }

  /** After the first block and `gap` a line is over, and an empty one comes before the next block's text. */
  predicate Separates(prev: string, gap: string, block: string) {
    HasSuffix(prev + gap, "\n") && (HasSuffix(prev + gap, "\n\n") || "\n" <= block)
  }

  /** Between two blocks come just as many newlines as are missing for a blank line. */
  lemma GapIsLeast(prev: string, block: string)
    ensures Gap(prev, block) == "" || Gap(prev, block) == "\n" || Gap(prev, block) == "\n\n"
    ensures Separates(prev, Gap(prev, block), block)
    ensures Gap(prev, block) != "" ==> !Separates(prev, Gap(prev, block)[1..], block)
  {
    GapIs(prev, block);
    NoneSeparates(prev, block);
    OneSeparates(prev, block);
    TwoSeparate(prev, block);
    NewlineEnds(prev);
    assert "\n\n"[1..] == "\n" && "\n"[1..] == "";
  }

  lemma GapIs(prev: string, block: string)
    ensures Gap(prev, block) ==
      if HasSuffix(prev, "\n") then (if HasSuffix(prev, "\n\n") || "\n" <= block then "" else "\n")
      else if HasSuffix(prev, "\n\n") || "\n" <= block then "\n" else "\n\n"
  {
    assert "\n" + "\n" == "\n\n" && "\n" + "" == "\n" && "" + "\n" == "\n" && "" + "" == "";
  }

  lemma NoneSeparates(prev: string, block: string)
    ensures Separates(prev, "", block) <==>
      HasSuffix(prev, "\n") && (HasSuffix(prev, "\n\n") || "\n" <= block)
  {
    assert prev + "" == prev;
  }

  lemma OneSeparates(prev: string, block: string)
    ensures Separates(prev, "\n", block) <==> HasSuffix(prev, "\n") || "\n" <= block
  {
    NewlineEnds(prev);
  }

  lemma TwoSeparate(prev: string, block: string)
    ensures Separates(prev, "\n\n", block)
  {
    NewlineEnds(prev);
    NewlineEnds(prev + "\n");
    assert prev + "\n" + "\n" == prev + "\n\n";
  }

  lemma NewlineEnds(s: string)
    ensures HasSuffix(s + "\n", "\n")
    ensures HasSuffix(s + "\n", "\n\n") <==> HasSuffix(s, "\n")
    ensures HasSuffix(s, "\n\n") ==> HasSuffix(s, "\n")
  {
    assert (s + "\n")[|s|..] == "\n";
    if s != "" {
      assert (s + "\n")[|s| - 1..] == s[|s| - 1..] + "\n";
      assert s[|s| - 1..] == [s[|s| - 1]];
    }
  }
}
