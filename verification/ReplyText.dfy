/** How the text of a reply is pieced together from what the gateway repeats, extends or adds. */
module ReplyText {
  import opened GoText

  /** The chunk to send now, and the text sent so far including it. */
  datatype Merge = Merge(chunk: string, text: string)

  function IncrementalReplyText(assembled: string, current: string): (r: Merge)
    ensures r.text == assembled + r.chunk
  {
    var current := TrimNewlines(current);
    if current == "" then Merge("", assembled)
    else if assembled == "" then Merge(current, current)
    else if current == assembled then Merge("", assembled)
    else if assembled <= current then Merge(current[|assembled|..], current)
    else Merge(current, assembled + current)
  }

  /** The text after a whole stream of deltas. */
  function Assemble(assembled: string, deltas: seq<string>): string
    decreases |deltas|
  {
    if deltas == [] then assembled
    else Assemble(IncrementalReplyText(assembled, deltas[0]).text, deltas[1..])
  }

  /** Each text repeats the one before it, possibly with more at the end. */
  ghost predicate Cumulative(deltas: seq<string>) {
    forall i, j :: 0 <= i < j < |deltas| ==> deltas[i] <= deltas[j]
  }

  /** A cumulative stream assembles to its last text, newlines around it removed. */
  lemma {:induction false} CumulativeStream(deltas: seq<string>)
    requires deltas != [] && Cumulative(deltas)
    ensures Assemble("", deltas) == TrimNewlines(deltas[|deltas| - 1])
  {
    CumulativeFrom("", deltas);
  }

  lemma {:induction false} CumulativeFrom(base: string, deltas: seq<string>)
    requires Cumulative([base] + deltas)
    ensures Assemble(TrimNewlines(base), deltas) == TrimNewlines(([base] + deltas)[|deltas|])
    decreases |deltas|
  {
    if deltas != [] {
      var all, d := [base] + deltas, deltas[0];
      assert all[0] <= all[1];
      TrimMonotone(base, d, IsNewline);
      assert IncrementalReplyText(TrimNewlines(base), d).text == TrimNewlines(d);
      assert [d] + deltas[1..] == deltas;
      forall i, j | 0 <= i < j < |deltas| ensures deltas[i] <= deltas[j] {
        assert all[i + 1] <= all[j + 1];
      }
      CumulativeFrom(d, deltas[1..]);
    }
  }

  /** The delta has no newline at either end and does not itself begin with everything sent so far. */
  predicate Appends(assembled: string, delta: string) {
    delta == "" || (TrimNewlines(delta) == delta && (assembled == "" || !(assembled <= delta)))
  }

  /** One delta is appended as it stands exactly then; otherwise the text comes out shorter. */
  lemma AppendsIff(assembled: string, delta: string)
    ensures IncrementalReplyText(assembled, delta).text == assembled + delta <==> Appends(assembled, delta)
    ensures !Appends(assembled, delta) ==>
      |IncrementalReplyText(assembled, delta).text| < |assembled| + |delta|
  {
    TrimKeepsOnlyCut(delta, IsNewline);
    TrimLeftStops(delta, IsNewline);
    TrimRightStops(TrimLeft(delta, IsNewline), IsNewline);
    assert assembled + "" == assembled;
  }

  /** Newlines around a delta never matter. */
  lemma NewlinesDoNotMatter(assembled: string, delta: string)
    ensures IncrementalReplyText(assembled, TrimNewlines(delta)) == IncrementalReplyText(assembled, delta)
  {
    TrimIsTight(delta, IsNewline);
    TrimFixed(TrimNewlines(delta), IsNewline);
  }

  predicate PlainIncrements(assembled: string, deltas: seq<string>)
    decreases |deltas|
  {
    deltas == [] || (Appends(assembled, deltas[0]) && PlainIncrements(assembled + deltas[0], deltas[1..]))
  }

  /** A stream of increments is concatenated exactly when every piece is one that is appended. */
  lemma {:induction false} IncrementalStream(assembled: string, deltas: seq<string>)
    ensures Assemble(assembled, deltas) == assembled + Concat(deltas) <==> PlainIncrements(assembled, deltas)
    ensures |Assemble(assembled, deltas)| <= |assembled| + |Concat(deltas)|
    decreases |deltas|
  {
    if deltas == [] {
      assert assembled + "" == assembled;
    } else {
      var delta, rest := deltas[0], deltas[1..];
      var next := IncrementalReplyText(assembled, delta).text;
      AppendsIff(assembled, delta);
      IncrementalStream(next, rest);
      assert Assemble(assembled, deltas) == Assemble(next, rest);
      assert Concat(deltas) == delta + Concat(rest);
      if Appends(assembled, delta) {
        assert assembled + delta + Concat(rest) == assembled + (delta + Concat(rest));
      }
    }
  }

  /** A repeated piece is taken for a repeated text, and lost. */
  lemma IncrementsMayBeLost()
    ensures Assemble("", ["ha", "ha"]) == "ha"
  {
    TrimFixed("ha", IsNewline);
    assert Assemble("", ["ha", "ha"]) == Assemble("ha", ["ha", "ha"][1..]);
  }
}
