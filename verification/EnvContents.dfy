/** What .env says for a payload, key by key, and what the readers make of files nobody printed. */
module EnvContents {
  import opened GoText
  import opened Json
  import opened Settings
  import opened EnvFile

  const FALLBACK_KEYS := {"VORTEX_OPENAI_API_KEY", "MINIMAX_API_KEY"}

  predicate ForDaemon(key: string) {
    || key == "CLOUD_WS_URL" || key == "EDGE_GATEWAY_WS_URL"
    || key == "PROVIDER_API_KEY_ENV" || key == "PROVIDER_BASE_URL" || key == "PROVIDER_API_TYPE"
  }

  /** A provider key that the payload does not have, while it has a general one. */
  predicate FallsBack(values: Values, key: string) {
    key in FALLBACK_KEYS && key !in values && Get(values, "API_KEY") != ""
  }

  /** Every setting of the payload is there as it was sent, except those for the daemon; the two provider keys fall
      back on the general one exactly if they are missing; and there is nothing else. */
  lemma VisibleIs(values: Values, key: string)
    ensures key in Visible(values) <==> !ForDaemon(key) && (key in values || FallsBack(values, key))
    ensures key in Visible(values) && key in values ==> Visible(values)[key] == values[key]
    ensures key in Visible(values) && key !in values ==> Visible(values)[key] == Get(values, "API_KEY")
  {
  }

  /** What is printed is clean if what was sent is, settings for the daemon aside. */
  lemma CleanPayload(values: Values)
    ensures Clean(Visible(values)) <==>
      forall key :: key in values && !ForDaemon(key) ==> CleanKey(key) && CleanValue(values[key])
  {
    if Clean(Visible(values)) {
      forall key | key in values && !ForDaemon(key) ensures CleanKey(key) && CleanValue(values[key]) {
        VisibleIs(values, key);
        assert key in Visible(values);
      }
    }
    if forall key :: key in values && !ForDaemon(key) ==> CleanKey(key) && CleanValue(values[key]) {
      forall key | key in Visible(values) ensures CleanKey(key) && CleanValue(Visible(values)[key]) {
        VisibleIs(values, key);
        FallbackIsClean(values, key);
      }
    }
  }

  lemma FallbackIsClean(values: Values, key: string)
    requires forall k :: k in values && !ForDaemon(k) ==> CleanKey(k) && CleanValue(values[k])
    ensures FallsBack(values, key) ==> CleanKey(key) && CleanValue(Get(values, "API_KEY"))
  {
    if FallsBack(values, key) {
      assert "API_KEY" in values && !ForDaemon("API_KEY");
      assert CleanKey("VORTEX_OPENAI_API_KEY") && CleanKey("MINIMAX_API_KEY");
    }
  }

  /** From a clean payload through the file to the video service: each setting arrives as it was sent, the two
      provider keys fall back, and nothing for the daemon is to be seen. */
  lemma ServiceReads(values: Values, key: string)
    requires forall k :: k in values && !ForDaemon(k) ==> CleanKey(k) && CleanValue(values[k])
    ensures var read := LoadLines(SplitLines(Print(Visible(values))));
      && (key in read <==> !ForDaemon(key) && (key in values || FallsBack(values, key)))
      && (key in read ==> read[key] == if key in values then values[key] else Get(values, "API_KEY"))
  {
    CleanPayload(values);
    PayloadRoundTripIff(values);
    VisibleIs(values, key);
  }

  // ---------- any file ----------

  predicate Assigns(line: string, key: string) { ParseLine(line).Some? && ParseLine(line).value.0 == key }

  /** The video service takes the last assignment of a key, without the quotes around it, ... */
  lemma {:induction false} LastAssignmentCounts(lines: seq<string>, key: string, i: nat)
    requires i < |lines| && Assigns(lines[i], key) && forall j :: i < j < |lines| ==> !Assigns(lines[j], key)
    ensures key in LoadLines(lines) && LoadLines(lines)[key] == StripAll(ParseLine(lines[i]).value.1)
  {
    if i < |lines| - 1 {
      LastAssignmentCounts(lines[..|lines| - 1], key, i);
      assert !Assigns(lines[|lines| - 1], key);
    }
  }

  /** ... the token readers the first; ... */
  lemma {:induction false} FirstAssignmentCounts(lines: seq<string>, key: string, i: nat)
    requires i < |lines| && Assigns(lines[i], key) && forall j :: 0 <= j < i ==> !Assigns(lines[j], key)
    ensures FirstAssignment(lines, key) == Some(ParseLine(lines[i]).value.1)
  {
    if i > 0 {
      FirstAssignmentCounts(lines[1..], key, i - 1);
    }
  }

  /** ... and a key that is never assigned is found by none of them. */
  lemma {:induction false} UnassignedIsNotFound(lines: seq<string>, key: string)
    requires forall i :: 0 <= i < |lines| ==> !Assigns(lines[i], key)
    ensures key !in LoadLines(lines)
    ensures FirstAssignment(lines, key) == None
    decreases |lines|
  {
    NotLoaded(lines, key);
    if lines != [] {
      UnassignedIsNotFound(lines[1..], key);
    }
  }

  lemma {:induction false} NotLoaded(lines: seq<string>, key: string)
    requires forall i :: 0 <= i < |lines| ==> !Assigns(lines[i], key)
    ensures key !in LoadLines(lines)
  {
    if lines != [] {
      NotLoaded(lines[..|lines| - 1], key);
      assert !Assigns(lines[|lines| - 1], key);
    }
  }

  /** An assignment is `key=value`, blanks around either not counted, and not a comment; the first `=` counts. */
  lemma AssignmentIs(line: string, key: string, value: string)
    ensures ParseLine(line) == Some((key, value)) <==>
      exists left, right :: IsAssignment(line, left, right) && key == TrimSpace(left) && value == TrimSpace(right)
  {
    if ParseLine(line).Some? {
      ParsedIsAssignment(line);
    }
    forall left, right | IsAssignment(line, left, right)
      ensures ParseLine(line) == Some((TrimSpace(left), TrimSpace(right)))
    {
      AssignmentIsParsed(line, left, right);
    }
  }

  lemma ParsedIsAssignment(line: string)
    requires ParseLine(line).Some?
    ensures exists left, right ::
      IsAssignment(line, left, right) && ParseLine(line).value == (TrimSpace(left), TrimSpace(right))
  {
    var t := TrimSpace(line);
    var i := IndexOf(t, '=');
    assert t == t[..i] + "=" + t[i + 1..];
    assert IsAssignment(line, t[..i], t[i + 1..]);
  }

  lemma AssignmentIsParsed(line: string, left: string, right: string)
    requires IsAssignment(line, left, right)
    ensures ParseLine(line) == Some((TrimSpace(left), TrimSpace(right)))
  {
    var t := TrimSpace(line);
    assert t[..|left|] == left && t[|left|] == '=' && t[|left| + 1..] == right;
    FirstIndex(t, '=', |left|);
  }

  predicate IsAssignment(line: string, left: string, right: string) {
    TrimSpace(line) == left + "=" + right && '=' !in left && !Blank(left) && left[0] != '#'
  }
}
