/** The .env file: how the manager prints it, and how three readers read it back. */
module EnvFile {
  import opened GoText
  import opened Json
  import opened Sorting
  import opened Settings

  // ---------- what is printed ----------

  predicate IsDaemonOnly(key: string) {
    key in {"CLOUD_WS_URL", "EDGE_GATEWAY_WS_URL", "PROVIDER_API_KEY_ENV", "PROVIDER_BASE_URL", "PROVIDER_API_TYPE"}
  }

  /** A provider key that is not given falls back on API_KEY. */
  function WithFallback(values: Values, key: string): Values {
    if key !in values && "API_KEY" in values && values["API_KEY"] != "" then values[key := values["API_KEY"]]
    else values
  }

  function Effective(values: Values): Values {
    WithFallback(WithFallback(values, "VORTEX_OPENAI_API_KEY"), "MINIMAX_API_KEY")
  }

  function Visible(values: Values): Values {
    map k | k in Effective(values) && !IsDaemonOnly(k) :: Effective(values)[k]
  }

  function ShellEscape(value: string): string { "'" + EscapeQuotes(value) + "'" }

  function EscapeQuotes(value: string): string {
    if value == "" then ""
    else (if value[0] == '\'' then "'\"'\"'" else [value[0]]) + EscapeQuotes(value[1..])
  }

  function PrintLine(key: string, value: string): string { key + "=" + ShellEscape(value) }

  function Lines(m: Values, keys: seq<string>): seq<string>
    requires forall k :: k in keys ==> k in m
  {
    seq(|keys|, i requires 0 <= i < |keys| => PrintLine(keys[i], m[keys[i]]))
  }

  /** Each line and a newline. */
  function Terminated(lines: seq<string>): string {
    if lines == [] then "" else lines[0] + "\n" + Terminated(lines[1..])
  }

  /** The file's content, keys in order. */
  ghost function Print(m: Values): string { Terminated(Lines(m, InOrder(m.Keys))) }

  method WriteEnv(values: Values) returns (content: string)
    ensures content == Print(Visible(values))
  {
    var effective := WithFallback(values, "VORTEX_OPENAI_API_KEY");
    effective := WithFallback(effective, "MINIMAX_API_KEY");
    var keys := VisibleKeys(effective);
    keys := SortStrings(keys, Visible(values).Keys);
    VisibleValues(values, effective);
    content := PrintLines(keys, effective, Visible(values));
  }

  lemma VisibleValues(values: Values, effective: Values)
    requires effective == Effective(values)
    ensures forall k :: k in Visible(values) ==> k in effective && effective[k] == Visible(values)[k]
  {
  }

  method PrintLines(keys: seq<string>, effective: Values, ghost m: Values) returns (content: string)
    requires forall k :: k in keys ==> k in m
    requires forall k :: k in m ==> k in effective && effective[k] == m[k]
    ensures content == Terminated(Lines(m, keys))
  {
    var lines: seq<string> := [];
    for i := 0 to |keys|
      invariant lines == Lines(m, keys)[..i]
    {
      assert keys[i] in m;
      lines := lines + [PrintLine(keys[i], effective[keys[i]])];
    }
    assert lines == Lines(m, keys);
    content := Join(lines, "\n");
    JoinTerminated(lines);
    if content != "" {
      content := content + "\n";
    }
  }

  /** The keys, in the map's own order, which is not specified. */
  method VisibleKeys(effective: Values) returns (keys: seq<string>)
    ensures Enumerates(keys, PrintedKeys(effective))
  {
    keys := [];
    var todo := effective.Keys;
    assert PrintedKeys(effective) - todo == {};
    while todo != {}
      invariant todo <= effective.Keys
      invariant Enumerates(keys, PrintedKeys(effective) - todo)
    {
      var k :| k in todo;
      ghost var before := PrintedKeys(effective) - todo;
      todo := todo - {k};
      if !IsDaemonOnly(k) {
        assert PrintedKeys(effective) - todo == before + {k};
        keys := keys + [k];
      } else {
        assert PrintedKeys(effective) - todo == before;
      }
    }
    assert PrintedKeys(effective) - todo == PrintedKeys(effective);
  }

  ghost function PrintedKeys(effective: Values): set<string> { set k | k in effective && !IsDaemonOnly(k) }

  lemma {:induction false} JoinTerminated(lines: seq<string>)
    requires forall l :: l in lines ==> l != ""
    ensures Terminated(lines) == if lines == [] then "" else Join(lines, "\n") + "\n"
    ensures Join(lines, "\n") == "" <==> lines == []
  {
    if |lines| == 1 {
      assert lines[1..] == [];
      assert lines[0] in lines;
      assert lines[0] + "\n" + "" == lines[0] + "\n";
    } else if |lines| > 1 {
      assert lines[0] in lines;
      assert forall l :: l in lines[1..] ==> l in lines;
      JoinTerminated(lines[1..]);
      assert lines[0] + "\n" + (Join(lines[1..], "\n") + "\n") == lines[0] + "\n" + Join(lines[1..], "\n") + "\n";
    }
  }

  // ---------- how it is read ----------

  /** strings.Split(content, "\n") */
  function SplitLines(content: string): seq<string>
    decreases |content|
  {
    var i := IndexOf(content, '\n');
    if i == |content| then [content] else [content[..i]] + SplitLines(content[i + 1..])
  }

  /** The key and the raw value of a line, unless it is blank, a comment, or no assignment. */
  function ParseLine(line: string): Option<(string, string)> {
    var t := TrimSpace(line);
    if t == "" || t[0] == '#' then None
    else
      var i := IndexOf(t, '=');
      if i == |t| || TrimSpace(t[..i]) == "" then None
      else Some((TrimSpace(t[..i]), TrimSpace(t[i + 1..])))
  }

  /** The video service reads a map; the last assignment of a key counts. */
  function LoadLines(lines: seq<string>): Values {
    if lines == [] then map[]
    else
      var m := LoadLines(lines[..|lines| - 1]);
      match ParseLine(lines[|lines| - 1])
      case None => m
      case Some((k, v)) => m[k := Trim(v, IsQuote)]
  }

  method LoadEnvFile(content: string) returns (result: Values)
    ensures result == LoadLines(SplitLines(content))
  {
    result := map[];
    var lines := SplitLines(content);
    for i := 0 to |lines|
      invariant result == LoadLines(lines[..i])
    {
      assert lines[..i + 1][..i] == lines[..i];
      match ParseLine(lines[i]) {
        case None =>
        case Some((key, value)) => result := result[key := Trim(value, IsQuote)];
      }
    }
    assert lines[..|lines|] == lines;
  }

  /** The manager takes off one pair of matching quotes, ... */
  function StripOnePair(value: string): string {
    if |value| >= 2 && IsQuote(value[0]) && value[|value| - 1] == value[0] then value[1..|value| - 1] else value
  }

  /** ... the gateway adapter all quotes around the value. */
  function StripAll(value: string): string { Trim(value, IsQuote) }

  /** Both look for the first assignment of one key, which is never the empty one. */
  function FirstAssignment(lines: seq<string>, key: string): Option<string> {
    if lines == [] then None
    else match ParseLine(lines[0])
      case Some((k, v)) => if k == key then Some(v) else FirstAssignment(lines[1..], key)
      case None => FirstAssignment(lines[1..], key)
  }

  function ReadToken(content: string, key: string, strip: string -> string): Option<string> {
    match FirstAssignment(SplitLines(content), key) case None => None case Some(v) => Some(strip(v))
  }

  method LoadGatewayTokenFromEnvFile(content: string, key: string,
      strip: string -> string) returns (token: Option<string>)
    ensures token == ReadToken(content, key, strip)
  {
    var lines := SplitLines(content);
    for i := 0 to |lines|
      invariant FirstAssignment(lines, key) == FirstAssignment(lines[i..], key)
    {
      assert lines[i..][1..] == lines[i + 1..];
      match ParseLine(lines[i]) {
        case None =>
        case Some((k, v)) =>
          if k == key {
            return Some(strip(v));
          }
      }
    }
    token := None;
  }

  // ---------- round trip ----------

  predicate CleanKey(k: string) {
    k != "" && !IsSpace(k[0]) && !IsSpace(k[|k| - 1]) && k[0] != '#' && '=' !in k && '\n' !in k
  }

  predicate CleanValue(v: string) {
    && '\n' !in v && '\'' !in v
    && (v != "" ==> v[0] != '"' && v[|v| - 1] != '"')
  }

  ghost predicate Printable(m: Values) {
    forall k :: k in m ==> CleanKey(k) && '\n' !in m[k]
  }

  ghost predicate Clean(m: Values) {
    forall k :: k in m ==> CleanKey(k) && CleanValue(m[k])
  }

  lemma {:induction false} EscapeFacts(v: string)
    ensures EscapeQuotes(v) == v <==> '\'' !in v
    ensures |EscapeQuotes(v)| >= |v|
    ensures '\n' in EscapeQuotes(v) <==> '\n' in v
    ensures v != "" && v[0] != '\'' ==> EscapeQuotes(v) != "" && EscapeQuotes(v)[0] == v[0]
    ensures v != "" && v[|v| - 1] != '\'' ==>
      EscapeQuotes(v) != "" && EscapeQuotes(v)[|EscapeQuotes(v)| - 1] == v[|v| - 1]
  {
    if v != "" {
      EscapeFacts(v[1..]);
      assert v == [v[0]] + v[1..];
    }
  }

  /** A printed line is read back as its key and its quoted value. */
  lemma ParsePrinted(k: string, v: string)
    requires CleanKey(k)
    ensures ParseLine(PrintLine(k, v)) == Some((k, ShellEscape(v)))
  {
    var line, q := PrintLine(k, v), ShellEscape(v);
    assert line == k + ("=" + q);
    assert line[|line| - 1] == '\'' && line[0] == k[0];
    TrimFixed(line, IsSpace);
    assert line[..|k|] == k && line[|k|] == '=' && line[|k| + 1..] == q;
    FirstIndex(line, '=', |k|);
    TrimFixed(k, IsSpace);
    TrimFixed(q, IsSpace);
  }

  lemma SplitAfterLine(l: string, rest: string)
    requires '\n' !in l
    ensures SplitLines(l + "\n" + rest) == [l] + SplitLines(rest)
  {
    var content := l + "\n" + rest;
    assert content[..|l|] == l && content[|l|] == '\n' && content[|l| + 1..] == rest;
    FirstIndex(content, '\n', |l|);
  }

  lemma {:induction false} SplitTerminated(lines: seq<string>)
    requires forall l :: l in lines ==> '\n' !in l
    ensures SplitLines(Terminated(lines)) == lines + [""]
  {
    if lines != [] {
      assert lines[0] in lines && lines == [lines[0]] + lines[1..];
      SplitTerminated(lines[1..]);
      SplitAfterLine(lines[0], Terminated(lines[1..]));
    }
  }

  /** Line by line, what was printed under clean keys is read back with all quotes around it taken off. */
  lemma {:induction false} LoadPrinted(m: Values, keys: seq<string>)
    requires forall k :: k in keys ==> k in m && CleanKey(k)
    ensures LoadLines(Lines(m, keys)) == map k | k in keys :: StripAll(ShellEscape(m[k]))
  {
    if keys != [] {
      var less, k := keys[..|keys| - 1], keys[|keys| - 1];
      assert Lines(m, keys)[..|keys| - 1] == Lines(m, less);
      LoadPrinted(m, less);
      ParsePrinted(k, m[k]);
      assert keys == less + [k];
    }
  }

  lemma LoadEmptyLast(lines: seq<string>)
    ensures LoadLines(lines + [""]) == LoadLines(lines)
  {
    assert (lines + [""])[..|lines|] == lines;
    assert TrimSpace("") == "";
  }

  lemma PrintedLines(m: Values)
    requires Printable(m)
    ensures SplitLines(Print(m)) == Lines(m, InOrder(m.Keys)) + [""]
  {
    var keys := InOrder(m.Keys);
    forall l | l in Lines(m, keys) ensures '\n' !in l {
      var i :| 0 <= i < |keys| && l == PrintLine(keys[i], m[keys[i]]);
      EscapeFacts(m[keys[i]]);
      assert keys[i] in m;
    }
    SplitTerminated(Lines(m, keys));
  }

  lemma LoadOfPrint(m: Values)
    requires Printable(m)
    ensures LoadLines(SplitLines(Print(m))) == map k | k in m :: StripAll(ShellEscape(m[k]))
  {
    var keys := InOrder(m.Keys);
    PrintedLines(m);
    LoadEmptyLast(Lines(m, keys));
    LoadPrinted(m, keys);
  }

  /** A value whose ends are not quotes loses just the quotes printed around it. */
  lemma StripAllPrinted(v: string)
    requires Tight(v, IsQuote)
    ensures StripAll(ShellEscape(v)) == EscapeQuotes(v)
  {
    EscapeFacts(v);
    if v == "" {
      TrimKeepsOnlyCut(ShellEscape(v), IsQuote);
    } else {
      TightTrimsBack("'", EscapeQuotes(v), "'", IsQuote);
    }
  }

  /** Whatever is in the file: what is read has clean keys, and values without newlines and without quotes around. */
  lemma {:induction false} LoadedIsTidy(lines: seq<string>)
    requires forall l :: l in lines ==> '\n' !in l
    ensures forall k :: k in LoadLines(lines) ==>
      CleanKey(k) && '\n' !in LoadLines(lines)[k] && Tight(LoadLines(lines)[k], IsQuote)
  {
    if lines != [] {
      LoadedIsTidy(lines[..|lines| - 1]);
      ParsedIsTidy(lines[|lines| - 1]);
    }
  }

  lemma ParsedIsTidy(line: string)
    requires '\n' !in line
    ensures ParseLine(line).Some? ==>
      var (k, v) := ParseLine(line).value;
      CleanKey(k) && '\n' !in Trim(v, IsQuote) && Tight(Trim(v, IsQuote), IsQuote)
  {
    if ParseLine(line).Some? {
      var t := TrimSpace(line);
      var i := IndexOf(t, '=');
      var k, v := TrimSpace(t[..i]), TrimSpace(t[i + 1..]);
      TrimIsTight(line, IsSpace);
      TrimKeepsOnlyCut(line, IsSpace);
      TrimKeepsOnlyCut(t[..i], IsSpace);
      TrimIsTight(t[..i], IsSpace);
      TrimKeepsOnlyCut(t[i + 1..], IsSpace);
      TrimKeepsOnlyCut(v, IsQuote);
      TrimIsTight(v, IsQuote);
      StartsAlike(t[..i]);
    }
  }

  lemma StartsAlike(s: string)
    requires s != "" && !IsSpace(s[0])
    ensures TrimSpace(s) != "" && TrimSpace(s)[0] == s[0]
  {
    TrimRightStops(s, IsSpace);
    TrimKeepsOnlyCut(s, IsSpace);
  }

  lemma {:induction false} SplitHasNoNewlines(content: string)
    ensures forall l :: l in SplitLines(content) ==> '\n' !in l
    decreases |content|
  {
    var i := IndexOf(content, '\n');
    if i == |content| {
      assert content[..i] == content;
    } else {
      SplitHasNoNewlines(content[i + 1..]);
    }
  }

  /** The video service reads back exactly what was printed if and only if every key and every value is clean.
      Nothing is assumed about either. */
  lemma RoundTripIff(m: Values)
    ensures LoadLines(SplitLines(Print(m))) == m <==> Clean(m)
  {
    var loaded := LoadLines(SplitLines(Print(m)));
    if Clean(m) {
      LoadOfPrint(m);
      forall k | k in m ensures StripAll(ShellEscape(m[k])) == m[k] {
        StripAllPrinted(m[k]);
        EscapeFacts(m[k]);
      }
    }
    if loaded == m {
      SplitHasNoNewlines(Print(m));
      LoadedIsTidy(SplitLines(Print(m)));
      LoadOfPrint(m);
      forall k | k in m ensures CleanKey(k) && CleanValue(m[k]) {
        StripAllPrinted(m[k]);
        EscapeFacts(m[k]);
      }
    }
  }

  /** ... so for a payload, exactly what it dictates minus what only the daemon is to know. */
  lemma PayloadRoundTripIff(values: Values)
    ensures LoadLines(SplitLines(Print(Visible(values)))) == Visible(values) <==> Clean(Visible(values))
  {
    RoundTripIff(Visible(values));
  }

  lemma {:induction false} FirstPrinted(m: Values, keys: seq<string>, key: string)
    requires forall k :: k in keys ==> k in m && CleanKey(k)
    ensures FirstAssignment(Lines(m, keys) + [""], key) == if key in keys then Some(ShellEscape(m[key])) else None
  {
    var lines := Lines(m, keys) + [""];
    if keys == [] {
      assert lines == [""];
      assert TrimSpace("") == "";
    } else {
      assert lines[1..] == Lines(m, keys[1..]) + [""];
      ParsePrinted(keys[0], m[keys[0]]);
      FirstPrinted(m, keys[1..], key);
    }
  }

  /** Looking up a key that was not printed fails, whichever way. */
  lemma UnprintedIsNotFound(m: Values, key: string, strip: string -> string)
    requires Printable(m) && key !in m
    ensures ReadToken(Print(m), key, strip) == None
  {
    PrintedLines(m);
    FirstPrinted(m, InOrder(m.Keys), key);
  }

  lemma PrintedIsFound(m: Values, key: string, strip: string -> string)
    requires Printable(m) && key in m
    ensures ReadToken(Print(m), key, strip) == Some(strip(ShellEscape(m[key])))
  {
    PrintedLines(m);
    FirstPrinted(m, InOrder(m.Keys), key);
  }

  /** The manager finds a printed value if and only if it has no single quote; double quotes around it stay. */
  lemma ManagerFindsToken(m: Values, key: string)
    requires Printable(m) && key in m
    ensures ReadToken(Print(m), key, StripOnePair) == Some(m[key]) <==> '\'' !in m[key]
  {
    PrintedIsFound(m, key, StripOnePair);
    var q := ShellEscape(m[key]);
    EscapeFacts(m[key]);
    assert q[1..|q| - 1] == EscapeQuotes(m[key]);
  }

  /** The gateway adapter also needs the value not to start or end with a double quote. */
  lemma AdapterFindsToken(m: Values, key: string)
    requires Printable(m) && key in m
    ensures ReadToken(Print(m), key, StripAll) == Some(m[key]) <==> CleanValue(m[key])
  {
    PrintedIsFound(m, key, StripAll);
    EscapeFacts(m[key]);
    TrimIsTight(ShellEscape(m[key]), IsQuote);
    if Tight(m[key], IsQuote) {
      StripAllPrinted(m[key]);
    }
  }

  /** On a file of clean values all three readers agree. */
  lemma ReadersAgree(m: Values, key: string)
    requires Clean(m) && key in m
    ensures ReadToken(Print(m), key, StripOnePair) == ReadToken(Print(m), key, StripAll) == Some(m[key])
    ensures key in LoadLines(SplitLines(Print(m))) && LoadLines(SplitLines(Print(m)))[key] == m[key]
  {
    ManagerFindsToken(m, key);
    AdapterFindsToken(m, key);
    RoundTripIff(m);
  }
}
