/** The parts of Go's `strings` package the daemon relies on. Text is a sequence of characters
    (Unicode scalar values), which is how valid UTF-8 reads. */
module GoText {

  /** `unicode.IsSpace` */
  predicate IsSpace(c: char) {
    || c in {'\t', '\n', '\U{0B}', '\U{0C}', '\r', ' ', '\U{85}', '\U{A0}', '\U{1680}'}
    || '\U{2000}' <= c <= '\U{200A}'
    || c in {'\U{2028}', '\U{2029}', '\U{202F}', '\U{205F}', '\U{3000}'}
  }

  predicate IsNewline(c: char) { c == '\n' }

  /** The cut set of the readers that strip every surrounding quote. */
  predicate IsQuote(c: char) { c == '"' || c == '\'' }

  function TrimLeft(s: string, p: char -> bool): string {
    if s == "" || !p(s[0]) then s else TrimLeft(s[1..], p)
  }

  function TrimRight(s: string, p: char -> bool): string {
    if s == "" || !p(s[|s| - 1]) then s else TrimRight(s[..|s| - 1], p)
  }

  function Trim(s: string, p: char -> bool): string {
    TrimRight(TrimLeft(s, p), p)
  }

  function TrimSpace(s: string): string { Trim(s, IsSpace) }

  function TrimNewlines(s: string): string { Trim(s, IsNewline) }

  predicate Blank(s: string) { TrimSpace(s) == "" }

  /** Neither end of `s` is in the cut set. */
  ghost predicate Tight(s: string, p: char -> bool) {
    s == "" || (!p(s[0]) && !p(s[|s| - 1]))
  }

  predicate HasSuffix(s: string, t: string) {
    |t| <= |s| && s[|s| - |t|..] == t
  }

  predicate Contains(s: string, t: string) {
    exists i | 0 <= i <= |s| :: t <= s[i..]
  }

  /** The position of the first `c`, or the length of `s` if there is none. */
  function IndexOf(s: string, c: char): (i: nat)
    ensures i <= |s| && c !in s[..i]
    ensures i < |s| ==> s[i] == c
    ensures i == |s| <==> c !in s
  {
    if s == "" || s[0] == c then 0
    else
      var i := IndexOf(s[1..], c) + 1;
      assert s[..i] == [s[0]] + s[1..][..i - 1];
      assert s == [s[0]] + s[1..];
      i
  }

  lemma FirstIndex(s: string, c: char, i: nat)
    requires i < |s| && s[i] == c && c !in s[..i]
    ensures IndexOf(s, c) == i
  {
    assert forall j :: 0 <= j < i ==> s[j] == s[..i][j];
  }

  /** `strings.ToLower`, as far as comparing the result with ASCII words can tell: besides A-Z,
      only U+0130 and U+212A have an ASCII lower case. */
  function LowerChar(c: char): char {
    if 'A' <= c <= 'Z' then c - 'A' + 'a'
    else if c == '\U{0130}' then 'i'
    else if c == '\U{212A}' then 'k'
    else c
  }

  function ToLower(s: string): (r: string)
    ensures |r| == |s|
  {
    if s == "" then "" else [LowerChar(s[0])] + ToLower(s[1..])
  }

  /** The trimmed, lower-cased form the code compares with its constant words. */
  function Word(s: string): string { ToLower(TrimSpace(s)) }

  function Join(parts: seq<string>, sep: string): string {
    if parts == [] then ""
    else if |parts| == 1 then parts[0]
    else parts[0] + sep + Join(parts[1..], sep)
  }

  function Concat(parts: seq<string>): string {
    if parts == [] then "" else parts[0] + Concat(parts[1..])
  }

  lemma ConcatAppend(a: seq<string>, b: seq<string>)
    ensures Concat(a + b) == Concat(a) + Concat(b)
  {
    if a == [] {
      assert a + b == b;
    } else {
      ConcatAppend(a[1..], b);
      assert (a + b)[1..] == a[1..] + b;
    }
  }

  lemma TrimLeftStops(s: string, p: char -> bool)
    ensures TrimLeft(s, p) == "" || !p(TrimLeft(s, p)[0])
    ensures |TrimLeft(s, p)| <= |s| && TrimLeft(s, p) == s[|s| - |TrimLeft(s, p)|..]
  {}

  lemma TrimRightStops(s: string, p: char -> bool)
    ensures TrimRight(s, p) <= s
    ensures TrimRight(s, p) == "" || !p(TrimRight(s, p)[|TrimRight(s, p)| - 1])
  {}

  lemma TrimIsTight(s: string, p: char -> bool)
    ensures Tight(Trim(s, p), p)
  {
    TrimLeftStops(s, p);
    TrimRightStops(TrimLeft(s, p), p);
  }

  /** Trimming leaves a text alone exactly when both of its ends are outside the cut set. */
  lemma TrimFixed(s: string, p: char -> bool)
    ensures Trim(s, p) == s <==> Tight(s, p)
  {
    TrimIsTight(s, p);
  }

  lemma TrimKeepsOnlyCut(s: string, p: char -> bool)
    ensures (forall c :: c in s ==> p(c)) ==> Trim(s, p) == ""
    ensures Trim(s, p) == "" ==> forall c :: c in s ==> p(c)
    ensures forall c :: c in Trim(s, p) ==> c in s
    ensures |Trim(s, p)| <= |s|
  {
    TrimLeftStops(s, p);
    TrimRightStops(TrimLeft(s, p), p);
    TrimLeftDrops(s, p);
    TrimRightDrops(TrimLeft(s, p), p);
  }

  lemma TrimLeftDrops(s: string, p: char -> bool)
    ensures forall c :: c in s ==> p(c) || c in TrimLeft(s, p)
  {}

  lemma TrimRightDrops(s: string, p: char -> bool)
    ensures forall c :: c in s ==> p(c) || c in TrimRight(s, p)
  {}

  /** Trimming is monotone for the prefix order. */
  lemma {:induction false} TrimMonotone(a: string, b: string, p: char -> bool)
    requires a <= b
    ensures Trim(a, p) <= Trim(b, p)
  {
    if a != "" {
      if p(a[0]) {
        TrimMonotone(a[1..], b[1..], p);
      } else {
        TrimRightMonotone(a, b, p);
      }
    }
  }

  lemma {:induction false} TrimRightMonotone(a: string, b: string, p: char -> bool)
    requires a <= b
    ensures TrimRight(a, p) <= TrimRight(b, p)
    decreases |b|
  {
    if |a| < |b| && p(b[|b| - 1]) {
      TrimRightMonotone(a, b[..|b| - 1], p);
    } else {
      TrimRightStops(a, p);
      if |a| == |b| { assert a == b; }
    }
  }

  /** A text with no cut character at either end keeps both ends when something is put around it. */
  lemma TightTrimsBack(left: string, s: string, right: string, p: char -> bool)
    requires forall c :: c in left || c in right ==> p(c)
    requires s != "" && Tight(s, p)
    ensures Trim(left + s + right, p) == s
  {
    if left != "" {
      var t := left + s + right;
      assert t[0] == left[0] && t[1..] == left[1..] + s + right;
      TightTrimsBack(left[1..], s, right, p);
    } else {
      assert left + s + right == s + right;
      TightTrimsRight(s, right, p);
    }
  }

  lemma TightTrimsRight(s: string, right: string, p: char -> bool)
    requires forall c :: c in right ==> p(c)
    requires s != "" && Tight(s, p)
    ensures TrimRight(s + right, p) == s
    decreases |right|
  {
    if right == "" {
      assert s + right == s;
    } else {
      var t := s + right;
      assert t[|t| - 1] == right[|right| - 1];
      assert t[..|t| - 1] == s + right[..|right| - 1];
      TightTrimsRight(s, right[..|right| - 1], p);
    }
  }

  lemma BlankChars(s: string)
    ensures Blank(s) <==> forall c :: c in s ==> IsSpace(c)
  {
    TrimKeepsOnlyCut(s, IsSpace);
  }

  lemma TrimSpaceTwice(s: string)
    ensures TrimSpace(TrimSpace(s)) == TrimSpace(s)
  {
    TrimIsTight(s, IsSpace);
    TrimFixed(TrimSpace(s), IsSpace);
  }

  /** A non-blank text stays non-blank when it is extended. */
  lemma NonBlankExtends(a: string, b: string)
    requires a <= b && !Blank(a)
    ensures !Blank(b)
  {
    BlankChars(a);
    BlankChars(b);
  }
}
