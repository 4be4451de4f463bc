/** Media references found in gateway payloads and transcripts, and their upload. */
module Attachments {
  import opened GoText
  import opened Json

  datatype Attachment = Attachment(
    mediaID: string, mediaType: string, mimeType: string, previewURL: string, localPath: string,
    fileSize: int, errorCode: string, errorMessage: string)

  const PENDING_CODE := "MEDIA_LOCAL_PATH_PENDING_UPLOAD"
  const FAILED_CODE := "MEDIA_UPLOAD_FAILED"

  /** What the model takes from Go's libraries and from tables it does not look into. */
  datatype Libs = Libs(
    parseTime: string -> Option<int>,               // RFC 3339 text to Unix milliseconds
    urlParses: string -> bool,                      // url.Parse reports no error
    typeOf: string -> string,                       // detectMediaType
    mimeOf: string -> string,                       // detectMimeType
    refsIn: (Object, string) -> seq<string>,        // references extracted from a payload and a text
    rewrite: (string, seq<Attachment>) -> string)   // rewriteMarkdownImageURLs

  predicate IsHTTPURL(libs: Libs, raw: string) {
    (HasScheme(raw, "http:") || HasScheme(raw, "https:")) && libs.urlParses(raw)
  }

  predicate HasScheme(raw: string, scheme: string) {
    |scheme| <= |raw| && forall i | 0 <= i < |scheme| ::
      (if 'A' <= raw[i] <= 'Z' then raw[i] - 'A' + 'a' else raw[i]) == scheme[i]
  }

  function FromRef(libs: Libs, ref: string): Attachment {
    var ref := TrimSpace(ref);
    if IsHTTPURL(libs, ref) then
      Attachment("", libs.typeOf(ref), libs.mimeOf(ref), ref, "", 0, "", "")
    else
      Attachment("", libs.typeOf(ref), libs.mimeOf(ref), "", ref, 0, PENDING_CODE,
                 "local media path requires daemon upload workflow")
  }

  /** A reference is a URL to show if it is one of the web, in whatever case; anything else is a local path that is
      yet to be uploaded. */
  lemma RefIs(libs: Libs, ref: string)
    ensures var t, a := TrimSpace(ref), FromRef(libs, ref);
      if libs.urlParses(t) && ("http:" <= ToLower(t) || "https:" <= ToLower(t))
      then a.previewURL == t && a.localPath == "" && a.errorCode == ""
      else a.localPath == t && a.previewURL == "" && a.errorCode == "MEDIA_LOCAL_PATH_PENDING_UPLOAD"
  {
    SchemeIs(TrimSpace(ref), "http:");
    SchemeIs(TrimSpace(ref), "https:");
  }

  lemma SchemeIs(raw: string, scheme: string)
    requires 'i' !in scheme && 'k' !in scheme && forall c :: c in scheme ==> c == ':' || 'a' <= c <= 'z'
    ensures HasScheme(raw, scheme) <==> scheme <= ToLower(raw)
  {
    LowerAt(raw);
    if |scheme| <= |raw| {
      forall i | 0 <= i < |scheme|
        ensures (if 'A' <= raw[i] <= 'Z' then raw[i] - 'A' + 'a' else raw[i]) == scheme[i] <==>
          ToLower(raw)[i] == scheme[i]
      {
        assert scheme[i] in scheme;
      }
      assert scheme <= ToLower(raw) <==> forall i :: 0 <= i < |scheme| ==> scheme[i] == ToLower(raw)[i];
    }
  }

  lemma {:induction false} LowerAt(s: string)
    ensures forall i :: 0 <= i < |s| ==> ToLower(s)[i] == LowerChar(s[i])
  {
    if s != "" {
      LowerAt(s[1..]);
    }
  }

  /** A blank candidate is not a reference. */
  function FromRefs(libs: Libs, refs: seq<string>): seq<Attachment> {
    if refs == [] then []
    else if Blank(refs[0]) then FromRefs(libs, refs[1..])
    else [FromRef(libs, refs[0])] + FromRefs(libs, refs[1..])
  }

  function Extract(libs: Libs, payload: Object, text: string): seq<Attachment> {
    FromRefs(libs, libs.refsIn(payload, text))
  }

  /** Every item comes from a media reference. */
  ghost predicate AllFromRefs(libs: Libs, items: seq<Attachment>) {
    forall a | a in items :: IsFromRef(libs, a)
  }

  ghost predicate IsFromRef(libs: Libs, a: Attachment) {
    exists ref :: !Blank(ref) && a == FromRef(libs, ref)
  }

  lemma {:induction false} ExtractFromRefs(libs: Libs, refs: seq<string>)
    ensures AllFromRefs(libs, FromRefs(libs, refs))
  {
    if refs != [] {
      ExtractFromRefs(libs, refs[1..]);
      if !Blank(refs[0]) {
        assert IsFromRef(libs, FromRef(libs, refs[0]));
      }
    }
  }

  // ---------- deduplication ----------

  function Key(a: Attachment): string { a.previewURL + "|" + a.localPath }

  /** First occurrences, in order, of the keys not already seen. */
  function DedupFrom(seen: set<string>, items: seq<Attachment>): seq<Attachment>
    decreases |items|
  {
    if items == [] then []
    else if Key(items[0]) in seen then DedupFrom(seen, items[1..])
    else [items[0]] + DedupFrom(seen + {Key(items[0])}, items[1..])
  }

  function Dedup(items: seq<Attachment>): seq<Attachment> { DedupFrom({}, items) }

  function Keys(items: seq<Attachment>): set<string> { set a | a in items :: Key(a) }

  method Deduplicate(items: seq<Attachment>) returns (result: seq<Attachment>)
    ensures result == Dedup(items)
  {
    if |items| <= 1 {
      assert |items| == 1 ==> items[1..] == [] && items == [items[0]] + DedupFrom({Key(items[0])}, []);
      assert |items| == 1 ==> {} + {Key(items[0])} == {Key(items[0])};
      return items;
    }
    var seen: set<string> := {};
    result := [];
    for i := 0 to |items|
      invariant Dedup(items) == result + DedupFrom(seen, items[i..])
    {
      assert items[i..][1..] == items[i + 1..];
      var key := Key(items[i]);
      if key !in seen {
        seen := seen + {key};
        result := result + [items[i]];
      }
    }
  }

  lemma DedupKeys(seen: set<string>, items: seq<Attachment>)
    ensures Keys(DedupFrom(seen, items)) == Keys(items) - seen
    ensures forall a :: a in DedupFrom(seen, items) ==> a in items
    decreases |items|
  {
    if items != [] {
      assert items == [items[0]] + items[1..];
      assert Keys(items) == {Key(items[0])} + Keys(items[1..]);
      if Key(items[0]) in seen {
        DedupKeys(seen, items[1..]);
      } else {
        var rest := DedupFrom(seen + {Key(items[0])}, items[1..]);
        DedupKeys(seen + {Key(items[0])}, items[1..]);
        assert Keys([items[0]] + rest) == {Key(items[0])} + Keys(rest);
      }
    }
  }

  lemma DedupSplit(seen: set<string>, a: seq<Attachment>, b: seq<Attachment>)
    ensures DedupFrom(seen, a + b) == DedupFrom(seen, a) + DedupFrom(seen + Keys(a), b)
    decreases |a|
  {
    if a == [] {
      assert a + b == b && seen + Keys(a) == seen;
    } else {
      assert (a + b)[1..] == a[1..] + b;
      assert a == [a[0]] + a[1..];
      assert Keys(a) == {Key(a[0])} + Keys(a[1..]);
      if Key(a[0]) in seen {
        DedupSplit(seen, a[1..], b);
        assert seen + Keys(a) == seen + Keys(a[1..]);
      } else {
        DedupSplit(seen + {Key(a[0])}, a[1..], b);
        assert seen + Keys(a) == seen + {Key(a[0])} + Keys(a[1..]);
      }
    }
  }

  /** Deduplicating after every append is one deduplication at the end. */
  lemma {:induction false} DedupIncremental(a: seq<Attachment>, b: seq<Attachment>)
    ensures Dedup(Dedup(a) + b) == Dedup(a + b)
  {
    DedupSplit({}, a, b);
    DedupSplit({}, Dedup(a), b);
    DedupKeys({}, a);
    DedupIdempotent({}, a);
    assert {} + Keys(Dedup(a)) == {} + Keys(a);
  }

  lemma {:induction false} DedupIdempotent(seen: set<string>, a: seq<Attachment>)
    ensures DedupFrom(seen, DedupFrom(seen, a)) == DedupFrom(seen, a)
  {
    DedupInner(seen, seen, a);
  }

  lemma {:induction false} DedupInner(seen: set<string>, fewer: set<string>, a: seq<Attachment>)
    requires fewer <= seen
    ensures DedupFrom(seen, DedupFrom(fewer, a)) == DedupFrom(seen, a)
    decreases |a|
  {
    if a != [] {
      var key := Key(a[0]);
      if key in fewer {
        DedupInner(seen, fewer, a[1..]);
      } else if key in seen {
        DedupInner(seen, fewer + {key}, a[1..]);
      } else {
        DedupInner(seen + {key}, fewer + {key}, a[1..]);
      }
    }
  }

  /** Deduplicating the appended part first makes no difference. */
  lemma DedupOfDedups(a: seq<Attachment>, b: seq<Attachment>)
    ensures Dedup(a + Dedup(b)) == Dedup(a + b)
  {
    DedupSplit({}, a, b);
    DedupSplit({}, a, Dedup(b));
    DedupInner({} + Keys(a), {}, b);
  }

  /** The result has one item for every key and no key twice. */
  lemma DedupDistinct(seen: set<string>, items: seq<Attachment>)
    ensures forall i, j :: 0 <= i < j < |DedupFrom(seen, items)| ==>
      Key(DedupFrom(seen, items)[i]) != Key(DedupFrom(seen, items)[j])
    decreases |items|
  {
    if items != [] && Key(items[0]) !in seen {
      var rest := DedupFrom(seen + {Key(items[0])}, items[1..]);
      DedupDistinct(seen + {Key(items[0])}, items[1..]);
      DedupKeys(seen + {Key(items[0])}, items[1..]);
      forall j | 0 <= j < |rest| ensures Key(rest[j]) != Key(items[0]) {
        assert Key(rest[j]) in Keys(rest);
      }
    }
  }

  lemma KeyOfRef(libs: Libs, t: string)
    requires TrimSpace(t) == t
    ensures Key(FromRef(libs, t)) == if IsHTTPURL(libs, t) then t + "|" else "|" + t
  {
    assert t + "|" + "" == t + "|" && "" + "|" + t == "|" + t;
  }

  lemma NoSeparatorFirst(libs: Libs, url: string, other: string)
    requires IsHTTPURL(libs, url) && other != "" && other[0] == '|'
    ensures url + "|" != other
  {
    assert (url + "|")[0] == url[0];
  }

  /** On attachments built from references the key separates what differs: the two halves
      cannot be confused, because an http URL never begins with the separator. */
  lemma KeyInjective(libs: Libs, r1: string, r2: string)
    ensures Key(FromRef(libs, r1)) == Key(FromRef(libs, r2)) ==> FromRef(libs, r1) == FromRef(libs, r2)
  {
    var t1, t2 := TrimSpace(r1), TrimSpace(r2);
    var a, b := FromRef(libs, r1), FromRef(libs, r2);
    if Key(a) == Key(b) {
      TrimSpaceTwice(r1);
      TrimSpaceTwice(r2);
      KeyOfRef(libs, t1);
      KeyOfRef(libs, t2);
      if IsHTTPURL(libs, t1) && IsHTTPURL(libs, t2) {
        assert t1 == (t1 + "|")[..|t1|];
        assert t2 == (t2 + "|")[..|t2|];
      } else if IsHTTPURL(libs, t1) {
        NoSeparatorFirst(libs, t1, "|" + t2);
      } else if IsHTTPURL(libs, t2) {
        NoSeparatorFirst(libs, t2, "|" + t1);
      } else {
        assert t1 == ("|" + t1)[1..];
        assert t2 == ("|" + t2)[1..];
      }
    }
  }

  /** So deduplication loses nothing: every extracted attachment is still in the list. */
  lemma DedupKeepsEveryItem(libs: Libs, items: seq<Attachment>)
    requires AllFromRefs(libs, items)
    ensures forall a :: a in items <==> a in Dedup(items)
  {
    DedupKeys({}, items);
    forall a | a in items ensures a in Dedup(items) {
      assert Key(a) in Keys(items);
      assert Key(a) in Keys(Dedup(items));
      var b :| b in Dedup(items) && Key(b) == Key(a);
      var ra :| !Blank(ra) && a == FromRef(libs, ra);
      assert b in items && IsFromRef(libs, a) && IsFromRef(libs, b);
      var rb :| !Blank(rb) && b == FromRef(libs, rb);
      KeyInjective(libs, ra, rb);
    }
  }

  // ---------- upload ----------

  /** The media backend's part in one upload: a refusal anywhere, or the answers to upload-init and
      upload-complete. */
  datatype Exchange =
    | Refused(message: string)
    | Answered(uploadURL: string, mediaID: string, size: int, initPreview: string, finalPreview: string)

  function Uploaded(item: Attachment, x: Exchange): Attachment {
    if Blank(item.localPath) then item
    else match x
      case Refused(message) => item.(errorCode := FAILED_CODE, errorMessage := message)
      case Answered(url, id, size, initPreview, finalPreview) =>
        if Blank(url) || Blank(id) then
          item.(errorCode := FAILED_CODE, errorMessage := "upload-init response missing uploadUrl/mediaId")
        else
          item.(mediaID := id, fileSize := size, localPath := "", errorCode := "", errorMessage := "",
                previewURL := if !Blank(finalPreview) then finalPreview
                              else if !Blank(initPreview) then initPreview else item.previewURL)
  }

  function UploadAll(items: seq<Attachment>, backend: Attachment -> Exchange): seq<Attachment> {
    seq(|items|, i requires 0 <= i < |items| => Uploaded(items[i], backend(items[i])))
  }

  /** The slice elements are replaced one by one, in place. */
  method UploadLocalAttachments(items: array<Attachment>, backend: Attachment -> Exchange)
    modifies items
    ensures items[..] == UploadAll(old(items[..]), backend)
  {
    for i := 0 to items.Length
      invariant forall j :: 0 <= j < i ==> items[j] == Uploaded(old(items[j]), backend(old(items[j])))
      invariant forall j :: i <= j < items.Length ==> items[j] == old(items[j])
    {
      items[i] := Uploaded(items[i], backend(items[i]));
    }
  }

  predicate LocalUploadFailed(item: Attachment) {
    !Blank(item.localPath) && item.errorCode == FAILED_CODE
  }

  /** Order and count are kept; nothing stays pending: every item is afterwards a URL, an uploaded
      medium, or a local file whose upload failed. */
  lemma UploadKeepsItems(libs: Libs, items: seq<Attachment>, backend: Attachment -> Exchange)
    requires AllFromRefs(libs, items)
    ensures var out := UploadAll(items, backend);
      && |out| == |items|
      && forall i :: 0 <= i < |items| ==>
        && out[i].errorCode != PENDING_CODE
        && (LocalUploadFailed(out[i]) <==> Blank(out[i].previewURL) && Blank(out[i].mediaID))
        && (LocalUploadFailed(out[i]) ==> out[i].localPath == items[i].localPath)
        && (Blank(items[i].localPath) ==> out[i] == items[i])
        && (out[i].errorCode == "" <==> !LocalUploadFailed(out[i]))
  {
    forall i | 0 <= i < |items| ensures
      var before, after := items[i], UploadAll(items, backend)[i];
      && after.errorCode != PENDING_CODE
      && (LocalUploadFailed(after) <==> Blank(after.previewURL) && Blank(after.mediaID))
      && (LocalUploadFailed(after) ==> after.localPath == before.localPath)
      && (Blank(before.localPath) ==> after == before)
      && (after.errorCode == "" <==> !LocalUploadFailed(after))
    {
      assert items[i] in items;
      UploadSettles(libs, items[i], backend(items[i]));
    }
  }

  lemma UploadSettles(libs: Libs, a: Attachment, x: Exchange)
    requires IsFromRef(libs, a)
    ensures var out := Uploaded(a, x);
      && out.errorCode in {"", FAILED_CODE}
      && (out.errorCode == "" <==> !LocalUploadFailed(out))
      && (LocalUploadFailed(out) <==> Blank(out.previewURL) && Blank(out.mediaID))
      && (LocalUploadFailed(out) ==> out.localPath == a.localPath)
      && (Blank(a.localPath) ==> out == a)
  {
    var ref :| !Blank(ref) && a == FromRef(libs, ref);
    TrimSpaceTwice(ref);
  }

  /** A local file is uploaded unless the backend refuses or does not say where to; then it has a medium in place of
      its path, and is shown at the last URL given. */
  lemma UploadIs(a: Attachment, x: Exchange)
    requires !Blank(a.localPath)
    ensures var r := Uploaded(a, x);
      if x.Refused? || Blank(x.uploadURL) || Blank(x.mediaID) then
        && r == a.(errorCode := "MEDIA_UPLOAD_FAILED", errorMessage := r.errorMessage)
        && (x.Refused? ==> r.errorMessage == x.message)
      else
        && r == a.(mediaID := x.mediaID, fileSize := x.size, localPath := "", errorCode := "", errorMessage := "",
                   previewURL := r.previewURL)
        && (!Blank(x.finalPreview) ==> r.previewURL == x.finalPreview)
        && (Blank(x.finalPreview) && !Blank(x.initPreview) ==> r.previewURL == x.initPreview)
        && (Blank(x.finalPreview) && Blank(x.initPreview) ==> r.previewURL == a.previewURL)
  {
  }

  // ---------- the reply-level failure ----------

  function FirstMessage(items: seq<Attachment>): string {
    if items == [] then "media upload failed"
    else if !Blank(items[0].errorMessage) then items[0].errorMessage
    else FirstMessage(items[1..])
  }

  /** summarizeAttachmentFailures: the message of the failure, if there is one. */
  method SummarizeFailures(items: seq<Attachment>) returns (failure: Option<string>)
    ensures failure == Summary(items)
  {
    if |items| == 0 {
      return None;
    }
    for i := 0 to |items|
      invariant forall j :: 0 <= j < i ==> HasFailed(items[j])
    {
      if !Blank(items[i].previewURL) || !Blank(items[i].mediaID) || Blank(items[i].errorCode) {
        return None;
      }
    }
    for i := 0 to |items|
      invariant FirstMessage(items) == FirstMessage(items[i..])
    {
      if !Blank(items[i].errorMessage) {
        return Some(items[i].errorMessage);
      }
      assert items[i..][1..] == items[i + 1..];
    }
    failure := Some("media upload failed");
  }

  predicate HasFailed(item: Attachment) {
    Blank(item.previewURL) && Blank(item.mediaID) && !Blank(item.errorCode)
  }

  function Summary(items: seq<Attachment>): Option<string> {
    if items != [] && forall i | 0 <= i < |items| :: HasFailed(items[i]) then Some(FirstMessage(items)) else None
  }

  /** After uploads, the failure is raised exactly when there is something to show and every item
      is a local file whose upload failed. */
  lemma FailureIffAllUploadsFailed(libs: Libs, items: seq<Attachment>, backend: Attachment -> Exchange)
    requires AllFromRefs(libs, items)
    ensures Summary(UploadAll(items, backend)).Some? <==>
      items != [] && forall i :: 0 <= i < |items| ==> LocalUploadFailed(UploadAll(items, backend)[i])
  {
    UploadKeepsItems(libs, items, backend);
    var out := UploadAll(items, backend);
    assert Blank("") && !Blank(FAILED_CODE);
    assert forall i :: 0 <= i < |out| ==> (HasFailed(out[i]) <==> LocalUploadFailed(out[i]));
  }
}
