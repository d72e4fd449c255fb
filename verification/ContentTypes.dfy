/** The patch that registers the bundle part in `[Content_Types].xml`. */
module ContentTypes {
  import opened Wrappers
  import opened Bytes
  import opened Search
  import Utf8

  const TAG_START := "<Override PartName=\""
  const PART_NAME := "/customXml/xlpodBundle.json"
  const BETWEEN := "\" ContentType=\""
  const CONTENT_TYPE := "application/vnd.xlpod.bundle+json"
  const TAG_END := "\"/>"
  const CLOSE := "</Types>"

  function Override(): string { TAG_START + (PART_NAME + BETWEEN + CONTENT_TYPE) + TAG_END }

  function Splice(): string { "  " + Override() + "\n" }

  /** Left to right, every occurrence that does not overlap an earlier one. */
  function ReplaceAll(text: string, pat: string, repl: string): string
    requires pat != ""
    decreases |text|
  {
    match Find(text, pat)
    case None => text
    case Some(k) => text[..k] + repl + ReplaceAll(text[k + |pat|..], pat, repl)
  }

  function PatchText(text: string): string {
    if Contains(text, Override()) then text
    else if !Contains(text, CLOSE) then text
    else ReplaceAll(text, CLOSE, Splice() + CLOSE)
  }

  /** On the part's bytes; `None` is the decoding error of a part that is not UTF-8. */
  function Patch(data: seq<Byte>): Option<seq<Byte>> {
    match Utf8.Decode(data)
    case None => None
    case Some(text) =>
      if Contains(text, Override()) || !Contains(text, CLOSE) then Some(data)
      else Some(Utf8.Encode(PatchText(text)))
  }

  // ---- Tags: `<` only at the start, `>` only at the end -------------------------------------------

  ghost predicate Tag(p: string) {
    && |p| >= 2 && p[0] == '<' && p[|p| - 1] == '>'
    && (forall k :: 0 < k < |p| ==> p[k] != '<')
    && (forall k :: 0 <= k < |p| - 1 ==> p[k] != '>')
  }

  ghost predicate Bare(s: string) {
    forall k :: 0 <= k < |s| ==> s[k] != '<' && s[k] != '>'
  }

  lemma PiecesAreBare()
    ensures Bare(PART_NAME) && Bare(BETWEEN) && Bare(CONTENT_TYPE)
  {
  }

  lemma EndsOfTheTag()
    ensures TAG_START[0] == '<' && Bare(TAG_START[1..]) && TAG_END[|TAG_END| - 1] == '>'
      && Bare(TAG_END[..|TAG_END| - 1])
  {
  }

  lemma OverrideIsTag()
    ensures Tag(Override()) && |Override()| > |CLOSE|
  {
    PiecesAreBare();
    EndsOfTheTag();
    WrapBare(TAG_START, PART_NAME + BETWEEN + CONTENT_TYPE, TAG_END);
  }

  lemma WrapBare(a: string, s: string, b: string)
    requires |a| > 0 && |b| > 0 && Bare(s)
    requires a[0] == '<' && Bare(a[1..]) && b[|b| - 1] == '>' && Bare(b[..|b| - 1])
    ensures Tag(a + s + b)
  {
    var p := a + s + b;
    forall k | 0 < k < |p| ensures p[k] != '<' {
      assert k < |a| ==> p[k] == a[1..][k - 1];
      assert |a| + |s| <= k < |p| - 1 ==> p[k] == b[..|b| - 1][k - |a| - |s|];
    }
    forall k | 0 <= k < |p| - 1 ensures p[k] != '>' {
      assert 0 < k < |a| ==> p[k] == a[1..][k - 1];
      assert |a| + |s| <= k ==> p[k] == b[..|b| - 1][k - |a| - |s|];
    }
  }

  lemma CloseIsTag()
    ensures Tag(CLOSE) && |CLOSE| == 8
  {
  }

  lemma CutBeforeTag(a: string, b: string, p: string)
    requires Tag(p) && b != "" && b[0] == '<'
    ensures CleanCut(a, b, p)
  {
    forall i | i < |a| < i + |p| ensures !OccursAt(a + b, p, i) {
      OccursElement(a + b, p, i, |a| - i);
    }
  }

  lemma CutAfterTag(a: string, b: string, p: string)
    requires Tag(p) && a != "" && a[|a| - 1] == '>'
    ensures CleanCut(a, b, p)
  {
    forall i | i < |a| < i + |p| ensures !OccursAt(a + b, p, i) {
      OccursElement(a + b, p, i, |a| - 1 - i);
    }
  }

  lemma CutBeforeBlank(a: string, b: string, p: string)
    requires Tag(p) && forall k :: 0 <= k < |b| ==> b[k] != '>'
    ensures CleanCut(a, b, p)
  {
    forall i | i < |a| < i + |p| ensures !OccursAt(a + b, p, i) {
      OccursElement(a + b, p, i, |p| - 1);
    }
  }

  lemma {:induction false} TooShort(s: string, p: string)
    requires |s| < |p|
    ensures Count(s, p) == 0
  {
    if s != "" {
      TooShort(s[1..], p);
    }
  }

  lemma OccursInItselfOnce(p: string)
    requires p != ""
    ensures Count(p, p) == 1
  {
    TooShort(p[1..], p);
    assert p[..|p|] == p;
  }

  /** Between two parts, a whole tag `t` in the middle counts separately. */
  lemma CountAroundTag(a: string, t: string, b: string, p: string)
    requires Tag(t) && Tag(p)
    ensures Count(a + (t + b), p) == Count(a, p) + Count(t, p) + Count(b, p)
  {
    CutBeforeTag(a, t + b, p);
    CountAcrossCut(a, t + b, p);
    CutAfterTag(t, b, p);
    CountAcrossCut(t, b, p);
  }

  /** One closing tag replaced: one override more. */
  lemma CountOneSplice(pre: string, needle: string, close: string, rest: string)
    requires Tag(needle) && Tag(close) && |close| < |needle|
    ensures Count(pre + (("  " + needle + "\n" + close) + rest), needle) == Count(pre, needle) + 1 + Count(rest, needle)
  {
    var tail := "\n" + (close + rest);
    assert pre + (("  " + needle + "\n" + close) + rest) == (pre + "  ") + (needle + tail);
    CountAroundTag(pre + "  ", needle, tail, needle);
    OccursInItselfOnce(needle);
    CutBeforeBlank(pre, "  ", needle);
    CountAcrossCut(pre, "  ", needle);
    TooShort("  ", needle);
    CountAroundTag("\n", close, rest, needle);
    TooShort("\n", needle);
    TooShort(close, needle);
  }

  lemma BeforeFirst(text: string, p: string, k: nat)
    requires p != "" && Find(text, p) == Some(k)
    ensures Count(text[..k], p) == 0
  {
    FindFromIsFirst(text, p, 0);
    CountZeroIff(text[..k], p);
    forall i ensures !OccursAt(text[..k], p, i) {
      if 0 <= i && i + |p| <= k {
        assert text[..k][i..i + |p|] == text[i..i + |p|];
        assert !OccursAt(text, p, i);
      }
    }
  }

  lemma NoCloseAddsNone(text: string, close: string)
    requires close != "" && Find(text, close) == None
    ensures Count(text, close) == 0
  {
    FindFromIsFirst(text, close, 0);
    CountZeroIff(text, close);
  }

  /** The first closing tag replaced, and what comes after it done already. */
  lemma FirstCloseAddsOne(text: string, needle: string, close: string, k: nat, done: string)
    requires Tag(needle) && Tag(close) && |close| < |needle| && Find(text, close) == Some(k)
    requires Count(done, needle) == Count(text[k + |close|..], needle) + Count(text[k + |close|..], close)
    ensures Count(text[..k] + ("  " + needle + "\n" + close) + done, needle) == Count(text, needle) + Count(text, close)
  {
    var pre, rest := text[..k], text[k + |close|..];
    assert text == pre + (close + rest);
    BeforeFirst(text, close, k);
    CountsAtFirst(pre, needle, close, rest);
    CountOneSplice(pre, needle, close, done);
    Regroup(pre, "  " + needle + "\n" + close, done);
  }

  /** Replacing every closing tag adds exactly one override per closing tag; none straddles a seam. */
  lemma {:induction false} ReplaceAddsOnePerClose(text: string, needle: string, close: string)
    requires Tag(needle) && Tag(close) && |close| < |needle|
    ensures Count(ReplaceAll(text, close, "  " + needle + "\n" + close), needle)
         == Count(text, needle) + Count(text, close)
    decreases |text|
  {
    var repl, first := "  " + needle + "\n" + close, Find(text, close);
    if first.None? {
      NoCloseAddsNone(text, close);
    } else {
      var rest := text[first.value + |close|..];
      ReplaceAddsOnePerClose(rest, needle, close);
      FirstCloseAddsOne(text, needle, close, first.value, ReplaceAll(rest, close, repl));
    }
  }

  lemma Regroup(a: string, b: string, c: string)
    ensures a + b + c == a + (b + c)
  {
  }

  lemma CountsAtFirst(pre: string, needle: string, close: string, rest: string)
    requires Tag(needle) && Tag(close) && |close| < |needle| && Count(pre, close) == 0
    ensures Count(pre + (close + rest), needle) == Count(pre, needle) + Count(rest, needle)
    ensures Count(pre + (close + rest), close) == 1 + Count(rest, close)
  {
    CountAroundTag(pre, close, rest, needle);
    TooShort(close, needle);
    CountAroundTag(pre, close, rest, close);
    OccursInItselfOnce(close);
  }

  // ---- The theorems -------------------------------------------------------------------------------

  /** A part without the override gets it once per closing tag: exactly once if and only if the text
      has exactly one `</Types>`. */
  lemma OverridesAfterPatch(text: string)
    requires !Contains(text, Override())
    ensures Count(PatchText(text), Override()) == Count(text, CLOSE)
  {
    OverrideIsTag();
    CloseIsTag();
    ReplaceAddsOnePerClose(text, Override(), CLOSE);
    ContainsIff(text, Override());
    CountZeroIff(text, Override());
    ContainsIff(text, CLOSE);
    CountZeroIff(text, CLOSE);
  }

  /** With one closing tag the patch is a splice right before it; deleting it gives the original. */
  lemma PatchIsSplice(text: string)
    requires !Contains(text, Override()) && Count(text, CLOSE) == 1
    ensures exists k :: OccursAt(text, CLOSE, k) && PatchText(text) == text[..k] + Splice() + text[k..]
  {
    CloseIsTag();
    ContainsIff(text, CLOSE);
    CountZeroIff(text, CLOSE);
    var k := ReplaceOne(text, CLOSE, Splice());
    assert Contains(text, CLOSE);
  }

  lemma ReplacesFirstOnly(text: string, close: string, repl: string, k: nat)
    requires close != "" && Find(text, close) == Some(k) && Find(text[k + |close|..], close) == None
    ensures ReplaceAll(text, close, repl) == text[..k] + repl + text[k + |close|..]
  {
  }

  lemma ReplaceOne(text: string, close: string, splice: string) returns (k: nat)
    requires Tag(close) && Count(text, close) == 1 && Contains(text, close)
    ensures OccursAt(text, close, k) && ReplaceAll(text, close, splice + close) == text[..k] + splice + text[k..]
  {
    k := Find(text, close).value;
    var pre, rest := text[..k], text[k + |close|..];
    assert text == pre + (close + rest);
    OnlyOneLeft(pre, close, rest);
    ReplacesFirstOnly(text, close, splice + close, k);
    assert text[k..] == close + rest;
    Shift(pre, splice, close, rest);
  }

  lemma Shift(a: string, b: string, c: string, d: string)
    ensures a + (b + c) + d == a + b + (c + d)
  {
  }

  lemma OnlyOneLeft(pre: string, close: string, rest: string)
    requires Tag(close) && Count(pre + (close + rest), close) == 1
    ensures Find(rest, close) == None
  {
    CountAroundTag(pre, close, rest, close);
    OccursInItselfOnce(close);
    CountZeroIff(rest, close);
    ContainsIff(rest, close);
  }

  /** For every text, patching twice is patching once. */
  lemma PatchTextIdempotent(text: string)
    ensures PatchText(PatchText(text)) == PatchText(text)
  {
    if !Contains(text, Override()) && Contains(text, CLOSE) {
      OverridesAfterPatch(text);
      ContainsIff(text, CLOSE);
      CountZeroIff(text, CLOSE);
      OverrideIsTag();
      CountZeroIff(PatchText(text), Override());
      ContainsIff(PatchText(text), Override());
    }
  }

  /** The same on bytes, for every part that is UTF-8. */
  lemma PatchIdempotent(data: seq<Byte>)
    requires Patch(data).Some?
    ensures Patch(Patch(data).value) == Patch(data)
  {
    var text := Utf8.Decode(data).value;
    if !Contains(text, Override()) && Contains(text, CLOSE) {
      var once := PatchText(text);
      Utf8.DecodeInvertsEncode(once);
      OverridesAfterPatch(text);
      ContainsIff(text, CLOSE);
      CountZeroIff(text, CLOSE);
      OverrideIsTag();
      CountZeroIff(once, Override());
      ContainsIff(once, Override());
    }
  }

  /** The override, written out. */
  lemma OverrideIs()
    ensures Override() == "<Override PartName=\"" + ("/customXml/xlpodBundle.json" + "\" ContentType=\""
                                                     + "application/vnd.xlpod.bundle+json") + "\"/>"
  {
  }
}
