/** The XML envelope around the bundle JSON. */
module Envelope {
  import opened Wrappers
  import opened Bytes
  import opened Search

  /** The bytes of a text; every literal below is ASCII. */
  function Ascii(s: string): (b: seq<Byte>)
    ensures |b| == |s|
  {
    seq(|s|, i requires 0 <= i < |s| => if s[i] as int < 128 then s[i] as int else 63)
  }

  const HEADER_TEXT := XML_LINE + ROOT_LINE + BODY_TAG
  const XML_LINE := "<?xml version=\"1.0\" encoding=\"UTF-8\"?>\n"
  const ROOT_LINE := "<xlpodBundle xmlns=\"urn:xlpod:bundle:v1\">\n"
  const BODY_TAG := "  <body>"
  const FOOTER_TEXT := "</body>\n</xlpodBundle>\n"

  function Header(): seq<Byte> { Ascii(HEADER_TEXT) }

  /** `<![CDATA[` */
  function CdataOpen(): seq<Byte> { [60, 33, 91, 67, 68, 65, 84, 65, 91] }

  /** `]]>` */
  function CdataClose(): seq<Byte> { [93, 93, 62] }

  function Footer(): seq<Byte> { Ascii(FOOTER_TEXT) }

  function Wrap(json: seq<Byte>): seq<Byte> {
    Header() + CdataOpen() + json + CdataClose() + Footer()
  }

  /** Everything between the first opening mark and the first closing mark of the file. */
  function Unwrap(xml: seq<Byte>): Option<seq<Byte>> {
    match Find(xml, CdataOpen())
    case None => None
    case Some(start) =>
      match Find(xml, CdataClose())
      case None => None
      case Some(end) =>
        if end < start then None
        else if start + |CdataOpen()| <= end then Some(xml[start + |CdataOpen()|..end])
        else Some([])
  }

  // ---- Where the marks are --------------------------------------------------------------------

  /** No `]` anywhere, and no `<` followed by `!`. */
  ghost predicate Plain(s: string) {
    && (forall i :: 0 <= i < |s| ==> s[i] != ']')
    && (forall i :: 0 <= i < |s| - 1 && s[i] == '<' ==> s[i + 1] != '!')
  }

  lemma PlainJoin(a: string, b: string)
    requires Plain(a) && Plain(b) && a != "" && a[|a| - 1] != '<'
    ensures Plain(a + b)
  {
  }

  lemma XmlLineIsPlain()
    ensures Plain(XML_LINE) && XML_LINE[|XML_LINE| - 1] == '\n'
  {
  }

  lemma RootLineIsPlain()
    ensures Plain(ROOT_LINE) && ROOT_LINE[|ROOT_LINE| - 1] == '\n'
  {
  }

  lemma HeaderIsPlain()
    ensures Plain(HEADER_TEXT) && HEADER_TEXT != "" && HEADER_TEXT[|HEADER_TEXT| - 1] == '>'
  {
    XmlLineIsPlain();
    RootLineIsPlain();
    PlainJoin(XML_LINE, ROOT_LINE);
    PlainJoin(XML_LINE + ROOT_LINE, BODY_TAG);
  }

  lemma OpenMarkIsAfterHeader(rest: seq<Byte>)
    ensures Find(Header() + CdataOpen() + rest, CdataOpen()) == Some(|Header()|)
  {
    HeaderIsPlain();
    var h, o := Header(), CdataOpen();
    var xml := h + o + rest;
    assert xml[|h|..|h| + |o|] == o;
    forall i | 0 <= i < |h| ensures !OccursAt(xml, o, i) {
      OccursElement(xml, o, i, 0);
      OccursElement(xml, o, i, 1);
      assert xml[i] == h[i];
      assert i + 1 < |h| ==> xml[i + 1] == h[i + 1];
    }
    FindIs(xml, o, |h|);
  }

  /** Past a prefix without `]`, the first `]]>` is where it first occurs in what follows. */
  lemma SkipPrefix(p: seq<Byte>, rest: seq<Byte>, k: nat)
    requires forall i :: 0 <= i < |p| ==> p[i] != 93
    requires IsFirst(rest, CdataClose(), 0, k)
    ensures Find(p + rest, CdataClose()) == Some(|p| + k)
  {
    var c := CdataClose();
    var all := p + rest;
    assert all[|p| + k..|p| + k + |c|] == rest[k..k + |c|];
    forall i | 0 <= i < |p| + k ensures !OccursAt(all, c, i) {
      OccursElement(all, c, i, 0);
      if i < |p| {
        assert all[i] == p[i];
      } else {
        assert i + |c| <= |all| ==> rest[i - |p|..i - |p| + |c|] == all[i..i + |c|];
        assert !OccursAt(rest, c, i - |p|);
      }
    }
    FindIs(all, c, |p| + k);
  }

  /** A `]]>` in the body keeps its place when the closing mark follows; and the closing mark
      cannot start any earlier than right after the body, even if the body ends in `]` or `]]`. */
  lemma CloseAfterBody(json: seq<Byte>, rest: seq<Byte>)
    ensures match Find(json, CdataClose())
            case Some(k) => IsFirst(json + CdataClose() + rest, CdataClose(), 0, k)
            case None => IsFirst(json + CdataClose() + rest, CdataClose(), 0, |json|)
  {
    var c := CdataClose();
    var all := json + c + rest;
    FindFromIsFirst(json, c, 0);
    forall i | 0 <= i && i + 3 <= |json| ensures OccursAt(all, c, i) <==> OccursAt(json, c, i) {
      assert all[i..i + 3] == json[i..i + 3];
    }
    assert all[|json|..|json| + 3] == c;
    forall i | |json| - 2 <= i < |json| && 0 <= i ensures !OccursAt(all, c, i) {
      OccursElement(all, c, i, 2);
      assert all[i + 2] == c[i + 2 - |json|];
    }
  }

  /** Where the body of a wrapped text ends: at its own first `]]>`, if it has one. */
  function BodyEnd(json: seq<Byte>): (k: nat)
    ensures k <= |json|
  {
    match Find(json, CdataClose()) case Some(k) => k case None => |json|
  }

  lemma BodyEndIff(json: seq<Byte>)
    ensures json[..BodyEnd(json)] == json <==> !Contains(json, CdataClose())
  {
    assert Contains(json, CdataClose()) ==> |json[..BodyEnd(json)]| < |json|;
  }

  lemma UnwrapAt(h: seq<Byte>, json: seq<Byte>, footer: seq<Byte>)
    requires forall i :: 0 <= i < |h| ==> h[i] != 93
    requires Find(h + CdataOpen() + (json + CdataClose() + footer), CdataOpen()) == Some(|h|)
    ensures Unwrap(h + CdataOpen() + (json + CdataClose() + footer)) == Some(json[..BodyEnd(json)])
  {
    var p, rest, k := h + CdataOpen(), json + CdataClose() + footer, BodyEnd(json);
    CloseAfterBody(json, footer);
    SkipPrefix(p, rest, k);
    assert (p + rest)[|p|..|p| + k] == rest[..k] == json[..k];
  }

  lemma Regroup(h: seq<Byte>, o: seq<Byte>, j: seq<Byte>, c: seq<Byte>, f: seq<Byte>)
    ensures h + o + j + c + f == h + o + (j + c + f)
  {
  }

  /** What comes back, for every body: the body up to its first `]]>`. */
  lemma UnwrapOfWrap(json: seq<Byte>)
    ensures Unwrap(Wrap(json)) == Some(json[..BodyEnd(json)])
  {
    HeaderIsPlain();
    OpenMarkIsAfterHeader(json + CdataClose() + Footer());
    UnwrapAt(Header(), json, Footer());
    Regroup(Header(), CdataOpen(), json, CdataClose(), Footer());
  }

  /** The round trip holds if and only if the body does not contain `]]>`, the one sequence section
      2.7 of XML 1.0 forbids inside a CDATA section. */
  lemma RoundTripIff(json: seq<Byte>)
    ensures Unwrap(Wrap(json)) == Some(json) <==> !Contains(json, CdataClose())
  {
    UnwrapOfWrap(json);
    BodyEndIff(json);
  }

  /** The marks and the frame, written out. */
  lemma FrameIs()
    ensures CdataOpen() == Ascii("<![CDATA[") && CdataClose() == Ascii("]]>")
    ensures HEADER_TEXT == "<?xml version=\"1.0\" encoding=\"UTF-8\"?>\n"
                           + "<xlpodBundle xmlns=\"urn:xlpod:bundle:v1\">\n" + "  <body>"
    ensures FOOTER_TEXT == "</body>\n</xlpodBundle>\n"
  {
  }
}
