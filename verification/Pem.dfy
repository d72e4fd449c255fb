/** `pem_to_der`: the bytes inside the first armoured block of a PEM text
    (the textual encoding of sections 2 and 3 of RFC 7468). */
module Pem {
  import opened Wrappers
  import opened Bytes
  import Utf8
  import Base64

  // ---- Lines, as the library splits them ----------------------------------------------------

  function LineEnd(text: string): nat {
    if text == "" || text[0] == '\n' then 0 else 1 + LineEnd(text[1..])
  }

  lemma {:induction false} LineEndBounds(text: string)
    ensures LineEnd(text) <= |text|
    ensures LineEnd(text) < |text| ==> text[LineEnd(text)] == '\n'
  {
    if text != "" && text[0] != '\n' {
      LineEndBounds(text[1..]);
    }
  }

  function DropCr(line: string): string {
    if line != "" && line[|line| - 1] == '\r' then line[..|line| - 1] else line
  }

  /** A line ends at `\n`; one `\r` just before it belongs to the terminator. */
  function Lines(text: string): seq<string>
    decreases |text|
  {
    LineEndBounds(text);
    var k := LineEnd(text);
    if text == "" then []
    else if k == |text| then [text]
    else [DropCr(text[..k])] + Lines(text[k + 1..])
  }

  /** The Unicode White_Space property. */
  predicate White(c: char) {
    var n := c as int;
    9 <= n <= 13 || n == 0x20 || n == 0x85 || n == 0xA0 || n == 0x1680 || 0x2000 <= n <= 0x200A
    || n == 0x2028 || n == 0x2029 || n == 0x202F || n == 0x205F || n == 0x3000
  }

  function TrimStart(s: string): string {
    if s != "" && White(s[0]) then TrimStart(s[1..]) else s
  }

  function TrimEnd(s: string): string {
    if s != "" && White(s[|s| - 1]) then TrimEnd(s[..|s| - 1]) else s
  }

  function Trim(s: string): string {
    TrimEnd(TrimStart(s))
  }

  predicate AllWhite(s: string) {
    forall i :: 0 <= i < |s| ==> White(s[i])
  }

  lemma {:induction false} TrimStartCuts(s: string) returns (a: string)
    ensures s == a + TrimStart(s) && AllWhite(a)
    ensures TrimStart(s) != "" ==> !White(TrimStart(s)[0])
  {
    if s != "" && White(s[0]) {
      var rest := TrimStartCuts(s[1..]);
      a := [s[0]] + rest;
    } else {
      a := "";
    }
  }

  lemma {:induction false} TrimEndCuts(s: string) returns (b: string)
    ensures s == TrimEnd(s) + b && AllWhite(b)
    ensures TrimEnd(s) != "" ==> !White(TrimEnd(s)[|TrimEnd(s)| - 1])
  {
    if s != "" && White(s[|s| - 1]) {
      var rest := TrimEndCuts(s[..|s| - 1]);
      b := rest + [s[|s| - 1]];
    } else {
      b := "";
    }
  }

  /** Trimming takes white space off both ends, all of it and nothing else. */
  lemma TrimCuts(s: string) returns (a: string, b: string)
    ensures s == a + Trim(s) + b && AllWhite(a) && AllWhite(b)
    ensures Trim(s) != "" ==> !White(Trim(s)[0]) && !White(Trim(s)[|Trim(s)| - 1])
  {
    a := TrimStartCuts(s);
    b := TrimEndCuts(TrimStart(s));
    assert Trim(s) != "" ==> Trim(s)[0] == TrimStart(s)[0];
  }

  const BEGIN := "-----BEGIN"
  const END := "-----END"

  predicate Begins(line: string) { BEGIN <= line }

  predicate Ends(line: string) { END <= line }

  // ---- The scan -----------------------------------------------------------------------------

  /** The bytes the scan collects from `lines` on: everything between a BEGIN line and the next
      END line, further BEGIN lines skipped, nothing after the first END line. */
  function Armoured(lines: seq<string>, inBlock: bool): seq<Byte> {
    if lines == [] then []
    else if Begins(lines[0]) then Armoured(lines[1..], true)
    else if Ends(lines[0]) then []
    else if inBlock then Utf8.Encode(Trim(lines[0])) + Armoured(lines[1..], true)
    else Armoured(lines[1..], false)
  }

  method PemToDer(pem: string) returns (r: Result<seq<Byte>, string>)
    ensures r == Base64.Decode(Armoured(Lines(pem), false))
  {
    var buf: seq<Byte> := [];
    var inBlock := false;
    var lines := Lines(pem);
    ghost var all := Armoured(lines, false);
    var i := 0;
    while i < |lines|
      invariant 0 <= i <= |lines|
      invariant buf + Armoured(lines[i..], inBlock) == all
    {
      var line := lines[i];
      if Begins(line) {
        inBlock := true;
        i := i + 1;
        continue;
      }
      if Ends(line) {
        break;
      }
      if inBlock {
        assert buf + (Utf8.Encode(Trim(line)) + Armoured(lines[i..][1..], true))
            == buf + Utf8.Encode(Trim(line)) + Armoured(lines[i..][1..], true);
        buf := buf + Utf8.Encode(Trim(line));
      }
      i := i + 1;
    }
    assert buf + [] == buf;
    r := Base64.DecodeB64(buf);
  }

  // ---- Round trip -----------------------------------------------------------------------------

  /** A line as written: its content and which terminator follows it. */
  datatype Written = Written(content: string, crlf: bool) {
    predicate Valid() {
      '\n' !in content && DropCr(content) == content
    }

    function Text(): string {
      content + (if crlf then "\r\n" else "\n")
    }
  }

  predicate AllValid(ls: seq<Written>) {
    forall i :: 0 <= i < |ls| ==> ls[i].Valid()
  }

  function Render(ls: seq<Written>): string {
    if ls == [] then "" else ls[0].Text() + Render(ls[1..])
  }

  function Contents(ls: seq<Written>): seq<string> {
    if ls == [] then [] else [ls[0].content] + Contents(ls[1..])
  }

  lemma {:induction false} LineEndOf(s: string, rest: string)
    requires '\n' !in s
    ensures LineEnd(s + "\n" + rest) == |s|
  {
    if s != "" {
      assert (s + "\n" + rest)[1..] == s[1..] + "\n" + rest;
      LineEndOf(s[1..], rest);
    } else {
      assert (s + "\n" + rest)[0] == '\n';
    }
  }

  lemma CutAtNewline(s: string, rest: string)
    ensures (s + "\n" + rest)[..|s|] == s && (s + "\n" + rest)[|s| + 1..] == rest
  {
  }

  lemma LinesSplit(s: string, rest: string)
    requires '\n' !in s
    ensures Lines(s + "\n" + rest) == [DropCr(s)] + Lines(rest)
  {
    LineEndOf(s, rest);
    CutAtNewline(s, rest);
  }

  lemma DropsOneCr(s: string)
    ensures DropCr(s + "\r") == s
  {
  }

  lemma FirstLine(l: Written, rest: string)
    requires l.Valid()
    ensures Lines(l.Text() + rest) == [l.content] + Lines(rest)
  {
    if l.crlf {
      assert l.Text() + rest == (l.content + "\r") + "\n" + rest;
      LinesSplit(l.content + "\r", rest);
      DropsOneCr(l.content);
    } else {
      LinesSplit(l.content, rest);
    }
  }

  lemma Assoc(a: string, b: string, c: string)
    ensures (a + b) + c == a + (b + c)
  {
  }

  lemma AssocLines(a: seq<string>, b: seq<string>, c: seq<string>)
    ensures (a + b) + c == a + (b + c)
  {
  }

  lemma {:induction false} LinesOfRender(ls: seq<Written>, rest: string)
    requires AllValid(ls)
    ensures Lines(Render(ls) + rest) == Contents(ls) + Lines(rest)
  {
    if ls == [] {
      assert Render(ls) + rest == rest;
      assert Contents(ls) + Lines(rest) == Lines(rest);
    } else {
      LinesOfRender(ls[1..], rest);
      FirstLine(ls[0], Render(ls[1..]) + rest);
      Assoc(ls[0].Text(), Render(ls[1..]), rest);
      AssocLines([ls[0].content], Contents(ls[1..]), Lines(rest));
    }
  }

  /** Bytes below 128 as a text. */
  function AsText(b: seq<Byte>): (s: string)
    requires forall i :: 0 <= i < |b| ==> b[i] < 128
    ensures |s| == |b|
    ensures forall i :: 0 <= i < |b| ==> s[i] as int == b[i]
  {
    seq(|b|, i requires 0 <= i < |b| => b[i] as char)
  }

  /** The lines' texts without the white space around them. */
  function Joined(chunks: seq<Written>): string {
    if chunks == [] then "" else Trim(chunks[0].content) + Joined(chunks[1..])
  }

  predicate Base64Char(c: char) {
    var n := c as int;
    n < 128 && (Base64.SextetOf(n) >= 0 || n == Base64.PAD)
  }

  predicate Base64Text(s: string) {
    forall i :: 0 <= i < |s| ==> Base64Char(s[i])
  }

  lemma {:induction false} EncodeAscii(b: seq<Byte>)
    requires forall i :: 0 <= i < |b| ==> b[i] < 128
    ensures Utf8.Encode(AsText(b)) == b
  {
    if b != [] {
      EncodeAscii(b[1..]);
      assert AsText(b)[1..] == AsText(b[1..]);
      assert b == [b[0]] + b[1..];
    }
  }

  lemma DashStays(s: string)
    requires s != "" && s[0] == '-'
    ensures Trim(s) != "" && Trim(s)[0] == '-'
  {
    var a, b := TrimCuts(s);
    assert !White(s[0]) && s[..|a|] == a;
    assert Trim(s) == "" ==> s == b;
  }

  /** A line of Base64 text, indented or not, is no marker. */
  lemma NoMarker(s: string)
    requires Base64Text(Trim(s))
    ensures !Begins(s) && !Ends(s)
  {
    assert !Base64Char('-') && (Begins(s) || Ends(s) ==> s != "" && s[0] == '-');
    if s != "" && s[0] == '-' {
      DashStays(s);
    }
  }

  /** What comes before the first BEGIN line is skipped, as long as it holds no END line. */
  lemma {:induction false} PreambleIgnored(preamble: seq<string>, rest: seq<string>)
    requires forall i :: 0 <= i < |preamble| ==> !Begins(preamble[i]) && !Ends(preamble[i])
    ensures Armoured(preamble + rest, false) == Armoured(rest, false)
  {
    if preamble == [] {
      assert preamble + rest == rest;
    } else {
      assert (preamble + rest)[1..] == preamble[1..] + rest;
      PreambleIgnored(preamble[1..], rest);
    }
  }

  lemma {:induction false} BodyCollected(body: seq<Written>, rest: seq<string>)
    requires Base64Text(Joined(body))
    requires rest != [] && Ends(rest[0])
    ensures Armoured(Contents(body) + rest, true) == Utf8.Encode(Joined(body))
  {
    if body == [] {
      assert Contents(body) + rest == rest;
      assert !Begins(rest[0]) by {
        assert BEGIN[5] != END[5];
      }
    } else {
      var first, others := body[0].content, Joined(body[1..]);
      SplitBase64Text(Trim(first), others);
      NoMarker(first);
      BodyCollected(body[1..], rest);
      AssocLines([first], Contents(body[1..]), rest);
      ArmouredLine(first, Contents(body[1..]) + rest);
      Utf8.EncodeConcat(Trim(first), others);
    }
  }

  lemma ArmouredLine(line: string, rest: seq<string>)
    requires !Begins(line) && !Ends(line)
    ensures Armoured([line] + rest, true) == Utf8.Encode(Trim(line)) + Armoured(rest, true)
  {
    assert ([line] + rest)[1..] == rest;
  }

  /** Inside a block further BEGIN lines are skipped, and nothing behind the END line counts. */
  lemma MarkersInside(line: string, rest: seq<string>, other: seq<string>)
    requires Begins(line) || Ends(line)
    ensures Begins(line) ==> Armoured([line] + rest, true) == Armoured(rest, true)
    ensures !Begins(line) ==> Armoured([line] + rest, true) == Armoured([line] + other, true)
  {
    assert ([line] + rest)[1..] == rest && ([line] + other)[1..] == other;
  }

  lemma SplitBase64Text(a: string, b: string)
    requires Base64Text(a + b)
    ensures Base64Text(a) && Base64Text(b)
  {
    assert forall i :: 0 <= i < |a| ==> a[i] == (a + b)[i];
    assert forall i :: 0 <= i < |b| ==> b[i] == (a + b)[|a| + i];
  }

  lemma {:induction false} LastLineEnds(tail: string)
    ensures var ls := Lines(END + tail); ls != [] && Ends(ls[0])
  {
    var text := END + tail;
    LineEndBounds(text);
    PastPrefix(END, tail);
    var k := LineEnd(text);
    assert k >= |END|;
    assert text[..k][..|END|] == END;
    assert END[|END| - 1] == 'D';
    if k < |text| && k == |END| {
      assert text[..k] == END;
    }
  }

  lemma {:induction false} PastPrefix(p: string, tail: string)
    requires '\n' !in p
    ensures LineEnd(p + tail) >= |p|
  {
    if p != "" {
      assert (p + tail)[1..] == p[1..] + tail;
      PastPrefix(p[1..], tail);
    }
  }

  /** For all DER bytes, all label texts, all line wrappings, indentations and terminators, any
      explanatory text before and anything at all after: the bytes come back. */
  lemma RoundTrip(data: seq<Byte>, preamble: seq<Written>, begin: Written, body: seq<Written>, tail: string)
    requires AllValid(preamble) && begin.Valid() && AllValid(body)
    requires forall i :: 0 <= i < |preamble| ==> !Begins(preamble[i].content) && !Ends(preamble[i].content)
    requires "-----BEGIN" <= begin.content
    requires Joined(body) == AsText(Base64.Encode(data))
    ensures Base64.Decode(Armoured(Lines(Render(preamble) + begin.Text() + Render(body) + ("-----END" + tail)), false))
      == Ok(data)
  {
    var close := Lines(END + tail);
    LinesOfText(preamble, begin, body, END + tail);
    LastLineEnds(tail);
    EncodingIsBase64Text(data);
    ContentsAt(preamble);
    CollectsBody(Contents(preamble), begin.content, body, close);
    Base64.SextetsOfEncoding(data);
    EncodeAscii(Base64.Encode(data));
    Base64.DecodeInvertsEncode(data, Base64.Encode(data));
  }

  lemma LinesOfText(preamble: seq<Written>, begin: Written, body: seq<Written>, close: string)
    requires AllValid(preamble) && begin.Valid() && AllValid(body)
    ensures Lines(Render(preamble) + begin.Text() + Render(body) + close)
         == Contents(preamble) + ([begin.content] + (Contents(body) + Lines(close)))
  {
    LinesOfRender(body, close);
    FirstLine(begin, Render(body) + close);
    LinesOfRender(preamble, begin.Text() + (Render(body) + close));
    Regroup(Render(preamble), begin.Text(), Render(body), close);
  }

  lemma Regroup(a: string, b: string, c: string, d: string)
    ensures a + b + c + d == a + (b + (c + d))
  {
  }

  lemma CollectsBody(preamble: seq<string>, begin: string, body: seq<Written>, close: seq<string>)
    requires forall i :: 0 <= i < |preamble| ==> !Begins(preamble[i]) && !Ends(preamble[i])
    requires Begins(begin) && Base64Text(Joined(body))
    requires close != [] && Ends(close[0])
    ensures Armoured(preamble + ([begin] + (Contents(body) + close)), false) == Utf8.Encode(Joined(body))
  {
    PreambleIgnored(preamble, [begin] + (Contents(body) + close));
    assert ([begin] + (Contents(body) + close))[1..] == Contents(body) + close;
    BodyCollected(body, close);
  }

  lemma {:induction false} ContentsAt(ls: seq<Written>)
    ensures |Contents(ls)| == |ls| && forall i :: 0 <= i < |ls| ==> Contents(ls)[i] == ls[i].content
  {
    if ls != [] {
      ContentsAt(ls[1..]);
    }
  }

  lemma EncodingIsBase64Text(data: seq<Byte>)
    ensures Base64Text(AsText(Base64.Encode(data)))
  {
    var v := Base64.EncodeSextets(data);
    forall i | 0 <= i < |Base64.Encode(data)| ensures Base64Char(AsText(Base64.Encode(data))[i]) {
      if i < |v| {
        Base64.SextetOfAlphabetChar(v[i]);
      }
    }
  }

  /** The scan stops at an END line even before any BEGIN line: such a text decodes to nothing,
      whatever follows. */
  lemma EndFirstYieldsNothing(preamble: seq<string>, rest: seq<string>)
    requires forall i :: 0 <= i < |preamble| ==> !Begins(preamble[i]) && !Ends(preamble[i])
    requires rest != [] && Ends(rest[0])
    ensures Base64.Decode(Armoured(preamble + rest, false)) == Ok([])
  {
    PreambleIgnored(preamble, rest);
    assert BEGIN[5] != END[5];
    assert Base64.Sextets([]) == [];
  }
}
