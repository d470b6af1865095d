/**
 * The live-preview frame reader, `MJpegInputStream`. The camera sends a byte stream of parts.
 * Each part is a boundary line, a header block ended by a blank line, and a payload of
 * `Content-Length` bytes. The reader compares whole lines with the configured boundary string.
 * It does not implement the `--` delimiter rules of multipart bodies.
 *
 * The stream is modelled as all the bytes the camera will ever send plus a cursor. A read that
 * never returns is the outcome `Hang`.
 */
module MJpeg {
  import opened Wrappers
  import opened Numbers
  import opened Text

  const CR: byte := 13
  const LF: byte := 10
  const CRLF: seq<byte> := [CR, LF]
  const ContentLengthName: string := "Content-Length"

  /** The outcome of a read: a value and the cursor after it, an exception, or no return at all. */
  datatype Step<+T> = Done(value: T, next: nat) | Raise(error: Exception) | Hang

  function Min(a: int, b: int): int {
    if a <= b then a else b
  }

  /** No byte of `bs` is `b`. */
  predicate Free(bs: seq<byte>, b: byte) {
    forall i :: 0 <= i < |bs| ==> bs[i] != b
  }

  lemma CrlfLength()
    ensures |CRLF| == 2
  {
  }

  /** `x` occurs in `s` starting at `pos`, stated byte by byte. */
  predicate IsAt(s: seq<byte>, pos: nat, x: seq<byte>)
    decreases |x|
  {
    if |x| == 0 then pos <= |s| else pos < |s| && s[pos] == x[0] && IsAt(s, pos + 1, x[1..])
  }

  lemma {:induction false} IsAtSlice(s: seq<byte>, pos: nat, x: seq<byte>)
    ensures IsAt(s, pos, x) <==> pos + |x| <= |s| && s[pos..pos + |x|] == x
    decreases |x|
  {
    if |x| > 0 {
      IsAtSlice(s, pos + 1, x[1..]);
      if pos + |x| <= |s| {
        assert s[pos..pos + |x|] == [s[pos]] + s[pos + 1..pos + |x|];
        assert x == [x[0]] + x[1..];
      }
    }
  }

  lemma IsAtConcat(s: seq<byte>, pos: nat, a: seq<byte>, b: seq<byte>)
    requires IsAt(s, pos, a + b)
    ensures IsAt(s, pos, a) && IsAt(s, pos + |a|, b)
  {
    IsAtSlice(s, pos, a + b);
    IsAtSlice(s, pos, a);
    IsAtSlice(s, pos + |a|, b);
    assert s[pos..pos + |a|] == (a + b)[..|a|];
    assert s[pos + |a|..pos + |a| + |b|] == (a + b)[|a|..];
  }

  // ---------------------------------------------------------------------------
  // Lines
  // ---------------------------------------------------------------------------

  /** The bytes of `bs` with every CR removed. */
  function DropCR(bs: seq<byte>): (r: seq<byte>)
    ensures |r| <= |bs|
  {
    if |bs| == 0 then []
    else
      assert bs == [bs[0]] + bs[1..];
      (if bs[0] == CR then [] else [bs[0]]) + DropCR(bs[1..])
  }

  lemma {:induction false} DropCRKeeps(bs: seq<byte>)
    requires Free(bs, CR)
    ensures DropCR(bs) == bs
  {
    if |bs| > 0 {
      assert bs == [bs[0]] + bs[1..];
      DropCRKeeps(bs[1..]);
    }
  }

  lemma {:induction false} DropCRAppend(a: seq<byte>, b: seq<byte>)
    ensures DropCR(a + b) == DropCR(a) + DropCR(b)
  {
    if |a| == 0 {
      assert a + b == b;
    } else {
      assert (a + b)[1..] == a[1..] + b;
      DropCRAppend(a[1..], b);
    }
  }

  /** No LF is left at or after `pos`: a line started here can never end. */
  predicate NoLineEnd(s: seq<byte>, pos: nat) {
    forall i :: pos <= i < |s| ==> s[i] != LF
  }

  /** The position of the first LF at or after `pos`, or -1 when there is none. */
  function LineEnd(s: seq<byte>, pos: nat): (k: int)
    decreases |s| - pos
    ensures k == -1 || (pos <= k < |s| && s[k] == LF)
  {
    if pos >= |s| then -1
    else if s[pos] == LF then pos
    else LineEnd(s, pos + 1)
  }

  /** -1 exactly when no LF is left; otherwise the position found is the first LF. */
  lemma {:induction false} LineEndSpec(s: seq<byte>, pos: nat)
    ensures LineEnd(s, pos) == -1 <==> NoLineEnd(s, pos)
    ensures forall i :: pos <= i < LineEnd(s, pos) ==> s[i] != LF
    decreases |s| - pos
  {
    if pos < |s| && s[pos] != LF {
      LineEndSpec(s, pos + 1);
    }
  }

  /**
   * `readLine()`: the bytes up to the first LF, with every CR dropped wherever it occurs. The LF is
   * consumed and is not part of the line. When no LF is left, the source reads -1 forever. That
   * value is neither CR nor LF, so the call never returns: `Hang`. With `eofRaises`, the end of the
   * stream raises instead, which is the corrected reader.
   */
  function ReadLine(s: seq<byte>, pos: nat, eofRaises: bool): (r: Step<seq<byte>>)
    ensures r.Hang? ==> !eofRaises
    ensures r.Raise? ==> eofRaises && r.error == IO(EndOfStream)
    ensures r.Done? ==> pos < r.next <= |s| && s[r.next - 1] == LF
  {
    var k := LineEnd(s, pos);
    if k == -1 then
      if eofRaises then Raise(IO(EndOfStream)) else Hang
    else
      Done(DropCR(s[pos..k]), k + 1)
  }

  /**
   * A line is read exactly when an LF is left; it ends at the first LF, and it is the bytes before
   * that LF with the CRs dropped.
   */
  lemma ReadLineSpec(s: seq<byte>, pos: nat, eofRaises: bool)
    ensures ReadLine(s, pos, eofRaises).Done? <==> !NoLineEnd(s, pos)
    ensures ReadLine(s, pos, eofRaises).Done? ==>
      var r := ReadLine(s, pos, eofRaises);
      && (forall i :: pos <= i < r.next - 1 ==> s[i] != LF)
      && r.value == DropCR(s[pos..r.next - 1])
  {
    LineEndSpec(s, pos);
  }

  /** Where a line without LF is followed by CRLF, the first LF is the one of the CRLF. */
  lemma LineEndOf(s: seq<byte>, pos: nat, line: seq<byte>)
    requires Free(line, LF)
    requires IsAt(s, pos, line + CRLF)
    ensures LineEnd(s, pos) == pos + |line| + 1
    ensures s[pos..pos + |line| + 1] == line + [CR]
  {
    var n := pos + |line| + 2;
    IsAtSlice(s, pos, line + CRLF);
    assert s[pos..n] == line + CRLF;
    assert s[n - 1] == (line + CRLF)[|line| + 1];
    forall i | pos <= i < n - 1
      ensures s[i] != LF
    {
      assert s[i] == (line + CRLF)[i - pos];
    }
    LineEndSpec(s, pos);
    assert s[pos..n - 1] == s[pos..n][..|line| + 1];
    assert (line + CRLF)[..|line| + 1] == line + [CR];
  }

  /** Dropping the CRs of a CR-free line and its trailing CR gives the line. */
  lemma DropTrailingCR(line: seq<byte>)
    requires Free(line, CR)
    ensures DropCR(line + [CR]) == line
  {
    DropCRAppend(line, [CR]);
    assert DropCR([CR]) == [];
    DropCRKeeps(line);
    assert DropCR(line) + DropCR([CR]) == line;
  }

  /** A line of text without CR or LF, followed by CRLF, reads back as exactly that line. */
  lemma ReadLineOf(s: seq<byte>, pos: nat, line: seq<byte>, eofRaises: bool)
    requires Free(line, CR) && Free(line, LF)
    requires IsAt(s, pos, line + CRLF)
    ensures ReadLine(s, pos, eofRaises) == Done(line, pos + |line| + 2)
  {
    LineEndOf(s, pos, line);
    DropTrailingCR(line);
  }

  /** The end of the stream inside a line: the reader as written never returns. */
  lemma TruncatedLineHangs()
    ensures ReadLine([0x41, 0x42], 0, false) == Hang
    ensures ReadLine([0x41, 0x42], 0, true) == Raise(IO(EndOfStream))
  {
    var s: seq<byte> := [0x41, 0x42];
    assert s[0..] == s;
  }

  /** Text as the reader sees it: one character per byte, which is UTF-8 decoding on ASCII. */
  function LineText(line: seq<byte>): string {
    AsciiText(line)
  }

  // ---------------------------------------------------------------------------
  // Boundary
  // ---------------------------------------------------------------------------

  /** A boundary that can appear as a line: non-empty ASCII without CR or LF. */
  predicate ValidBoundary(b: string) {
    |b| > 0 && OneLine(b)
  }

  /** ASCII text with no CR or LF: it fits on one line. */
  predicate OneLine(t: string) {
    IsAscii(t) && forall i :: 0 <= i < |t| ==> t[i] != '\r' && t[i] != '\n'
  }

  lemma AsciiLineBytes(t: string)
    requires OneLine(t)
    ensures Free(AsciiBytes(t), CR) && Free(AsciiBytes(t), LF)
  {
  }

  /**
   * `skipBoundaryLines()`: blank lines are skipped. The first other line must equal the boundary
   * exactly, or an `IOException` is raised. The boundary line is consumed.
   */
  function SkipBoundary(boundary: string, s: seq<byte>, pos: nat, eofRaises: bool): (r: Step<()>)
    decreases |s| - pos
    ensures r.Done? ==> pos < r.next <= |s|
    ensures r.Raise? ==> r.error == IO(UnexpectedLine) || (eofRaises && r.error == IO(EndOfStream))
    ensures r.Hang? ==> !eofRaises
    ensures boundary == [] ==> !r.Done?
  {
    match ReadLine(s, pos, eofRaises)
    case Done(line, next) =>
      if line == [] then SkipBoundary(boundary, s, next, eofRaises)
      else if LineText(line) == boundary then Done((), next)
      else Raise(IO(UnexpectedLine))
    case Raise(e) => Raise(e)
    case Hang => Hang
  }

  /** `k` blank lines. */
  function Blanks(k: nat): (r: seq<byte>)
    ensures |r| == 2 * k
  {
    if k == 0 then [] else CRLF + Blanks(k - 1)
  }

  /** Any number of blank lines followed by the boundary line: the boundary line is found and consumed. */
  lemma {:induction false} SkipBoundaryFinds(boundary: string, s: seq<byte>, pos: nat, k: nat, eofRaises: bool)
    requires ValidBoundary(boundary)
    requires IsAt(s, pos, Blanks(k) + AsciiBytes(boundary) + CRLF)
    ensures SkipBoundary(boundary, s, pos, eofRaises) == Done((), pos + 2 * k + |boundary| + 2)
    decreases k
  {
    var b := AsciiBytes(boundary);
    AsciiLineBytes(boundary);
    if k == 0 {
      assert Blanks(0) + b + CRLF == b + CRLF;
      ReadLineOf(s, pos, b, eofRaises);
    } else {
      assert Blanks(k) + b + CRLF == ([] + CRLF) + (Blanks(k - 1) + b + CRLF);
      IsAtConcat(s, pos, [] + CRLF, Blanks(k - 1) + b + CRLF);
      ReadLineOf(s, pos, [], eofRaises);
      SkipBoundaryFinds(boundary, s, pos + 2, k - 1, eofRaises);
    }
  }

  /** Blank lines followed by a non-blank line other than the boundary: `IOException`. */
  lemma {:induction false} SkipBoundaryRejects(boundary: string, s: seq<byte>, pos: nat, k: nat, line: seq<byte>, eofRaises: bool)
    requires line != [] && Free(line, CR) && Free(line, LF) && LineText(line) != boundary
    requires IsAt(s, pos, Blanks(k) + line + CRLF)
    ensures SkipBoundary(boundary, s, pos, eofRaises) == Raise(IO(UnexpectedLine))
    decreases k
  {
    if k == 0 {
      assert Blanks(0) + line + CRLF == line + CRLF;
      ReadLineOf(s, pos, line, eofRaises);
    } else {
      assert Blanks(k) + line + CRLF == ([] + CRLF) + (Blanks(k - 1) + line + CRLF);
      IsAtConcat(s, pos, [] + CRLF, Blanks(k - 1) + line + CRLF);
      ReadLineOf(s, pos, [], eofRaises);
      SkipBoundaryRejects(boundary, s, pos + 2, k - 1, line, eofRaises);
    }
  }

  // ---------------------------------------------------------------------------
  // Headers
  // ---------------------------------------------------------------------------

  datatype Header = Header(name: string, value: string)

  /** okhttp's name check: non-empty, every character visible ASCII. */
  predicate ValidName(name: string) {
    |name| > 0 && forall i :: 0 <= i < |name| ==> 0x20 < name[i] as int < 0x7f
  }

  /** okhttp's value check: every character a tab, a space or visible ASCII. */
  predicate ValidValue(value: string) {
    forall i :: 0 <= i < |value| ==> value[i] == '\t' || 0x20 <= value[i] as int < 0x7f
  }

  /** A header as okhttp stores it: checked name without ':', checked value without surrounding blanks. */
  predicate ValidHeader(h: Header) {
    ValidName(h.name) && Lacks(h.name, ':') && ValidValue(h.value) && Trimmed(h.value)
  }

  /** Every header in `hs` is valid, stated one header at a time. */
  predicate ValidHeaders(hs: seq<Header>) {
    |hs| == 0 || (ValidHeader(hs[0]) && ValidHeaders(hs[1..]))
  }

  lemma ValidHeadersCons(h: Header, hs: seq<Header>)
    requires ValidHeader(h) && ValidHeaders(hs)
    ensures ValidHeaders([h] + hs)
  {
    assert ([h] + hs)[1..] == hs;
  }

  /**
   * okhttp's `Headers.Builder.add(line)`: the line is split at its first ':'. The name is trimmed,
   * both halves are checked, and the trimmed value is kept. A line without ':' or with a character
   * the checks refuse raises `IllegalArgumentException`.
   */
  function ParseHeaderLine(line: string): (r: Result<Header>)
    ensures r.Failure? ==> r.error == IllegalArgument
  {
    var k := IndexOf(line, ':');
    if k < 0 then Failure(IllegalArgument)
    else
      var name := Trim(line[..k]);
      var value := line[k + 1..];
      if !ValidName(name) || !ValidValue(value) then Failure(IllegalArgument)
      else Success(Header(name, Trim(value)))
  }

  /** A line without a colon is rejected; every header accepted passes okhttp's checks. */
  lemma ParseHeaderLineSpec(line: string)
    ensures Lacks(line, ':') ==> ParseHeaderLine(line).Failure?
    ensures ParseHeaderLine(line).Success? ==> ValidHeader(ParseHeaderLine(line).value)
  {
    IndexOfSpec(line, ':');
    var k := IndexOf(line, ':');
    if k >= 0 {
      var name := Trim(line[..k]);
      var value := line[k + 1..];
      if ValidName(name) && ValidValue(value) {
        TrimLacks(line[..k], ':');
        TrimValidValue(value);
      }
    }
  }

  /** Trimming a checked value keeps it checked. */
  lemma TrimValidValue(value: string)
    requires ValidValue(value)
    ensures ValidValue(Trim(value)) && Trimmed(Trim(value))
  {
    TrimSpec(value);
    var a := LeadCount(value);
    forall i | 0 <= i < |Trim(value)|
      ensures Trim(value)[i] == '\t' || 0x20 <= Trim(value)[i] as int < 0x7f
    {
      assert Trim(value)[i] == value[a + i];
    }
  }


  /** The header line a server writes: `Name: value`. */
  function FormatHeader(h: Header): string {
    h.name + ": " + h.value
  }

  lemma FormatHeaderIsLine(h: Header)
    requires ValidHeader(h)
    ensures OneLine(FormatHeader(h))
  {
    var t := FormatHeader(h);
    forall i | 0 <= i < |t|
      ensures t[i] as int < 128 && t[i] != '\r' && t[i] != '\n'
    {
      if i >= |h.name| + 2 {
        assert t[i] == h.value[i - |h.name| - 2];
      }
    }
  }

  /** The first colon of a formatted header line is the one after the name. */
  lemma FormatHeaderColon(h: Header)
    requires ValidHeader(h)
    ensures IndexOf(FormatHeader(h), ':') == |h.name|
    ensures FormatHeader(h)[..|h.name|] == h.name
    ensures FormatHeader(h)[|h.name| + 1..] == " " + h.value
  {
    var line := FormatHeader(h);
    var n := |h.name|;
    assert line[n] == ':';
    IndexOfSpec(line, ':');
    assert line[..n] == h.name;
  }

  /** Parsing a formatted header line gives the header back. */
  lemma ParseFormatHeader(h: Header)
    requires ValidHeader(h)
    ensures ParseHeaderLine(FormatHeader(h)) == Success(h)
  {
    FormatHeaderColon(h);
    TrimSpec(h.name);
    TrimAfterSpace(h.value);
  }

  /** `readHeaders()`: each line up to the first blank line is added at once; the blank line is consumed. */
  function ReadHeaders(s: seq<byte>, pos: nat, eofRaises: bool): (r: Step<seq<Header>>)
    decreases |s| - pos
    ensures r.Done? ==> pos < r.next <= |s|
    ensures r.Raise? ==> r.error == IllegalArgument || (eofRaises && r.error == IO(EndOfStream))
    ensures r.Hang? ==> !eofRaises
  {
    match ReadLine(s, pos, eofRaises)
    case Done(line, next) =>
      if line == [] then Done([], next)
      else
        (match ParseHeaderLine(LineText(line))
         case Failure(e) => Raise(e)
         case Success(h) =>
           (match ReadHeaders(s, next, eofRaises)
            case Done(hs, after) => Done([h] + hs, after)
            case Raise(e) => Raise(e)
            case Hang => Hang))
    case Raise(e) => Raise(e)
    case Hang => Hang
  }

  /** Every header `readHeaders()` returns passed okhttp's name and value checks. */
  lemma {:induction false} ReadHeadersValid(s: seq<byte>, pos: nat, eofRaises: bool)
    ensures ReadHeaders(s, pos, eofRaises).Done? ==> ValidHeaders(ReadHeaders(s, pos, eofRaises).value)
    decreases |s| - pos
  {
    match ReadLine(s, pos, eofRaises)
    case Done(line, next) =>
      if line != [] && ParseHeaderLine(LineText(line)).Success? {
        ReadHeadersValid(s, next, eofRaises);
        match ReadHeaders(s, next, eofRaises)
        case Done(hs, _) =>
          ParseHeaderLineSpec(LineText(line));
          ValidHeadersCons(ParseHeaderLine(LineText(line)).value, hs);
        case _ =>
      }
    case _ =>
  }

  /** The bytes of a header block: each header line, then a blank line. */
  function HeaderBlock(hs: seq<Header>): seq<byte>
    requires ValidHeaders(hs)
  {
    if |hs| == 0 then CRLF
    else
      FormatHeaderIsLine(hs[0]);
      AsciiBytes(FormatHeader(hs[0])) + CRLF + HeaderBlock(hs[1..])
  }

  lemma HeaderBlockCons(hs: seq<Header>)
    requires ValidHeaders(hs) && |hs| > 0
    ensures ValidHeader(hs[0]) && ValidHeaders(hs[1..])
    ensures OneLine(FormatHeader(hs[0]))
    ensures HeaderBlock(hs) == (AsciiBytes(FormatHeader(hs[0])) + CRLF) + HeaderBlock(hs[1..])
  {
    FormatHeaderIsLine(hs[0]);
  }

  /** One header line followed by the rest of the block. */
  lemma ReadHeadersCons(s: seq<byte>, pos: nat, eofRaises: bool, line: seq<byte>, next: nat, hs: seq<Header>, after: nat)
    requires |hs| > 0
    requires ReadLine(s, pos, eofRaises) == Done(line, next) && line != []
    requires ParseHeaderLine(LineText(line)) == Success(hs[0])
    ensures ReadHeaders(s, next, eofRaises) == Done(hs[1..], after) ==> ReadHeaders(s, pos, eofRaises) == Done(hs, after)
  {
    assert [hs[0]] + hs[1..] == hs;
  }

  /** A formatted header line reads back as one non-blank line that parses to the header. */
  lemma ReadHeaderLine(s: seq<byte>, pos: nat, h: Header, eofRaises: bool)
    requires ValidHeader(h)
    requires IsAt(s, pos, AsciiBytes(FormatHeader(h)) + CRLF)
    ensures var line := AsciiBytes(FormatHeader(h));
      && line != []
      && ReadLine(s, pos, eofRaises) == Done(line, pos + |line| + 2)
      && ParseHeaderLine(LineText(line)) == Success(h)
  {
    var text := FormatHeader(h);
    FormatHeaderIsLine(h);
    var line := AsciiBytes(text);
    AsciiLineBytes(text);
    ReadLineOf(s, pos, line, eofRaises);
    assert |line| == |text| > 0;
    ParseFormatHeader(h);
  }

  /** The first header line of a block: reading it leaves the rest of the block, whose headers then follow. */
  lemma ReadHeaderBlockStep(s: seq<byte>, pos: nat, hs: seq<Header>, eofRaises: bool)
    requires ValidHeaders(hs) && |hs| > 0
    requires IsAt(s, pos, HeaderBlock(hs))
    ensures ValidHeaders(hs[1..])
    ensures |HeaderBlock(hs[1..])| < |HeaderBlock(hs)|
    ensures var next := pos + |HeaderBlock(hs)| - |HeaderBlock(hs[1..])|;
      && IsAt(s, next, HeaderBlock(hs[1..]))
      && (ReadHeaders(s, next, eofRaises) == Done(hs[1..], pos + |HeaderBlock(hs)|) ==>
          ReadHeaders(s, pos, eofRaises) == Done(hs, pos + |HeaderBlock(hs)|))
  {
    hide *;
    CrlfLength();
    HeaderBlockCons(hs);
    var line := AsciiBytes(FormatHeader(hs[0]));
    var first := line + CRLF;
    assert |first| == |line| + 2;
    IsAtConcat(s, pos, first, HeaderBlock(hs[1..]));
    ReadHeaderLine(s, pos, hs[0], eofRaises);
    ReadHeadersCons(s, pos, eofRaises, line, pos + |first|, hs, pos + |HeaderBlock(hs)|);
  }

  /** No headers: the block is the blank line alone, and reading it ends the headers. */
  lemma ReadEmptyHeaderBlock(s: seq<byte>, pos: nat, hs: seq<Header>, eofRaises: bool)
    requires |hs| == 0 && IsAt(s, pos, HeaderBlock(hs))
    ensures ReadHeaders(s, pos, eofRaises) == Done(hs, pos + |HeaderBlock(hs)|)
  {
    assert HeaderBlock(hs) == [] + CRLF;
    ReadLineOf(s, pos, [], eofRaises);
  }

  /** A header block reads back as its headers, in order, with the cursor just past the blank line. */
  lemma {:induction false} ReadHeaderBlock(s: seq<byte>, pos: nat, hs: seq<Header>, eofRaises: bool)
    requires ValidHeaders(hs)
    requires IsAt(s, pos, HeaderBlock(hs))
    ensures ReadHeaders(s, pos, eofRaises) == Done(hs, pos + |HeaderBlock(hs)|)
    decreases |hs|
  {
    hide *;
    if |hs| == 0 {
      ReadEmptyHeaderBlock(s, pos, hs, eofRaises);
    } else {
      ReadHeaderBlockStep(s, pos, hs, eofRaises);
      ReadHeaderBlock(s, pos + |HeaderBlock(hs)| - |HeaderBlock(hs[1..])|, hs[1..], eofRaises);
    }
  }

  /** `hs[i]` is the last header whose name matches `name`, ignoring case. */
  predicate LastMatch(hs: seq<Header>, name: string, i: int) {
    && 0 <= i < |hs|
    && EqualsIgnoreCase(hs[i].name, name)
    && forall j :: i < j < |hs| ==> !EqualsIgnoreCase(hs[j].name, name)
  }

  /** The index of the last of the first `n` headers whose name matches `name`, or -1. */
  function LastIndex(hs: seq<Header>, name: string, n: nat): (k: int)
    requires n <= |hs|
    ensures -1 <= k < n
  {
    if n == 0 then -1
    else if EqualsIgnoreCase(hs[n - 1].name, name) then n - 1
    else LastIndex(hs, name, n - 1)
  }

  /** The search from the back finds the last match among the first `n` headers, or reports that none matches. */
  lemma {:induction false} LastIndexSpec(hs: seq<Header>, name: string, n: nat)
    requires n <= |hs|
    ensures LastIndex(hs, name, n) == -1 <==> forall i :: 0 <= i < n ==> !EqualsIgnoreCase(hs[i].name, name)
    ensures LastIndex(hs, name, n) != -1 ==> EqualsIgnoreCase(hs[LastIndex(hs, name, n)].name, name)
    ensures LastIndex(hs, name, n) != -1 ==>
      forall j :: LastIndex(hs, name, n) < j < n ==> !EqualsIgnoreCase(hs[j].name, name)
  {
    if n > 0 && !EqualsIgnoreCase(hs[n - 1].name, name) {
      LastIndexSpec(hs, name, n - 1);
    }
  }

  function Lookup(hs: seq<Header>, name: string): Option<string> {
    var k := LastIndex(hs, name, |hs|);
    if k == -1 then None else Some(hs[k].value)
  }

  /** okhttp's `Headers.get`: the value of the last header whose name matches, ignoring case; none when no name matches. */
  lemma LookupSpec(hs: seq<Header>, name: string)
    ensures Lookup(hs, name).None? <==> forall i :: 0 <= i < |hs| ==> !EqualsIgnoreCase(hs[i].name, name)
    ensures Lookup(hs, name).Some? ==> exists i :: LastMatch(hs, name, i) && hs[i].value == Lookup(hs, name).value
  {
    LastIndexSpec(hs, name, |hs|);
    var k := LastIndex(hs, name, |hs|);
    if k != -1 {
      assert LastMatch(hs, name, k);
    }
  }

  /**
   * The frame length of `nextFrame()`. Both versions parse with `Integer.parseInt`. A missing
   * header is `parseInt(null)` in Java (`NumberFormatException`) and `!!` in Kotlin
   * (`NullPointerException`).
   */
  function ContentLength(flavor: Flavor, hs: seq<Header>): (r: Result<int>)
    ensures r.Success? ==> IsInt32(r.value)
  {
    match Lookup(hs, ContentLengthName)
    case None => Failure(if flavor == Java then NumberFormat else NullPointer)
    case Some(v) => ParseInt(v)
  }

  /**
   * The frame length is the value of the last `Content-Length` header, its name matched ignoring
   * case, read by `parseInt`: it succeeds exactly when that value is an `int` in decimal, and a
   * present value that is not raises `NumberFormatException` in both versions. With no such
   * header, Java raises `NumberFormatException` and Kotlin `NullPointerException`.
   */
  lemma {:induction false} ContentLengthSpec(flavor: Flavor, hs: seq<Header>)
    ensures forall i :: LastMatch(hs, ContentLengthName, i) ==>
      && (ContentLength(flavor, hs).Success? <==> ParseInt(hs[i].value).Success?)
      && (ContentLength(flavor, hs).Success? ==> ContentLength(flavor, hs).value == ParseInt(hs[i].value).value)
      && (ContentLength(flavor, hs).Failure? ==> ContentLength(flavor, hs).error == NumberFormat)
    ensures (forall i :: 0 <= i < |hs| ==> !EqualsIgnoreCase(hs[i].name, ContentLengthName)) ==>
      ContentLength(flavor, hs) == Failure(if flavor == Java then NumberFormat else NullPointer)
  {
    LastIndexSpec(hs, ContentLengthName, |hs|);
    var k := LastIndex(hs, ContentLengthName, |hs|);
    forall i | LastMatch(hs, ContentLengthName, i)
      ensures ContentLength(flavor, hs) == ParseInt(hs[i].value)
    {
      assert k != -1;
      assert k == i;
    }
  }

  // ---------------------------------------------------------------------------
  // Frames
  // ---------------------------------------------------------------------------

  /** The reader: its boundary, every byte the camera sends, the cursor, and whether it is still open. */
  datatype Parser = Parser(boundary: string, data: seq<byte>, pos: nat, open: bool)

  /**
   * A commons-io `BoundedInputStream` over the reader's stream: `limit` bytes may be read (no
   * limit when negative), `count` have been read, and `propagateClose` says whether its close
   * reaches the reader.
   */
  datatype Frame = Frame(limit: int, count: nat, propagateClose: bool)

  /** `MJpegInputStream.fromHttpStream`: both arguments must be non-null. */
  function FromHttpStream(boundary: Option<string>, data: Option<seq<byte>>): (r: Result<Parser>)
    ensures r.Failure? <==> boundary.None? || data.None?
    ensures r.Failure? ==> r.error == NullPointer
    ensures r.Success? ==> r.value.pos == 0 && r.value.open && r.value.data == data.value && r.value.boundary == boundary.value
  {
    if boundary.None? || data.None? then Failure(NullPointer)
    else Success(Parser(boundary.value, data.value, 0, true))
  }

  /** The frame a header block announces: its `Content-Length` as the limit, or what parsing it raises. */
  function FrameFor(flavor: Flavor, hs: seq<Header>, afterHeaders: nat): Step<Frame> {
    match ContentLength(flavor, hs)
    case Success(n) => Done(Frame(n, 0, false), afterHeaders)
    case Failure(e) => Raise(e)
  }

  /**
   * `nextFrame()`: skip to the boundary, read the headers, parse `Content-Length`, and hand back a
   * frame starting at the cursor whose close does not reach the reader.
   */
  function NextFrameWith(flavor: Flavor, p: Parser, eofRaises: bool): (r: Step<Frame>)
    ensures !p.open ==> r == Raise(IO(StreamClosed))
    ensures r.Done? ==> p.pos < r.next <= |p.data| && r.value.count == 0 && !r.value.propagateClose
    ensures r.Done? ==> IsInt32(r.value.limit)
    ensures r.Hang? ==> !eofRaises
  {
    if !p.open then Raise(IO(StreamClosed))
    else
      match SkipBoundary(p.boundary, p.data, p.pos, eofRaises)
      case Done(_, afterBoundary) =>
        (match ReadHeaders(p.data, afterBoundary, eofRaises)
         case Done(hs, afterHeaders) => FrameFor(flavor, hs, afterHeaders)
         case Raise(e) => Raise(e)
         case Hang => Hang)
      case Raise(e) => Raise(e)
      case Hang => Hang
  }

  /**
   * The exceptions `nextFrame()` can raise: `IOException` for a closed reader or an unexpected line,
   * `IllegalArgumentException` from okhttp's header checks, and the two ways `Content-Length` fails;
   * `NullPointerException` only in Kotlin, end of stream only with the checked reader.
   */
  lemma NextFrameErrors(flavor: Flavor, p: Parser, eofRaises: bool)
    ensures var r := NextFrameWith(flavor, p, eofRaises);
      && (r.Raise? && r.error == NullPointer ==> flavor == Kotlin)
      && (r.Raise? ==>
            r.error in {IO(StreamClosed), IO(UnexpectedLine), IllegalArgument, NumberFormat, NullPointer}
            || (eofRaises && r.error == IO(EndOfStream)))
  {
  }

  /** `nextFrame()` as written: a stream that ends inside a line makes it hang. */
  function NextFrame(flavor: Flavor, p: Parser): (r: Step<Frame>)
    ensures !p.open ==> r == Raise(IO(StreamClosed))
    ensures r.Done? ==> p.pos < r.next <= |p.data| && r.value.count == 0 && !r.value.propagateClose
  {
    NextFrameWith(flavor, p, false)
  }

  /** `nextFrame()` with a line reader that raises at the end of the stream: it always returns. */
  function NextFrameChecked(flavor: Flavor, p: Parser): (r: Step<Frame>)
    ensures !r.Hang?
    ensures !p.open ==> r == Raise(IO(StreamClosed))
  {
    NextFrameWith(flavor, p, true)
  }

  /** Hang turned into the end-of-stream exception; every other outcome kept. */
  function Settle<T>(r: Step<T>): Step<T> {
    if r.Hang? then Raise(IO(EndOfStream)) else r
  }

  lemma {:induction false} SkipBoundaryChecked(boundary: string, s: seq<byte>, pos: nat)
    ensures SkipBoundary(boundary, s, pos, true) == Settle(SkipBoundary(boundary, s, pos, false))
    decreases |s| - pos
  {
    var a := ReadLine(s, pos, true);
    var b := ReadLine(s, pos, false);
    if b.Done? {
      assert a == b;
      if b.value == [] {
        SkipBoundaryChecked(boundary, s, b.next);
      }
    }
  }

  lemma {:induction false} ReadHeadersChecked(s: seq<byte>, pos: nat)
    ensures ReadHeaders(s, pos, true) == Settle(ReadHeaders(s, pos, false))
    decreases |s| - pos
  {
    var a := ReadLine(s, pos, true);
    var b := ReadLine(s, pos, false);
    if b.Done? {
      assert a == b;
      if b.value != [] {
        ReadHeadersChecked(s, b.next);
      }
    }
  }

  /** The correction changes only the runs that never return: they raise instead. */
  lemma CheckedAgreesUnlessHang(flavor: Flavor, p: Parser)
    ensures NextFrameChecked(flavor, p) == Settle(NextFrame(flavor, p))
  {
    if p.open {
      SkipBoundaryChecked(p.boundary, p.data, p.pos);
      var b := SkipBoundary(p.boundary, p.data, p.pos, false);
      if b.Done? {
        ReadHeadersChecked(p.data, b.next);
      }
    }
  }

  /** `close()`: every later read of the reader raises `IOException`. */
  function Close(p: Parser): (q: Parser)
    ensures !q.open && q.data == p.data && q.pos == p.pos
  {
    p.(open := false)
  }

  /** Closing a frame closes the reader only when the frame propagates its close. */
  function CloseFrame(p: Parser, f: Frame): (q: Parser)
    ensures q.open == (p.open && !f.propagateClose)
    ensures q.data == p.data && q.pos == p.pos
  {
    if f.propagateClose then Close(p) else p
  }

  /** Closing a frame from `nextFrame()` leaves the reader as it was, so the next frame can be read. */
  lemma FrameCloseKeepsReader(flavor: Flavor, p: Parser)
    requires NextFrame(flavor, p).Done?
    ensures var r := NextFrame(flavor, p); var q := p.(pos := r.next);
      CloseFrame(q, r.value) == q && q.open
  {
  }

  predicate Exhausted(f: Frame) {
    f.limit >= 0 && f.count >= f.limit
  }

  /** The bytes the frame can still deliver: up to its limit, and no further than the end of the data. */
  function Remaining(p: Parser, f: Frame): (n: nat)
    requires p.pos <= |p.data|
    ensures n <= |p.data| - p.pos
    ensures Exhausted(f) ==> n == 0
  {
    var avail := |p.data| - p.pos;
    if f.limit < 0 then avail
    else if f.count >= f.limit then 0
    else Min(avail, f.limit - f.count)
  }

  /** The bytes handed back by one read, and the reader and frame after it. */
  datatype Chunk = Chunk(bytes: seq<byte>, parser: Parser, frame: Frame)

  /**
   * `BoundedInputStream.read(buffer, 0, n)`. An exhausted frame answers end of stream without
   * touching the reader. Otherwise the read goes to the reader, which raises once closed and
   * otherwise delivers what it has up to the limit. An empty chunk is end of stream.
   */
  function ReadFrame(p: Parser, f: Frame, n: nat): (r: Result<Chunk>)
    requires p.pos <= |p.data|
    ensures r.Failure? <==> !p.open && !Exhausted(f)
    ensures r.Failure? ==> r.error == IO(StreamClosed)
    ensures r.Success? ==>
      var k := |r.value.bytes|;
      && k == Min(n, Remaining(p, f))
      && r.value.bytes == p.data[p.pos..p.pos + k]
      && r.value.parser == p.(pos := p.pos + k)
      && r.value.frame == f.(count := f.count + k)
  {
    if Exhausted(f) then Success(Chunk([], p, f))
    else if !p.open then Failure(IO(StreamClosed))
    else
      var k := Min(n, Remaining(p, f));
      Success(Chunk(p.data[p.pos..p.pos + k], p.(pos := p.pos + k), f.(count := f.count + k)))
  }

  /** The whole rest of the frame at once: its payload, and the reader just past it. */
  function Drain(p: Parser, f: Frame): (c: Chunk)
    requires p.pos <= |p.data|
    ensures c.parser.pos <= |c.parser.data|
  {
    var k := Remaining(p, f);
    Chunk(p.data[p.pos..p.pos + k], p.(pos := p.pos + k), f.(count := f.count + k))
  }

  /** Reads a frame to its end in reads of `size` bytes, as `readAllBytes()` does. */
  method ReadAll(p: Parser, f: Frame, size: nat) returns (r: Result<Chunk>)
    requires p.pos <= |p.data| && size > 0
    ensures r.Failure? <==> !p.open && !Exhausted(f)
    ensures r.Failure? ==> r.error == IO(StreamClosed)
    ensures r.Success? ==> r.value == Drain(p, f)
  {
    var q := p;
    var g := f;
    var acc: seq<byte> := [];
    while true
      invariant q == p.(pos := p.pos + |acc|) && q.pos <= |q.data|
      invariant acc == p.data[p.pos..q.pos]
      invariant g == f.(count := f.count + |acc|)
      invariant |acc| + Remaining(q, g) == Remaining(p, f)
      invariant !p.open ==> acc == []
      decreases Remaining(q, g)
    {
      var step := ReadFrame(q, g, size);
      if step.Failure? {
        return Failure(step.error);
      }
      var c := step.value;
      if |c.bytes| == 0 {
        return Success(Chunk(acc, q, g));
      }
      acc := acc + c.bytes;
      q := c.parser;
      g := c.frame;
    }
  }

  // ---------------------------------------------------------------------------
  // Parts, and the stream the camera sends
  // ---------------------------------------------------------------------------

  /** One part: its headers and its payload. */
  datatype PartSpec = PartSpec(headers: seq<Header>, payload: seq<byte>)

  /** The headers are well formed and announce the payload's exact length. */
  predicate WellFormedPart(ps: PartSpec) {
    && ValidHeaders(ps.headers)
    && |ps.payload| <= IntMax
    && Lookup(ps.headers, ContentLengthName) == Some(NatToString(|ps.payload|))
  }

  /** The boundary line and the header block that open a part. */
  function PartHead(boundary: string, hs: seq<Header>): seq<byte>
    requires ValidBoundary(boundary) && ValidHeaders(hs)
  {
    AsciiBytes(boundary) + CRLF + HeaderBlock(hs)
  }

  /** A part as the camera writes it: boundary line, header block, payload, and no trailing CRLF. */
  function Part(boundary: string, ps: PartSpec): seq<byte>
    requires ValidBoundary(boundary) && ValidHeaders(ps.headers)
  {
    PartHead(boundary, ps.headers) + ps.payload
  }

  /** The head of a part: no blank line, the boundary line, then the header block. */
  lemma PartHeadSplit(boundary: string, hs: seq<Header>)
    requires ValidBoundary(boundary) && ValidHeaders(hs)
    ensures IsAscii(boundary)
    ensures PartHead(boundary, hs) == (Blanks(0) + AsciiBytes(boundary) + CRLF) + HeaderBlock(hs)
    ensures |Blanks(0) + AsciiBytes(boundary) + CRLF| == |boundary| + 2
  {
    assert Blanks(0) + AsciiBytes(boundary) == AsciiBytes(boundary);
  }

  /** Once the boundary and the headers are read, `nextFrame()` is decided by `Content-Length`. */
  lemma NextFrameAfterHeaders(flavor: Flavor, p: Parser, afterBoundary: nat, hs: seq<Header>, end: nat)
    requires p.open
    requires SkipBoundary(p.boundary, p.data, p.pos, false) == Done((), afterBoundary)
    requires ReadHeaders(p.data, afterBoundary, false) == Done(hs, end)
    ensures NextFrame(flavor, p) == FrameFor(flavor, hs, end)
  {
  }

  /**
   * A reader positioned at a boundary line and a header block: `nextFrame()` returns a frame just
   * past the block when `Content-Length` parses, and raises what parsing it raises otherwise.
   */
  lemma NextFrameOfHead(flavor: Flavor, p: Parser, hs: seq<Header>)
    requires p.open && ValidBoundary(p.boundary) && ValidHeaders(hs)
    requires IsAt(p.data, p.pos, PartHead(p.boundary, hs))
    ensures NextFrame(flavor, p) == FrameFor(flavor, hs, p.pos + |PartHead(p.boundary, hs)|)
  {
    hide *;
    PartHeadSplit(p.boundary, hs);
    var b := AsciiBytes(p.boundary);
    var block := HeaderBlock(hs);
    var afterBoundary := p.pos + |b| + 2;
    IsAtConcat(p.data, p.pos, Blanks(0) + b + CRLF, block);
    SkipBoundaryFinds(p.boundary, p.data, p.pos, 0, false);
    ReadHeaderBlock(p.data, afterBoundary, hs, false);
    NextFrameAfterHeaders(flavor, p, afterBoundary, hs, afterBoundary + |block|);
  }

  /** Draining a frame whose limit is the length of the bytes at the cursor yields exactly those bytes. */
  lemma DrainPayload(p: Parser, payload: seq<byte>)
    requires IsAt(p.data, p.pos, payload)
    ensures p.pos <= |p.data|
    ensures Drain(p, Frame(|payload|, 0, false)) == Chunk(payload, p.(pos := p.pos + |payload|), Frame(|payload|, |payload|, false))
  {
    IsAtSlice(p.data, p.pos, payload);
  }

  /** A well-formed part is its head followed by its payload. */
  lemma PartSplit(boundary: string, ps: PartSpec)
    requires ValidBoundary(boundary) && WellFormedPart(ps)
    ensures ValidHeaders(ps.headers)
    ensures Part(boundary, ps) == PartHead(boundary, ps.headers) + ps.payload
  {
  }

  /** A well-formed part announces the length of its payload. */
  lemma FrameForPart(flavor: Flavor, ps: PartSpec, end: nat)
    requires WellFormedPart(ps)
    ensures FrameFor(flavor, ps.headers, end) == Done(Frame(|ps.payload|, 0, false), end)
  {
    ParseIntOfIntToString(|ps.payload|);
  }

  /** A reader positioned at a well-formed part returns a frame over exactly that part's payload. */
  lemma NextFrameOfPart(flavor: Flavor, p: Parser, ps: PartSpec)
    requires p.open && ValidBoundary(p.boundary) && WellFormedPart(ps)
    requires IsAt(p.data, p.pos, Part(p.boundary, ps))
    ensures var start := p.pos + |PartHead(p.boundary, ps.headers)|;
      && NextFrame(flavor, p) == Done(Frame(|ps.payload|, 0, false), start)
      && IsAt(p.data, start, ps.payload)
  {
    hide *;
    PartSplit(p.boundary, ps);
    var head := PartHead(p.boundary, ps.headers);
    IsAtConcat(p.data, p.pos, head, ps.payload);
    NextFrameOfHead(flavor, p, ps.headers);
    FrameForPart(flavor, ps, p.pos + |head|);
  }

  /**
   * A part read and drained: `nextFrame()` returns a frame over the payload, draining it yields
   * exactly the payload, and the reader ends just past the part, where the next part begins.
   */
  lemma ReadPart(flavor: Flavor, p: Parser, ps: PartSpec)
    requires p.open && ValidBoundary(p.boundary) && WellFormedPart(ps)
    requires IsAt(p.data, p.pos, Part(p.boundary, ps))
    ensures var start := p.pos + |PartHead(p.boundary, ps.headers)|;
      var f := Frame(|ps.payload|, 0, false);
      && NextFrame(flavor, p) == Done(f, start)
      && Drain(p.(pos := start), f)
         == Chunk(ps.payload, p.(pos := p.pos + |Part(p.boundary, ps)|), f.(count := |ps.payload|))
  {
    hide *;
    PartSplit(p.boundary, ps);
    var start := p.pos + |PartHead(p.boundary, ps.headers)|;
    NextFrameOfPart(flavor, p, ps);
    DrainPayload(p.(pos := start), ps.payload);
  }

  /** Every part is well formed, stated one part at a time. */
  predicate WellFormedParts(parts: seq<PartSpec>) {
    |parts| == 0 || (WellFormedPart(parts[0]) && WellFormedParts(parts[1..]))
  }

  /** The bytes of consecutive parts. */
  function Parts(boundary: string, parts: seq<PartSpec>): seq<byte>
    requires ValidBoundary(boundary) && WellFormedParts(parts)
  {
    if |parts| == 0 then [] else Part(boundary, parts[0]) + Parts(boundary, parts[1..])
  }

  /** The payloads of the parts, in order. */
  function Payloads(parts: seq<PartSpec>): (r: seq<seq<byte>>)
    ensures |r| == |parts|
  {
    if |parts| == 0 then [] else [parts[0].payload] + Payloads(parts[1..])
  }

  /** `k` times: take the next frame and read it to its end, as a client of the live preview does. */
  function ReadFrames(flavor: Flavor, p: Parser, k: nat): Step<seq<seq<byte>>>
    decreases k
  {
    if k == 0 then Done([], p.pos)
    else
      match NextFrame(flavor, p)
      case Done(f, next) =>
        var c := Drain(p.(pos := next), f);
        (match ReadFrames(flavor, c.parser, k - 1)
         case Done(more, after) => Done([c.bytes] + more, after)
         case Raise(e) => Raise(e)
         case Hang => Hang)
      case Raise(e) => Raise(e)
      case Hang => Hang
  }

  /** The first of several parts, taken apart: a well-formed part, then the rest from just past it. */
  lemma PartsCons(boundary: string, parts: seq<PartSpec>)
    requires ValidBoundary(boundary) && WellFormedParts(parts) && |parts| > 0
    ensures WellFormedPart(parts[0]) && WellFormedParts(parts[1..])
    ensures Parts(boundary, parts) == Part(boundary, parts[0]) + Parts(boundary, parts[1..])
    ensures Payloads(parts) == [parts[0].payload] + Payloads(parts[1..])
  {
  }

  /** No parts: nothing is read and the reader stays put. */
  lemma NoParts(flavor: Flavor, p: Parser, parts: seq<PartSpec>)
    requires ValidBoundary(p.boundary) && |parts| == 0
    ensures WellFormedParts(parts)
    ensures Parts(p.boundary, parts) == [] && Payloads(parts) == []
    ensures ReadFrames(flavor, p, 0) == Done([], p.pos)
  {
  }

  /** `ReadFrames` once more than a run that returned: the frame read first goes in front. */
  lemma ReadFramesCons(flavor: Flavor, p: Parser, k: nat, f: Frame, next: nat, c: Chunk, more: seq<seq<byte>>, after: nat)
    requires k > 0 && NextFrame(flavor, p) == Done(f, next)
    requires Drain(p.(pos := next), f) == c
    requires ReadFrames(flavor, c.parser, k - 1) == Done(more, after)
    ensures ReadFrames(flavor, p, k) == Done([c.bytes] + more, after)
  {
  }

  /** Back-to-back parts read one after another yield each payload, in order, and end just past the last. */
  lemma {:induction false} BackToBack(flavor: Flavor, p: Parser, parts: seq<PartSpec>)
    requires p.open && ValidBoundary(p.boundary) && WellFormedParts(parts)
    requires IsAt(p.data, p.pos, Parts(p.boundary, parts))
    ensures ReadFrames(flavor, p, |parts|) == Done(Payloads(parts), p.pos + |Parts(p.boundary, parts)|)
    decreases |parts|
  {
    hide *;
    if |parts| == 0 {
      NoParts(flavor, p, parts);
    } else {
      var ps := parts[0];
      PartsCons(p.boundary, parts);
      PartSplit(p.boundary, ps);
      var part := Part(p.boundary, ps);
      var rest := Parts(p.boundary, parts[1..]);
      IsAtConcat(p.data, p.pos, part, rest);
      ReadPart(flavor, p, ps);
      var q := p.(pos := p.pos + |part|);
      BackToBack(flavor, q, parts[1..]);
      var start := p.pos + |PartHead(p.boundary, ps.headers)|;
      var f := Frame(|ps.payload|, 0, false);
      var c := Chunk(ps.payload, q, f.(count := |ps.payload|));
      ReadFramesCons(flavor, p, |parts|, f, start, c, Payloads(parts[1..]), q.pos + |rest|);
    }
  }

  /** A reader whose search for the boundary line fails: `nextFrame()` raises what the search raised. */
  lemma NextFrameSkipFails(flavor: Flavor, p: Parser, e: Exception)
    requires p.open && SkipBoundary(p.boundary, p.data, p.pos, false) == Raise(e)
    ensures NextFrame(flavor, p) == Raise(e)
  {
  }

  /** A frame left unread: the next `nextFrame()` reads the payload as lines and fails. */
  lemma UnreadFrameBreaksNext(flavor: Flavor, p: Parser, ps: PartSpec, line: seq<byte>, rest: seq<byte>)
    requires p.open && ValidBoundary(p.boundary) && WellFormedPart(ps)
    requires IsAt(p.data, p.pos, Part(p.boundary, ps))
    requires line != [] && Free(line, CR) && Free(line, LF) && LineText(line) != p.boundary
    requires ps.payload == line + CRLF + rest
    ensures NextFrame(flavor, p).Done?
    ensures NextFrame(flavor, p.(pos := NextFrame(flavor, p).next)) == Raise(IO(UnexpectedLine))
  {
    hide *;
    NextFrameOfPart(flavor, p, ps);
    PartSplit(p.boundary, ps);
    var start := p.pos + |PartHead(p.boundary, ps.headers)|;
    IsAtConcat(p.data, start, line + CRLF, rest);
    assert Blanks(0) + line + CRLF == line + CRLF;
    SkipBoundaryRejects(p.boundary, p.data, start, 0, line, false);
    NextFrameSkipFails(flavor, p.(pos := start), IO(UnexpectedLine));
  }

  /** A negative `Content-Length` passes `parseInt`, and under commons-io's convention the frame has no limit. */
  lemma NegativeLengthIsUnbounded(flavor: Flavor, p: Parser, n: int)
    requires IsInt32(n) && n < 0 && p.pos <= |p.data|
    ensures ContentLength(flavor, [Header(ContentLengthName, IntToString(n))]) == Success(n)
    ensures Remaining(p, Frame(n, 0, false)) == |p.data| - p.pos
  {
    EqualsIgnoreCaseRefl(ContentLengthName);
    ParseIntOfIntToString(n);
  }

  /** A header block without `Content-Length`: Java raises `NumberFormatException`, Kotlin `NullPointerException`. */
  lemma MissingLengthDiffers(p: Parser, hs: seq<Header>)
    requires p.open && ValidBoundary(p.boundary) && ValidHeaders(hs)
    requires Lookup(hs, ContentLengthName).None?
    requires IsAt(p.data, p.pos, PartHead(p.boundary, hs))
    ensures NextFrame(Java, p) == Raise(NumberFormat)
    ensures NextFrame(Kotlin, p) == Raise(NullPointer)
  {
    NextFrameOfHead(Java, p, hs);
    NextFrameOfHead(Kotlin, p, hs);
  }
}
