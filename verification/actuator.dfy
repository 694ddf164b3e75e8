/** The actuator bridge of control.py: `RoverController.send_bbox` and `stop`
    write one text line per box to the rover controller's standard input and
    read status lines back from its standard output. The two pipes are
    modelled as a log of written lines and a queue of lines the peer has
    printed and the bridge has not read yet; the peer fills that queue on its
    own schedule, so a reply need not answer the request just sent. */
module Actuator {
  import opened Wrappers

  /** A box `(x, y, w, h)` as the tracker yields it. */
  type Box4 = (int, int, int, int)

  /** The line sent for "no target". */
  const StopLine: string := "0 0 0 0\n"
  /** What `send_bbox(None)` returns without consulting the peer. */
  const StopReply: string := "STOP"

  // ---------------------------------------------------------------------
  // Characters
  // ---------------------------------------------------------------------

  /** Python's `str.isspace`, which `str.strip()` removes. */
  predicate IsSpace(c: char)
  {
    var k := c as int;
    (0x09 <= k <= 0x0D) || (0x1C <= k <= 0x20) || k == 0x85 || k == 0xA0 || k == 0x1680 ||
    (0x2000 <= k <= 0x200A) || k == 0x2028 || k == 0x2029 || k == 0x202F || k == 0x205F || k == 0x3000
  }

  /** C's `isspace` in the default locale, which `std::cin >>` skips between fields. */
  predicate IsFieldSeparator(c: char)
  {
    c == ' ' || c == '\t' || c == '\n' || c == '\r' || c as int == 0x0B || c as int == 0x0C
  }

  predicate IsDigit(c: char)
  {
    '0' <= c <= '9'
  }

  predicate AllSpace(s: string)
  {
    forall i :: 0 <= i < |s| ==> IsSpace(s[i])
  }

  predicate AllDigits(s: string)
  {
    forall i :: 0 <= i < |s| ==> IsDigit(s[i])
  }

  /** `s` is one text line: it ends with its only newline. */
  predicate OneLine(s: string)
  {
    |s| > 0 && s[|s| - 1] == '\n' && forall i :: 0 <= i < |s| - 1 ==> s[i] != '\n'
  }

  // ---------------------------------------------------------------------
  // Decimal fields
  // ---------------------------------------------------------------------

  function DigitChar(d: int): (c: char)
    requires 0 <= d < 10
    ensures IsDigit(c)
  {
    (48 + d) as char
  }

  function DigitValue(c: char): (d: int)
    requires IsDigit(c)
    ensures 0 <= d < 10 && DigitChar(d) == c
  {
    c as int - 48
  }

  /** Decimal digits of a natural number, most significant first, no leading zero. */
  function NatDecimal(n: nat): (s: string)
    ensures |s| > 0 && AllDigits(s)
    ensures |s| > 1 ==> s[0] != '0'
    decreases n
  {
    if n < 10 then [DigitChar(n)] else NatDecimal(n / 10) + [DigitChar(n % 10)]
  }

  /** Python's decimal rendering of an `int`, as `f"{x}"` produces it. */
  function Decimal(n: int): (s: string)
    ensures |s| > 0
    ensures forall i :: 0 <= i < |s| ==> IsDigit(s[i]) || (i == 0 && s[i] == '-')
  {
    if n < 0 then "-" + NatDecimal(-n) else NatDecimal(n)
  }

  function ParseNat(s: string): (n: nat)
    requires |s| > 0 && AllDigits(s)
    decreases |s|
  {
    if |s| == 1 then DigitValue(s[0]) else 10 * ParseNat(s[..|s| - 1]) + DigitValue(s[|s| - 1])
  }

  /** How the peer reads one integer field: an optional minus sign and digits. */
  function ParseInt(s: string): Option<int>
  {
    if |s| > 0 && AllDigits(s) then Some(ParseNat(s))
    else if |s| > 1 && s[0] == '-' && AllDigits(s[1..]) then
      var magnitude: int := ParseNat(s[1..]);
      Some(-magnitude)
    else None
  }

  lemma {:induction false} NatDecimalRoundTrip(n: nat)
    ensures ParseNat(NatDecimal(n)) == n
    decreases n
  {
    if n >= 10 {
      var s := NatDecimal(n);
      assert s[..|s| - 1] == NatDecimal(n / 10);
      NatDecimalRoundTrip(n / 10);
    }
  }

  /** Every integer field reads back as the integer that was written. */
  lemma DecimalRoundTrip(n: int)
    ensures ParseInt(Decimal(n)) == Some(n)
  {
    if n < 0 {
      assert Decimal(n)[1..] == NatDecimal(-n);
      NatDecimalRoundTrip(-n);
    } else {
      NatDecimalRoundTrip(n);
    }
  }

  // ---------------------------------------------------------------------
  // The line format and how the peer splits it
  // ---------------------------------------------------------------------

  /** `f"{x} {y} {w} {h}\n"`. */
  function FormatLine(b: Box4): string
  {
    Decimal(b.0) + " " + Decimal(b.1) + " " + Decimal(b.2) + " " + Decimal(b.3) + "\n"
  }

  /** Length of the leading run of non-separator characters. */
  function TokenLength(s: string): (k: nat)
    ensures k <= |s|
    ensures forall i :: 0 <= i < k ==> !IsFieldSeparator(s[i])
    ensures k < |s| ==> IsFieldSeparator(s[k])
  {
    if s == [] || IsFieldSeparator(s[0]) then 0 else 1 + TokenLength(s[1..])
  }

  /** The whitespace-separated fields of a line, as `std::cin >>` consumes them. */
  function Fields(s: string): seq<string>
    decreases |s|
  {
    if s == [] then []
    else if IsFieldSeparator(s[0]) then Fields(s[1..])
    else
      var k := TokenLength(s);
      [s[..k]] + Fields(s[k..])
  }

  lemma {:induction false} TokenLengthOfField(t: string, rest: string)
    requires forall j :: 0 <= j < |t| ==> !IsFieldSeparator(t[j])
    requires rest == [] || IsFieldSeparator(rest[0])
    ensures TokenLength(t + rest) == |t|
    decreases |t|
  {
    if t != [] {
      assert (t + rest)[1..] == t[1..] + rest;
      TokenLengthOfField(t[1..], rest);
    }
  }

  /** A field followed by a separator or by the end splits off as one field. */
  lemma FieldsOfField(t: string, rest: string)
    requires |t| > 0 && forall j :: 0 <= j < |t| ==> !IsFieldSeparator(t[j])
    requires rest == [] || IsFieldSeparator(rest[0])
    ensures Fields(t + rest) == [t] + Fields(rest)
  {
    TokenLengthOfField(t, rest);
    assert (t + rest)[..|t|] == t && (t + rest)[|t|..] == rest;
  }

  lemma FieldsOfDecimal(n: int, rest: string)
    requires rest == [] || IsFieldSeparator(rest[0])
    ensures Fields(Decimal(n) + rest) == [Decimal(n)] + Fields(rest)
  {
    FieldsOfField(Decimal(n), rest);
  }

  lemma FieldsOfSpacedDecimal(n: int, rest: string)
    requires rest == [] || IsFieldSeparator(rest[0])
    ensures Fields(" " + Decimal(n) + rest) == [Decimal(n)] + Fields(rest)
  {
    var s := " " + Decimal(n) + rest;
    assert s[1..] == Decimal(n) + rest;
    FieldsOfDecimal(n, rest);
  }

  lemma FormatLineShape(b: Box4)
    ensures FormatLine(b) ==
      Decimal(b.0) + (" " + Decimal(b.1) + (" " + Decimal(b.2) + (" " + Decimal(b.3) + "\n")))
  {
  }

  /** The written line splits into exactly the four decimal fields. */
  lemma {:induction false} FormatLineFields(b: Box4)
    ensures Fields(FormatLine(b)) == [Decimal(b.0), Decimal(b.1), Decimal(b.2), Decimal(b.3)]
  {
    var d0, d1, d2, d3 := Decimal(b.0), Decimal(b.1), Decimal(b.2), Decimal(b.3);
    var t3 := " " + d3 + "\n";
    var t2 := " " + d2 + t3;
    var t1 := " " + d1 + t2;
    FormatLineShape(b);
    assert Fields("\n") == [];
    FieldsOfSpacedDecimal(b.3, "\n");
    assert Fields(t3) == [d3];
    FieldsOfSpacedDecimal(b.2, t3);
    assert Fields(t2) == [d2, d3];
    FieldsOfSpacedDecimal(b.1, t2);
    assert Fields(t1) == [d1, d2, d3];
    FieldsOfDecimal(b.0, t1);
  }

  /** What the peer reads from a written line is the box that was sent. */
  lemma FormatLineRoundTrip(b: Box4)
    ensures var fs := Fields(FormatLine(b));
      |fs| == 4 && ParseInt(fs[0]) == Some(b.0) && ParseInt(fs[1]) == Some(b.1) &&
      ParseInt(fs[2]) == Some(b.2) && ParseInt(fs[3]) == Some(b.3)
  {
    FormatLineFields(b);
    DecimalRoundTrip(b.0);
    DecimalRoundTrip(b.1);
    DecimalRoundTrip(b.2);
    DecimalRoundTrip(b.3);
  }

  /** Each send writes exactly one line: one newline, at the end. */
  lemma FormatLineIsOneLine(b: Box4)
    ensures OneLine(FormatLine(b)) && OneLine(StopLine)
  {
    var line := FormatLine(b);
    forall i | 0 <= i < |line| - 1 ensures line[i] != '\n' {
      var d0, d1, d2, d3 := Decimal(b.0), Decimal(b.1), Decimal(b.2), Decimal(b.3);
      assert line == d0 + " " + d1 + " " + d2 + " " + d3 + "\n";
    }
  }

  /** The stop sentinel is the line of the all-zero box. */
  lemma StopLineIsZeroBox()
    ensures StopLine == FormatLine((0, 0, 0, 0))
  {
  }

  // ---------------------------------------------------------------------
  // Reading a reply: str.strip()
  // ---------------------------------------------------------------------

  /** First index at or after `i` that is not whitespace (or `|s|`): the
      forward scan of CPython's `do_strip`. */
  function SpaceEnd(s: string, i: nat): (n: nat)
    requires i <= |s|
    ensures i <= n <= |s| && (n == |s| || !IsSpace(s[n]))
    ensures forall j :: i <= j < n ==> IsSpace(s[j])
    decreases |s| - i
  {
    if i < |s| && IsSpace(s[i]) then SpaceEnd(s, i + 1) else i
  }

  /** Index just past the last non-whitespace character in `s[lo..j]` (or
      `lo`): the backward scan, which stops where the forward one ended. */
  function SpaceStart(s: string, lo: nat, j: nat): (n: nat)
    requires lo <= j <= |s|
    ensures lo <= n <= j && (n == lo || !IsSpace(s[n - 1]))
    ensures forall k :: n <= k < j ==> IsSpace(s[k])
    decreases j
  {
    if lo < j && IsSpace(s[j - 1]) then SpaceStart(s, lo, j - 1) else j
  }

  /** Python's `str.strip()`. */
  function Strip(s: string): string
  {
    var i := SpaceEnd(s, 0);
    s[i..SpaceStart(s, i, |s|)]
  }

  /** `Strip` removes the whitespace at both ends and nothing else: the result
      is a stretch of `s` with only whitespace before and after it, and it
      neither starts nor ends with whitespace. */
  lemma StripRemovesOnlyEdgeSpace(s: string)
    ensures var r := Strip(s);
      r == [] || (!IsSpace(r[0]) && !IsSpace(r[|r| - 1]))
    ensures var r, i := Strip(s), SpaceEnd(s, 0);
      i + |r| <= |s| && r == s[i..i + |r|] && AllSpace(s[..i]) && AllSpace(s[i + |r|..])
  {
    var i := SpaceEnd(s, 0);
    var e := SpaceStart(s, i, |s|);
    var r := s[i..e];
    if r != [] {
      assert r[0] == s[i];
      assert r[|r| - 1] == s[e - 1];
    }
    var head, tail := s[..i], s[e..];
    assert AllSpace(head) by {
      forall j | 0 <= j < |head| ensures IsSpace(head[j]) {
        assert head[j] == s[j];
      }
    }
    assert AllSpace(tail) by {
      forall j | 0 <= j < |tail| ensures IsSpace(tail[j]) {
        assert tail[j] == s[e + j];
      }
    }
  }

  // ---------------------------------------------------------------------
  // The bridge object
  // ---------------------------------------------------------------------

  /** `RoverController` of control.py, with its subprocess reduced to the two pipes. */
  class RoverController {
    /** Every line written to the peer's standard input, oldest first. */
    var written: seq<string>
    /** Lines the peer has printed that have not been read yet, oldest first. */
    var pending: seq<string>
    /** Whether `self.proc` is set. */
    var hasProcess: bool

    /** The peer has just been started and nothing has crossed either pipe. */
    constructor ()
      ensures written == [] && pending == [] && hasProcess
    {
      written := [];
      pending := [];
      hasProcess := true;
    }

    /** The peer prints a line (its start-up banner, or a reply to a box). */
    method PeerPrints(line: string)
      modifies this
      ensures pending == old(pending) + [line]
      ensures written == old(written) && hasProcess == old(hasProcess)
    {
      pending := pending + [line];
    }

    /** `self.proc.stdout.readline()`: the oldest unread line, or the empty
        string at end of stream. */
    method ReadLine() returns (line: string)
      modifies this
      ensures old(pending) == [] ==> line == "" && pending == []
      ensures old(pending) != [] ==> line == old(pending)[0] && pending == old(pending)[1..]
      ensures written == old(written) && hasProcess == old(hasProcess)
    {
      if pending == [] {
        return "";
      }
      line := pending[0];
      pending := pending[1..];
    }

    /** `send_bbox`: writes one line; for no box, the stop sentinel and "STOP"
        without reading; for a box, its four fields and the next unread peer
        line, stripped. */
    method SendBbox(bbox: Option<Box4>) returns (reply: string)
      modifies this
      ensures hasProcess == old(hasProcess)
      ensures bbox.None? ==> written == old(written) + [StopLine] && pending == old(pending) && reply == StopReply
      ensures bbox.Some? ==> written == old(written) + [FormatLine(bbox.value)]
      ensures bbox.Some? && old(pending) == [] ==> reply == "" && pending == []
      ensures bbox.Some? && old(pending) != [] ==> reply == Strip(old(pending)[0]) && pending == old(pending)[1..]
    {
      if bbox.None? {
        written := written + [StopLine];
        return StopReply;
      }
      written := written + [FormatLine(bbox.value)];
      var line := ReadLine();
      reply := Strip(line);
    }

    /** `stop`: the stop sentinel when a process exists; nothing is read. */
    method Stop()
      modifies this
      ensures written == if old(hasProcess) then old(written) + [StopLine] else old(written)
      ensures pending == old(pending) && hasProcess == old(hasProcess)
    {
      if hasProcess {
        written := written + [StopLine];
      }
    }
  }

  /** The first line the rover controller prints, before reading any box. */
  const InitBanner: string := "[INIT] Reference area = 19200"

  lemma StripInitBanner()
    ensures Strip(InitBanner + "\n") == InitBanner
  {
    var line := InitBanner + "\n";
    assert line[0] == '[' && SpaceEnd(line, 0) == 0;
    assert line[|line| - 2] == '0' && SpaceStart(line, 0, |line| - 1) == |line| - 1;
    assert SpaceStart(line, 0, |line|) == |line| - 1;
    assert line[0..|line| - 1] == InitBanner;
  }

  lemma SampleLine()
    ensures FormatLine((10, 20, 30, 40)) == "10 20 30 40\n"
  {
    assert Decimal(10) == "10" && Decimal(20) == "20" && Decimal(30) == "30" && Decimal(40) == "40";
  }

  /** Replies lag behind requests: the peer's start-up banner is the reply to
      the first box, and the reply the peer prints for a stop line is left
      unread for the next box. */
  method ReplyLagExample()
  {
    var link := new RoverController();
    link.PeerPrints(InitBanner + "\n");
    var first := link.SendBbox(None);
    link.PeerPrints("LEFT: 0 | RIGHT: 0\n");
    var second := link.SendBbox(Some((10, 20, 30, 40)));
    assert first == "STOP";
    StripInitBanner();
    assert second == InitBanner;
    assert link.pending == ["LEFT: 0 | RIGHT: 0\n"];
    SampleLine();
    assert link.written == [StopLine, "10 20 30 40\n"];
  }
}
