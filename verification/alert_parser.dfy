/** Parser for Snort `alert_fast` lines (ml_runner/alert_parser.py, `AlertParser`).

    The regular expression `ALERT_PATTERN` is modelled as a scanner: one function per
    piece of the pattern, each consuming a prefix of the text.  Every point where the
    regular expression could backtrack turns out to be decided, up to the `strip()` the
    parser applies to the captured group afterwards:
    - `\s+([^X]+)X` (classification, source and destination address) matches iff the text
      starts with whitespace and the first `X` is at index 2 or later; the stripped group
      is the stripped text before that `X`;
    - `\s+([^\[]+?)\s+\[` (the message) matches iff the text before the first `[` has
      length 3 or more and starts and ends with whitespace; the stripped group is that
      text, stripped. */
module AlertParser {
  import opened Wrappers
  import opened Strings

  /** The `MM/DD-HH:MM:SS.ffffff` timestamp, kept as its digit groups.  Turning it into a
      calendar date needs the current year (and falls back to the current time), so that
      step is left to the caller. */
  datatype Stamp = Stamp(month: string, day: string, hour: string, minute: string,
                         second: string, fraction: string)

  /** `SnortAlert`: one parsed alert.  A `None` port is the `*` wildcard. */
  datatype Alert = Alert(
    timestamp: Stamp,
    priority: nat,
    classification: string,
    message: string,
    protocol: string,
    srcIp: string,
    srcPort: Option<nat>,
    dstIp: string,
    dstPort: Option<nat>,
    sid: nat,
    rev: nat,
    rawAlert: string)

  /** The parser's two counters. */
  datatype ParserState = ParserState(parsedCount: nat, errorCount: nat)

  /** `get_stats()`. */
  datatype ParserStats = ParserStats(parsedCount: nat, errorCount: nat, totalProcessed: nat)

  const InitialParser := ParserState(0, 0)

  // ------------------------------------------------------------------ scanner pieces

  /** A literal. */
  function Lit(s: string, p: string): (r: Option<string>)
    ensures r.Some? <==> StartsWith(s, p)
    ensures r.Some? ==> s == p + r.value
  {
    if StartsWith(s, p) then Some(s[|p|..]) else None
  }

  /** `\s+` */
  function Spaces1(s: string): (r: Option<string>)
    ensures r.Some? ==> |r.value| < |s| && r.value == s[|s| - |r.value|..]
    ensures r.Some? ==> r.value == [] || !IsSpace(r.value[0])
  {
    var n := LeadingSpaces(s);
    if n == 0 then None else Some(s[n..])
  }

  /** Length of the run of digits that starts `s`. */
  function DigitRun(s: string): (n: nat)
    ensures n <= |s| && AllDigits(s[..n])
    ensures n == |s| || !IsDigit(s[n])
    decreases |s|
  {
    if |s| > 0 && IsDigit(s[0]) then
      var n := 1 + DigitRun(s[1..]);
      assert s[..n] == [s[0]] + s[1..][..n - 1];
      n
    else 0
  }

  /** `(\d+)`, read as a number. */
  function Number(s: string): (r: Option<(nat, string)>)
    ensures r.Some? ==> |r.value.1| < |s|
  {
    var n := DigitRun(s);
    if n == 0 then None else Some((DecimalValue(s[..n]), s[n..]))
  }

  /** `(\d{2})` */
  function TwoDigits(s: string): (r: Option<(string, string)>)
    ensures r.Some? ==> |r.value.0| == 2 && AllDigits(r.value.0) && s == r.value.0 + r.value.1
  {
    if |s| >= 2 && IsDigit(s[0]) && IsDigit(s[1]) then Some((s[..2], s[2..])) else None
  }

  /** `(\d+)`, kept as text. */
  function DigitText(s: string): (r: Option<(string, string)>)
    ensures r.Some? ==> |r.value.0| >= 1 && AllDigits(r.value.0) && s == r.value.0 + r.value.1
  {
    var n := DigitRun(s);
    if n == 0 then None else Some((s[..n], s[n..]))
  }

  /** `\s+([^X]+)X`, the group stripped; the rest follows the `X`. */
  function PaddedField(s: string, stop: char): (r: Option<(string, string)>)
    ensures r.Some? ==> Stripped(r.value.0) && Free(r.value.0, stop)
    ensures r.Some? ==> |r.value.1| < |s|
  {
    var j := IndexOf(s, stop);
    if j < |s| && j >= 2 && IsSpace(s[0]) then
      StripIsStripped(s[..j]);
      Some((Strip(s[..j]), s[j + 1..]))
    else None
  }

  /** `\s+([^\[]+?)\s+` up to the first `[`, the group stripped; the rest starts at the `[`. */
  function MessageField(s: string): (r: Option<(string, string)>)
    ensures r.Some? ==> Stripped(r.value.0) && Free(r.value.0, '[')
    ensures r.Some? ==> |r.value.1| < |s|
  {
    var k := IndexOf(s, '[');
    if k < |s| && k >= 3 && IsSpace(s[0]) && IsSpace(s[k - 1]) then
      StripIsStripped(s[..k]);
      Some((Strip(s[..k]), s[k..]))
    else None
  }

  /** `([^}]+)\}` */
  function BraceGroup(s: string): (r: Option<(string, string)>)
    ensures r.Some? ==> |r.value.0| >= 1 && Free(r.value.0, '}')
  {
    var j := IndexOf(s, '}');
    if j < |s| && j >= 1 then Some((s[..j], s[j + 1..])) else None
  }

  /** `(\d+|\*)`: a port number, or `*` for none. */
  function PortToken(s: string): (r: Option<(Option<nat>, string)>)
    ensures r.Some? && r.value.0.None? ==> StartsWith(s, "*")
    ensures r.Some? && r.value.0.Some? ==> |s| > 0 && IsDigit(s[0])
  {
    if |s| > 0 && IsDigit(s[0]) then
      var n := DigitRun(s);
      Some((Some(DecimalValue(s[..n])), s[n..]))
    else if |s| > 0 && s[0] == '*' then Some((None, s[1..]))
    else None
  }

  // ------------------------------------------------------------------ the pattern in three stages

  /** Timestamp, `[**]` and `[gid:sid:rev]`. */
  datatype Head = Head(stamp: Stamp, gid: nat, sid: nat, rev: nat)

  /** Message, classification, priority and `{protocol}` (the protocol as written). */
  datatype Middle = Middle(message: string, classification: string, priority: nat, protocol: string)

  /** Source and destination endpoints. */
  datatype Tail = Tail(srcIp: string, srcPort: Option<nat>, dstIp: string, dstPort: Option<nat>)

  /** Two digits followed by a literal separator. */
  function TwoDigitsThen(s: string, sep: string): (r: Option<(string, string)>)
    ensures r.Some? ==> |r.value.0| == 2 && AllDigits(r.value.0)
  {
    var d :- TwoDigits(s);
    var rest :- Lit(d.1, sep);
    Some((d.0, rest))
  }

  /** A number followed by a literal. */
  function NumberThen(s: string, p: string): Option<(nat, string)> {
    var n :- Number(s);
    var rest :- Lit(n.1, p);
    Some((n.0, rest))
  }

  /** Whitespace followed by a literal. */
  function SpacedLit(s: string, p: string): Option<string> {
    var r :- Spaces1(s);
    Lit(r, p)
  }

  function MatchStamp(s: string): Option<(Stamp, string)> {
    var mo :- TwoDigitsThen(s, "/");
    var dd :- TwoDigitsThen(mo.1, "-");
    var hh :- TwoDigitsThen(dd.1, ":");
    var mi :- TwoDigitsThen(hh.1, ":");
    var ss :- TwoDigitsThen(mi.1, ".");
    var fr :- DigitText(ss.1);
    Some((Stamp(mo.0, dd.0, hh.0, mi.0, ss.0, fr.0), fr.1))
  }

  function MatchHead(s: string): Option<(Head, string)> {
    var ts :- MatchStamp(s);
    var r1 :- SpacedLit(ts.1, "[**]");
    var r2 :- SpacedLit(r1, "[");
    var gid :- NumberThen(r2, ":");
    var sid :- NumberThen(gid.1, ":");
    var rev :- NumberThen(sid.1, "]");
    Some((Head(ts.0, gid.0, sid.0, rev.0), rev.1))
  }

  /** Message, `[**]` and classification. */
  function MatchLabels(s: string): (r: Option<(string, string, string)>)
    ensures r.Some? ==> Stripped(r.value.0) && Stripped(r.value.1)
  {
    var msg :- MessageField(s);
    var r1 :- Lit(msg.1, "[**]");
    var r2 :- SpacedLit(r1, "[Classification:");
    var cls :- PaddedField(r2, ']');
    Some((msg.0, cls.0, cls.1))
  }

  /** Priority and `{protocol}`. */
  function MatchRank(s: string): Option<(nat, string, string)> {
    var r1 :- SpacedLit(s, "[Priority:");
    var r2 :- Spaces1(r1);
    var pri :- NumberThen(r2, "]");
    var r3 :- SpacedLit(pri.1, "{");
    var proto :- BraceGroup(r3);
    Some((pri.0, proto.0, proto.1))
  }

  function MatchMiddle(s: string): (r: Option<(Middle, string)>)
    ensures r.Some? ==> Stripped(r.value.0.message) && Stripped(r.value.0.classification)
  {
    var lb :- MatchLabels(s);
    var rk :- MatchRank(lb.2);
    Some((Middle(lb.0, lb.1, rk.0, rk.1), rk.2))
  }

  /** Anything after the destination port is ignored (the pattern is matched, not
      full-matched). */
  function MatchTail(s: string): (r: Option<Tail>)
    ensures r.Some? ==> Stripped(r.value.srcIp) && Stripped(r.value.dstIp)
  {
    var src :- PaddedField(s, ':');
    var sp :- PortToken(src.1);
    var r1 :- SpacedLit(sp.1, "->");
    var dst :- PaddedField(r1, ':');
    var dp :- PortToken(dst.1);
    Some(Tail(src.0, sp.0, dst.0, dp.0))
  }

  /** `ALERT_PATTERN.match(line)` followed by building the `SnortAlert`. */
  function MatchAlert(line: string): (r: Option<Alert>)
    ensures r.Some? ==> r.value.rawAlert == line
    ensures r.Some? ==> Upper(r.value.protocol) == r.value.protocol
    ensures r.Some? ==> Stripped(r.value.message) && Stripped(r.value.classification)
    ensures r.Some? ==> Stripped(r.value.srcIp) && Stripped(r.value.dstIp)
  {
    var h :- MatchHead(line);
    var m :- MatchMiddle(h.1);
    var t :- MatchTail(m.1);
    UpperIdempotent(m.0.protocol);
    Some(Alert(h.0.stamp, m.0.priority, m.0.classification, m.0.message, Upper(m.0.protocol),
               t.srcIp, t.srcPort, t.dstIp, t.dstPort, h.0.sid, h.0.rev, line))
  }

  lemma UpperIdempotent(s: string)
    ensures Upper(Upper(s)) == Upper(s)
  {
  }

  // ------------------------------------------------------------------ parse_alert

  /** `parse_alert`: strip the line; a blank line is skipped without counting, a line the
      pattern rejects counts as an error, and a parsed line counts as parsed. */
  function ParseAlert(st: ParserState, line: string): (r: (Option<Alert>, ParserState))
    ensures Strip(line) == [] ==> r == (None, st)
    ensures Strip(line) != [] && MatchAlert(Strip(line)).None? ==>
              r.0.None? && r.1 == st.(errorCount := st.errorCount + 1)
    ensures Strip(line) != [] && MatchAlert(Strip(line)).Some? ==>
              r == (MatchAlert(Strip(line)), st.(parsedCount := st.parsedCount + 1))
    ensures r.0.Some? ==>
              r.1 == st.(parsedCount := st.parsedCount + 1)
              && r.0.value.rawAlert == Strip(line) && r.0.value.rawAlert != []
  {
    var stripped := Strip(line);
    if stripped == [] then (None, st)
    else
      match MatchAlert(stripped)
      case None => (None, st.(errorCount := st.errorCount + 1))
      case Some(a) => (Some(a), st.(parsedCount := st.parsedCount + 1))
  }

  /** `get_stats`. */
  function GetStats(st: ParserState): (r: ParserStats)
    ensures r.totalProcessed == r.parsedCount + r.errorCount
    ensures r.parsedCount == st.parsedCount && r.errorCount == st.errorCount
  {
    ParserStats(st.parsedCount, st.errorCount, st.parsedCount + st.errorCount)
  }

  /** What the statistics count: every line handed to `parse_alert` that is
      not blank adds one to the total, and a returned alert one to the parsed
      count. */
  lemma StatsCountLine(st: ParserState, line: string)
    ensures GetStats(ParseAlert(st, line).1).totalProcessed
              == GetStats(st).totalProcessed + (if Strip(line) == [] then 0 else 1)
    ensures GetStats(ParseAlert(st, line).1).parsedCount
              == GetStats(st).parsedCount + (if ParseAlert(st, line).0.Some? then 1 else 0)
  {
  }

  // ------------------------------------------------------------------ parse_alerts_batch

  /** The alert a single line yields, independent of the counters. */
  function LineAlert(line: string): Option<Alert> {
    if Strip(line) == [] then None else MatchAlert(Strip(line))
  }

  /** Reference for the batch: the alerts of the lines that parse, in line order. */
  function ParsedAlerts(lines: seq<string>): seq<Alert>
    decreases |lines|
  {
    if |lines| == 0 then []
    else
      var init := ParsedAlerts(lines[..|lines| - 1]);
      match LineAlert(lines[|lines| - 1])
      case Some(a) => init + [a]
      case None => init
  }

  /** Number of non-blank lines the pattern rejects. */
  function Malformed(lines: seq<string>): nat
    decreases |lines|
  {
    if |lines| == 0 then 0
    else
      var last := lines[|lines| - 1];
      Malformed(lines[..|lines| - 1])
        + (if Strip(last) != [] && MatchAlert(Strip(last)).None? then 1 else 0)
  }

  /** Number of blank lines. */
  function Blank(lines: seq<string>): nat
    decreases |lines|
  {
    if |lines| == 0 then 0
    else Blank(lines[..|lines| - 1]) + (if Strip(lines[|lines| - 1]) == [] then 1 else 0)
  }

  lemma {:induction false} LinesPartition(lines: seq<string>)
    ensures |ParsedAlerts(lines)| + Malformed(lines) + Blank(lines) == |lines|
    decreases |lines|
  {
    if |lines| > 0 {
      LinesPartition(lines[..|lines| - 1]);
    }
  }

  /** `parse_alerts_batch`: the parsed alerts in input order; every non-blank line is
      counted exactly once, as parsed or as an error. */
  method ParseAlertsBatch(st: ParserState, lines: seq<string>) returns (alerts: seq<Alert>, st': ParserState)
    ensures alerts == ParsedAlerts(lines)
    ensures |alerts| <= |lines|
    ensures st'.parsedCount == st.parsedCount + |alerts|
    ensures st'.errorCount == st.errorCount + Malformed(lines)
    ensures (st'.parsedCount + st'.errorCount) - (st.parsedCount + st.errorCount) == |lines| - Blank(lines)
    ensures GetStats(st').totalProcessed == GetStats(st).totalProcessed + |lines| - Blank(lines)
  {
    alerts := [];
    st' := st;
    var i := 0;
    while i < |lines|
      invariant 0 <= i <= |lines|
      invariant alerts == ParsedAlerts(lines[..i])
      invariant st'.parsedCount == st.parsedCount + |alerts|
      invariant st'.errorCount == st.errorCount + Malformed(lines[..i])
    {
      assert lines[..i + 1][..i] == lines[..i];
      var r := ParseAlert(st', lines[i]);
      if r.0.Some? {
        alerts := alerts + [r.0.value];
      }
      st' := r.1;
      i := i + 1;
    }
    assert lines[..i] == lines;
    LinesPartition(lines);
  }

  // ------------------------------------------------------------------ rendering and round trip

  /** A port as `alert_fast` prints it. */
  function PortText(p: Option<nat>): string {
    if p.None? then "*" else NatToString(p.value)
  }

  // The printers below put their text in front of `rest`, piece by piece in the order
  // the scanner reads it back, so that no reassociation of `+` is needed.

  /** `MM/DD-HH:MM:SS.ffffff` */
  function StampOnto(t: Stamp, rest: string): (r: string)
    ensures EndsWith(r, rest) && |r| > |rest|
  {
    t.month + ("/" + (t.day + ("-" + (t.hour + (":" + (t.minute + (":" + (t.second + ("." + (t.fraction + rest))))))))))
  }

  /** `<stamp>  [**] [gid:sid:rev]` */
  function HeadOnto(t: Stamp, gid: nat, sid: nat, rev: nat, rest: string): (r: string)
    ensures EndsWith(r, rest) && |r| > |rest|
  {
    StampOnto(t, "  " + ("[**]" + (" " + ("[" + (NatToString(gid) + (":" + (NatToString(sid) + (":" + (NatToString(rev) + ("]" + rest))))))))))
  }

  /** ` <message> [**] [Classification: <classification>]` */
  function LabelsOnto(m: string, c: string, rest: string): (r: string)
    ensures EndsWith(r, rest) && |r| > |rest|
  {
    " " + (m + (" " + ("[**]" + (" " + ("[Classification:" + (" " + (c + ("]" + rest))))))))
  }

  /** ` [Priority: <priority>] {<protocol>}` */
  function RankOnto(pri: nat, p: string, rest: string): (r: string)
    ensures EndsWith(r, rest) && |r| > |rest|
  {
    " " + ("[Priority:" + (" " + (NatToString(pri) + ("]" + (" " + ("{" + (p + ("}" + rest))))))))
  }

  /** ` <src>:<port> -> <dst>:<port>` */
  function TailText(a: Alert): (r: string)
    ensures EndsWith(r, PortText(a.dstPort))
  {
    " " + (a.srcIp + (":" + (PortText(a.srcPort) + (" " + ("->" + (" " + (a.dstIp + (":" + PortText(a.dstPort)))))))))
  }

  /** The `alert_fast` line Snort writes for an alert with generator id `gid`. */
  function AlertLine(a: Alert, gid: nat): string {
    HeadOnto(a.timestamp, gid, a.sid, a.rev,
      LabelsOnto(a.message, a.classification, RankOnto(a.priority, a.protocol, TailText(a))))
  }

  predicate WellFormedStamp(t: Stamp) {
    && |t.month| == 2 && AllDigits(t.month)
    && |t.day| == 2 && AllDigits(t.day)
    && |t.hour| == 2 && AllDigits(t.hour)
    && |t.minute| == 2 && AllDigits(t.minute)
    && |t.second| == 2 && AllDigits(t.second)
    && |t.fraction| >= 1 && AllDigits(t.fraction)
  }

  /** The alerts Snort can print so that they read back unchanged. */
  predicate Printable(a: Alert) {
    && WellFormedStamp(a.timestamp)
    && a.message != [] && Stripped(a.message) && Free(a.message, '[')
    && a.classification != [] && Stripped(a.classification) && Free(a.classification, ']')
    && a.protocol != [] && Free(a.protocol, '}') && Upper(a.protocol) == a.protocol
    && a.srcIp != [] && Stripped(a.srcIp) && Free(a.srcIp, ':')
    && a.dstIp != [] && Stripped(a.dstIp) && Free(a.dstIp, ':')
  }

  lemma LitPrefix(p: string, rest: string)
    ensures Lit(p + rest, p) == Some(rest)
  {
    assert (p + rest)[..|p|] == p;
    assert (p + rest)[|p|..] == rest;
  }

  lemma SpacedLitPrefix(w: string, p: string, rest: string)
    requires w == " " || w == "  "
    requires p != [] && !IsSpace(p[0])
    ensures SpacedLit(w + (p + rest), p) == Some(rest)
  {
    var s := w + (p + rest);
    LeadingSpacesPrefix(w, p + rest);
    assert (p + rest)[0] == p[0];
    assert LeadingSpaces(p + rest) == 0;
    assert s[|w|..] == p + rest;
    LitPrefix(p, rest);
  }

  lemma SpacePrefix(rest: string)
    requires rest == [] || !IsSpace(rest[0])
    ensures Spaces1(" " + rest) == Some(rest)
  {
    LeadingSpacesPrefix(" ", rest);
    assert LeadingSpaces(rest) == 0;
    assert (" " + rest)[1..] == rest;
  }

  lemma {:induction false} DigitRunPrefix(d: string, rest: string)
    requires AllDigits(d)
    requires rest == [] || !IsDigit(rest[0])
    ensures DigitRun(d + rest) == |d|
    decreases |d|
  {
    if |d| > 0 {
      assert (d + rest)[1..] == d[1..] + rest;
      DigitRunPrefix(d[1..], rest);
    } else {
      assert d + rest == rest;
    }
  }

  lemma NumberThenPrefix(n: nat, p: string, rest: string)
    requires p != [] && !IsDigit(p[0])
    ensures NumberThen(NatToString(n) + (p + rest), p) == Some((n, rest))
  {
    var d := NatToString(n);
    var s := d + (p + rest);
    assert (p + rest)[0] == p[0];
    DigitRunPrefix(d, p + rest);
    assert s[..|d|] == d;
    assert s[|d|..] == p + rest;
    LitPrefix(p, rest);
  }

  lemma TwoDigitsThenPrefix(d: string, sep: string, rest: string)
    requires |d| == 2 && AllDigits(d)
    ensures TwoDigitsThen(d + (sep + rest), sep) == Some((d, rest))
  {
    var s := d + (sep + rest);
    assert s[..2] == d;
    assert s[2..] == sep + rest;
    LitPrefix(sep, rest);
  }

  lemma DigitTextPrefix(d: string, rest: string)
    requires |d| >= 1 && AllDigits(d)
    requires rest == [] || !IsDigit(rest[0])
    ensures DigitText(d + rest) == Some((d, rest))
  {
    DigitRunPrefix(d, rest);
    assert (d + rest)[..|d|] == d;
    assert (d + rest)[|d|..] == rest;
  }

  lemma PortPrefix(p: Option<nat>, rest: string)
    requires rest == [] || !IsDigit(rest[0])
    ensures PortToken(PortText(p) + rest) == Some((p, rest))
  {
    if p.Some? {
      var d := NatToString(p.value);
      DigitRunPrefix(d, rest);
      assert (d + rest)[0] == d[0];
      assert (d + rest)[..|d|] == d;
      assert (d + rest)[|d|..] == rest;
    } else {
      assert ("*" + rest)[1..] == rest;
    }
  }

  lemma PaddedPrefix(v: string, stop: char, rest: string)
    requires v != [] && Stripped(v) && Free(v, stop) && !IsSpace(stop)
    ensures PaddedField(" " + (v + ([stop] + rest)), stop) == Some((v, rest))
  {
    var s := " " + (v + ([stop] + rest));
    assert s == (" " + v) + [stop] + rest;
    IndexOfAfterFree(" " + v, stop, rest);
    assert s[..1 + |v|] == " " + v;
    assert s[1 + |v| + 1..] == rest;
    StripExact(" ", v, []);
    assert " " + v + [] == " " + v;
  }

  lemma MessagePrefix(m: string, rest: string)
    requires m != [] && Stripped(m) && Free(m, '[')
    requires |rest| > 0 && rest[0] == '['
    ensures MessageField(" " + (m + (" " + rest))) == Some((m, rest))
  {
    var s := " " + (m + (" " + rest));
    assert s == (" " + m + " ") + ['['] + rest[1..];
    IndexOfAfterFree(" " + m + " ", '[', rest[1..]);
    assert s[..|m| + 2] == " " + m + " ";
    assert s[|m| + 2..] == rest;
    StripExact(" ", m, " ");
  }

  lemma BracePrefix(p: string, rest: string)
    requires p != [] && Free(p, '}')
    ensures BraceGroup(p + ("}" + rest)) == Some((p, rest))
  {
    assert p + ("}" + rest) == p + "}" + rest;
    IndexOfAfterFree(p, '}', rest);
    assert (p + "}" + rest)[..|p|] == p;
    assert (p + "}" + rest)[|p| + 1..] == rest;
  }

  lemma StampPrefix(t: Stamp, rest: string)
    requires WellFormedStamp(t)
    requires rest == [] || !IsDigit(rest[0])
    ensures MatchStamp(StampOnto(t, rest)) == Some((t, rest))
  {
    var s5 := t.fraction + rest;
    DigitTextPrefix(t.fraction, rest);
    var s4 := t.second + ("." + s5);
    TwoDigitsThenPrefix(t.second, ".", s5);
    var s3 := t.minute + (":" + s4);
    TwoDigitsThenPrefix(t.minute, ":", s4);
    var s2 := t.hour + (":" + s3);
    TwoDigitsThenPrefix(t.hour, ":", s3);
    var s1 := t.day + ("-" + s2);
    TwoDigitsThenPrefix(t.day, "-", s2);
    TwoDigitsThenPrefix(t.month, "/", s1);
  }

  lemma HeadPrefix(t: Stamp, gid: nat, sid: nat, rev: nat, rest: string)
    requires WellFormedStamp(t)
    ensures MatchHead(HeadOnto(t, gid, sid, rev, rest)) == Some((Head(t, gid, sid, rev), rest))
  {
    var a3 := NatToString(rev) + ("]" + rest);
    NumberThenPrefix(rev, "]", rest);
    var a2 := NatToString(sid) + (":" + a3);
    NumberThenPrefix(sid, ":", a3);
    var a1 := NatToString(gid) + (":" + a2);
    NumberThenPrefix(gid, ":", a2);
    var b2 := " " + ("[" + a1);
    SpacedLitPrefix(" ", "[", a1);
    var b1 := "  " + ("[**]" + b2);
    SpacedLitPrefix("  ", "[**]", b2);
    StampPrefix(t, b1);
  }

  lemma LabelsPrefix(m: string, c: string, rest: string)
    requires m != [] && Stripped(m) && Free(m, '[')
    requires c != [] && Stripped(c) && Free(c, ']')
    ensures MatchLabels(LabelsOnto(m, c, rest)) == Some((m, c, rest))
  {
    PaddedPrefix(c, ']', rest);
    var c1 := " " + (c + ("]" + rest));
    var d2 := " " + ("[Classification:" + c1);
    SpacedLitPrefix(" ", "[Classification:", c1);
    var d1 := "[**]" + d2;
    LitPrefix("[**]", d2);
    MessagePrefix(m, d1);
  }

  /** The part of `MatchRank` after the priority's leading space. */
  lemma RankNumberPrefix(pri: nat, p: string, rest: string)
    requires p != [] && Free(p, '}')
    ensures var c8 := " " + ("{" + (p + ("}" + rest)));
            && NumberThen(NatToString(pri) + ("]" + c8), "]") == Some((pri, c8))
            && SpacedLit(c8, "{") == Some(p + ("}" + rest))
            && BraceGroup(p + ("}" + rest)) == Some((p, rest))
  {
    var c9 := p + ("}" + rest);
    BracePrefix(p, rest);
    var c8 := " " + ("{" + c9);
    SpacedLitPrefix(" ", "{", c9);
    NumberThenPrefix(pri, "]", c8);
  }

  lemma RankPrefix(pri: nat, p: string, rest: string)
    requires p != [] && Free(p, '}')
    ensures MatchRank(RankOnto(pri, p, rest)) == Some((pri, p, rest))
  {
    var c8 := " " + ("{" + (p + ("}" + rest)));
    var c6 := NatToString(pri) + ("]" + c8);
    assert RankOnto(pri, p, rest) == " " + ("[Priority:" + (" " + c6));
    assert SpacedLit(RankOnto(pri, p, rest), "[Priority:") == Some(" " + c6) by {
      SpacedLitPrefix(" ", "[Priority:", " " + c6);
    }
    assert Spaces1(" " + c6) == Some(c6) by {
      assert IsDigit(c6[0]);
      SpacePrefix(c6);
    }
    RankNumberPrefix(pri, p, rest);
  }

  lemma TailRender(a: Alert)
    requires Printable(a)
    ensures MatchTail(TailText(a)) == Some(Tail(a.srcIp, a.srcPort, a.dstIp, a.dstPort))
  {
    var e3 := PortText(a.dstPort);
    PortPrefix(a.dstPort, []);
    assert e3 + [] == e3;
    var e2 := " " + (a.dstIp + (":" + e3));
    PaddedPrefix(a.dstIp, ':', e3);
    var f3 := " " + ("->" + e2);
    SpacedLitPrefix(" ", "->", e2);
    var f2 := PortText(a.srcPort) + f3;
    PortPrefix(a.srcPort, f3);
    PaddedPrefix(a.srcIp, ':', f2);
  }

  /** Reading back a printed alert recovers it: every field, including the stripped
      message, classification and addresses, the upper-case protocol and the `*` ports. */
  lemma {:induction false} ParsePrinted(a: Alert, gid: nat)
    requires Printable(a)
    ensures MatchAlert(AlertLine(a, gid)) == Some(a.(rawAlert := AlertLine(a, gid)))
  {
    var tail := TailText(a);
    var rank := RankOnto(a.priority, a.protocol, tail);
    var mid := LabelsOnto(a.message, a.classification, rank);
    HeadPrefix(a.timestamp, gid, a.sid, a.rev, mid);
    LabelsPrefix(a.message, a.classification, rank);
    RankPrefix(a.priority, a.protocol, tail);
    TailRender(a);
  }

  lemma LastOfSuffix(s: string, p: string)
    requires EndsWith(s, p) && |p| > 0
    ensures |s| > 0 && s[|s| - 1] == p[|p| - 1]
  {
    assert s[|s| - |p|..][|p| - 1] == s[|s| - 1];
  }

  /** The last character of a printed line is the last one of its destination port. */
  lemma PrintedLineEnd(a: Alert, gid: nat)
    ensures var line := AlertLine(a, gid); var p := PortText(a.dstPort);
            |line| > 0 && |p| > 0 && line[|line| - 1] == p[|p| - 1]
  {
    var p := PortText(a.dstPort);
    var tail := TailText(a);
    LastOfSuffix(tail, p);
    var rank := RankOnto(a.priority, a.protocol, tail);
    LastOfSuffix(rank, tail);
    var mid := LabelsOnto(a.message, a.classification, rank);
    LastOfSuffix(mid, rank);
    LastOfSuffix(AlertLine(a, gid), mid);
  }

  /** A printed line starts with a digit and ends with a digit or `*`. */
  lemma PrintedLineStripped(a: Alert, gid: nat)
    requires WellFormedStamp(a.timestamp)
    ensures Stripped(AlertLine(a, gid))
  {
    var line := AlertLine(a, gid);
    PrintedLineEnd(a, gid);
    var p := PortText(a.dstPort);
    assert !IsSpace(p[|p| - 1]);
    assert line[0] == a.timestamp.month[0];
  }

  /** A stripped, non-empty line the pattern accepts is counted as parsed. */
  lemma ParseClean(st: ParserState, line: string, x: Alert)
    requires Strip(line) == line && line != [] && MatchAlert(line) == Some(x)
    ensures ParseAlert(st, line) == (Some(x), st.(parsedCount := st.parsedCount + 1))
  {
  }

  /** `parse_alert` accepts a printed line as it stands (stripping changes nothing) and
      counts it as parsed. */
  lemma ParsePrintedLine(st: ParserState, a: Alert, gid: nat)
    requires Printable(a)
    ensures var line := AlertLine(a, gid);
            ParseAlert(st, line) == (Some(a.(rawAlert := line)), st.(parsedCount := st.parsedCount + 1))
  {
    var line := AlertLine(a, gid);
    PrintedLineStripped(a, gid);
    StripOfStripped(line);
    ParsePrinted(a, gid);
    PrintedLineEnd(a, gid);
    ParseClean(st, line, a.(rawAlert := line));
  }

  /** The alert of the sample line in the runner's own test suite, which reads
      `10/26-11:09:09.414867  [**] [1:1000001:1] SSH Connection Attempt [**]
      [Classification: Attempted Administrator Privilege Gain] [Priority: 1]
      {TCP} 192.168.1.100:22 -> 192.168.1.200:54321` (one line). */
  const SampleAlert := Alert(
    Stamp("10", "26", "11", "09", "09", "414867"), 1,
    "Attempted Administrator Privilege Gain", "SSH Connection Attempt", "TCP",
    "192.168.1.100", Some(22), "192.168.1.200", Some(54321), 1000001, 1, "")

  lemma SampleStamp()
    ensures WellFormedStamp(SampleAlert.timestamp)
  {
  }

  lemma SampleLabels()
    ensures var a := SampleAlert;
            && a.message != [] && Stripped(a.message) && Free(a.message, '[')
            && a.classification != [] && Stripped(a.classification) && Free(a.classification, ']')
  {
  }

  lemma SampleEndpoints()
    ensures var a := SampleAlert;
            && a.protocol != [] && Free(a.protocol, '}') && Upper(a.protocol) == a.protocol
            && a.srcIp != [] && Stripped(a.srcIp) && Free(a.srcIp, ':')
            && a.dstIp != [] && Stripped(a.dstIp) && Free(a.dstIp, ':')
  {
  }

  /** The sample alert is printable, so by `ParsePrintedLine` its line reads back as
      192.168.1.100:22 -> 192.168.1.200:54321 with priority 1 and SID 1000001. */
  lemma SamplePrintable()
    ensures Printable(SampleAlert)
  {
    SampleStamp();
    SampleLabels();
    SampleEndpoints();
  }

  /** The sample line of the runner's test suite, as the test writes it, cut
      into pieces along the fields the printer writes. */
  const SampleLine: string :=
    "10/26-11:09:09.414867" + ("  [**]" + (" [1:1000001:1]" + (
      " SSH Connection Attempt" + (" [**]" + (
      " [Classification: " + ("Attempted Administrator Privilege Gain]" + (
      " [Priority:" + (" 1]" + (" {TCP}" + (
      " 192.168.1.100:22" + (" ->" + " 192.168.1.200:54321")))))))))))

  lemma SampleSmallNumbers()
    ensures NatToString(1) == "1" && NatToString(22) == "22"
  {
  }

  lemma SamplePort()
    ensures NatToString(54321) == "54321"
  {
    assert NatToString(5) == "5";
    assert NatToString(54) == "54";
    assert NatToString(543) == "543";
    assert NatToString(5432) == "5432";
  }

  lemma SampleSid()
    ensures NatToString(1000001) == "1000001"
  {
    assert NatToString(1) == "1";
    assert NatToString(10) == "10";
    assert NatToString(100) == "100";
    assert NatToString(1000) == "1000";
    assert NatToString(10000) == "10000";
    assert NatToString(100000) == "100000";
  }

  /** `a + (b + c) == (a + b) + c`, one regrouping step of a printed line. */
  lemma Assoc(a: string, b: string, c: string)
    ensures a + (b + c) == (a + b) + c
  {
  }

  lemma SampleStampJoin()
    ensures "10" + ("/" + ("26" + ("-" + ("11" + (":" + ("09" + (":" + ("09" + ("." + "414867"))))))))) == "10/26-11:09:09.414867"
  {
  }

  /** The sample's timestamp as printed. */
  lemma SampleStampText(rest: string)
    ensures StampOnto(SampleAlert.timestamp, rest)
              == "10/26-11:09:09.414867" + rest
  {
    SampleStampJoin();
    Assoc(".", "414867", rest);
    Assoc("09", "." + "414867", rest);
    Assoc(":", "09" + ("." + "414867"), rest);
    Assoc("09", ":" + ("09" + ("." + "414867")), rest);
    Assoc(":", "09" + (":" + ("09" + ("." + "414867"))), rest);
    Assoc("11", ":" + ("09" + (":" + ("09" + ("." + "414867")))), rest);
    Assoc("-", "11" + (":" + ("09" + (":" + ("09" + ("." + "414867"))))), rest);
    Assoc("26", "-" + ("11" + (":" + ("09" + (":" + ("09" + ("." + "414867")))))), rest);
    Assoc("/", "26" + ("-" + ("11" + (":" + ("09" + (":" + ("09" + ("." + "414867"))))))), rest);
    Assoc("10", "/" + ("26" + ("-" + ("11" + (":" + ("09" + (":" + ("09" + ("." + "414867")))))))), rest);
  }

  lemma SampleIdsJoin()
    ensures " " + ("[" + ("1" + (":" + ("1000001" + (":" + ("1" + "]")))))) == " [1:1000001:1]"
    ensures "  " + "[**]" == "  [**]"
  {
  }

  /** The sample's head, `<stamp>  [**] [1:1000001:1]`, with generator id 1. */
  lemma SampleHeadText(rest: string)
    ensures HeadOnto(SampleAlert.timestamp, 1, SampleAlert.sid, SampleAlert.rev, rest)
              == "10/26-11:09:09.414867" + ("  [**]" + (" [1:1000001:1]" + rest))
  {
    SampleSid();
    SampleSmallNumbers();
    SampleIdsJoin();
    Assoc("1", "]", rest);
    Assoc(":", "1" + "]", rest);
    Assoc("1000001", ":" + ("1" + "]"), rest);
    Assoc(":", "1000001" + (":" + ("1" + "]")), rest);
    Assoc("1", ":" + ("1000001" + (":" + ("1" + "]"))), rest);
    Assoc("[", "1" + (":" + ("1000001" + (":" + ("1" + "]")))), rest);
    Assoc(" ", "[" + ("1" + (":" + ("1000001" + (":" + ("1" + "]"))))), rest);
    Assoc("  ", "[**]", " [1:1000001:1]" + rest);
    SampleStampText("  [**]" + (" [1:1000001:1]" + rest));
  }

  lemma SampleClassificationJoin()
    ensures "Attempted Administrator Privilege Gain" + "]" == "Attempted Administrator Privilege Gain]"
  {
  }

  lemma SampleMessageJoin()
    ensures " " + ("[Classification:" + " ") == " [Classification: "
    ensures " " + "[**]" == " [**]"
    ensures " " + "SSH Connection Attempt" == " SSH Connection Attempt"
  {
  }

  /** The sample's message and classification as printed. */
  lemma SampleLabelsText(rest: string)
    ensures LabelsOnto(SampleAlert.message, SampleAlert.classification, rest)
              == " SSH Connection Attempt" + (" [**]" + (" [Classification: " + ("Attempted Administrator Privilege Gain]" + rest)))
  {
    SampleClassificationJoin();
    SampleMessageJoin();
    Assoc("Attempted Administrator Privilege Gain", "]", rest);
    Assoc("[Classification:", " ", "Attempted Administrator Privilege Gain]" + rest);
    Assoc(" ", "[Classification:" + " ", "Attempted Administrator Privilege Gain]" + rest);
    Assoc(" ", "[**]", " [Classification: " + ("Attempted Administrator Privilege Gain]" + rest));
    Assoc(" ", "SSH Connection Attempt", " [**]" + (" [Classification: " + ("Attempted Administrator Privilege Gain]" + rest)));
  }

  lemma SampleRankJoin()
    ensures " " + ("{" + ("TCP" + "}")) == " {TCP}"
    ensures " " + ("1" + "]") == " 1]"
    ensures " " + "[Priority:" == " [Priority:"
  {
  }

  /** The sample's priority and protocol as printed. */
  lemma SampleRankText(rest: string)
    ensures RankOnto(SampleAlert.priority, SampleAlert.protocol, rest)
              == " [Priority:" + (" 1]" + (" {TCP}" + rest))
  {
    SampleSmallNumbers();
    SampleRankJoin();
    Assoc("TCP", "}", rest);
    Assoc("{", "TCP" + "}", rest);
    Assoc(" ", "{" + ("TCP" + "}"), rest);
    Assoc("1", "]", " {TCP}" + rest);
    Assoc(" ", "1" + "]", " {TCP}" + rest);
    Assoc(" ", "[Priority:", " 1]" + (" {TCP}" + rest));
  }

  lemma SampleDestinationJoin()
    ensures " " + ("192.168.1.200" + (":" + "54321")) == " 192.168.1.200:54321"
    ensures " " + "->" == " ->"
  {
  }

  lemma SampleSourceJoin()
    ensures " " + ("192.168.1.100" + (":" + "22")) == " 192.168.1.100:22"
  {
  }

  /** The sample's endpoints as printed. */
  lemma SampleTailText()
    ensures TailText(SampleAlert)
              == " 192.168.1.100:22" + (" ->" + " 192.168.1.200:54321")
  {
    SampleSmallNumbers();
    SamplePort();
    SampleDestinationJoin();
    SampleSourceJoin();
    Assoc(" ", "->", " 192.168.1.200:54321");
    Assoc(":", "22", " ->" + " 192.168.1.200:54321");
    Assoc("192.168.1.100", ":" + "22", " ->" + " 192.168.1.200:54321");
    Assoc(" ", "192.168.1.100" + (":" + "22"), " ->" + " 192.168.1.200:54321");
  }
  /** Snort's rendering of the sample alert with generator id 1 is the test's
      line, character for character, built up one printed piece at a time. */
  lemma SampleRendering()
    ensures AlertLine(SampleAlert, 1) == SampleLine
  {
    SampleTailText();
    SampleRankText(" 192.168.1.100:22" + (" ->" + " 192.168.1.200:54321"));
    SampleLabelsText(" [Priority:" + (" 1]" + (" {TCP}" + (" 192.168.1.100:22" + (" ->" + " 192.168.1.200:54321")))));
    SampleHeadText(" SSH Connection Attempt" + (" [**]" + (" [Classification: " + ("Attempted Administrator Privilege Gain]"
      + (" [Priority:" + (" 1]" + (" {TCP}" + (" 192.168.1.100:22" + (" ->" + " 192.168.1.200:54321")))))))));
  }

  /** The test's line parses: `parse_alert` returns the sample alert, with the
      line as its raw text, SSH from 192.168.1.100:22 to 192.168.1.200:54321
      at priority 1, and counts it as parsed. */
  lemma SampleLineParses(st: ParserState)
    ensures ParseAlert(st, SampleLine) == (Some(SampleAlert.(rawAlert := SampleLine)), st.(parsedCount := st.parsedCount + 1))
  {
    SamplePrintable();
    SampleRendering();
    ParsePrintedLine(st, SampleAlert, 1);
  }

  /** The fields the test reads off the parsed sample: the message, both
      endpoints and the priority. */
  lemma SampleLineFields(st: ParserState)
    ensures ParseAlert(st, SampleLine).0.Some?
    ensures var a := ParseAlert(st, SampleLine).0.value;
            && a.message == "SSH Connection Attempt" && a.priority == 1 && a.sid == 1000001
            && a.srcIp == "192.168.1.100" && a.srcPort == Some(22)
            && a.dstIp == "192.168.1.200" && a.dstPort == Some(54321)
  {
    SampleLineParses(st);
  }
}
