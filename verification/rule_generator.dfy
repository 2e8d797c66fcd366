/** `SnortRuleGenerator` (ml_runner/rule_generator.py): SID seeding from the
    existing rule files, the confidence gate, rules built from an alert or
    rewritten from a model suggestion, and syntactic validation. */
module RuleGenerator {
  import opened Wrappers
  import opened Strings
  import AlertParser
  import opened Analyzer
  import opened RuleOptions

  /** `SnortRule` without its creation time. The action lives only in the
      rule text. */
  datatype Rule = Rule(
    sid: int,
    message: string,
    protocol: string,
    srcAddr: string,
    srcPort: string,
    direction: string,
    dstAddr: string,
    dstPort: string,
    options: Options,
    raw: string,
    confidence: real)

  /** The generator's only state: the SID the next rule gets. */
  datatype GenState = GenState(nextSid: int)

  /** The configuration the generator reads. */
  datatype Settings = Settings(sidStart: int, threshold: real, prefix: string, priority: int)

  /** Clock and number formatting: today's date as `%Y%m%d`, and `{:.2f}`. */
  datatype Formatting = Formatting(date: string, twoDecimals: real -> string)

  // ------------------------------------------------------------ SID search

  /** `sid:\s*(\d+)` matched at the start of `s`: the number and the length
      of the match. */
  function SidMatch(s: string): (r: Option<(nat, nat)>)
    ensures r.Some? ==> 4 < r.value.1 <= |s| && StartsWith(s, "sid:")
  {
    if !StartsWith(s, "sid:") then None
    else
      var w := LeadingSpaces(s[4..]);
      var n := AlertParser.DigitRun(s[4 + w..]);
      if n == 0 then None else Some((DecimalValue(s[4 + w..][..n]), 4 + w + n))
  }

  lemma SuffixShift(s: string)
    requires |s| > 0
    ensures forall j :: 1 <= j <= |s| ==> s[1..][j - 1..] == s[j..]
  {
  }

  /** Where the leftmost match of `sid:\s*\d+` starts. */
  function SidAt(s: string): (r: Option<nat>)
    ensures r.Some? ==> r.value < |s| && SidMatch(s[r.value..]).Some?
    ensures r.Some? ==> forall j :: 0 <= j < r.value ==> SidMatch(s[j..]).None?
    ensures r.None? ==> forall j :: 0 <= j < |s| ==> SidMatch(s[j..]).None?
    decreases |s|
  {
    if |s| == 0 then None
    else if SidMatch(s).Some? then assert s[0..] == s; Some(0)
    else
      var r := SidAt(s[1..]);
      SuffixShift(s);
      assert s[0..] == s;
      if r.Some? then Some(r.value + 1) else None
  }

  /** `re.search(r'sid:\s*(\d+)', s)`: the number of the leftmost match. */
  function FindSid(s: string): (r: Option<nat>)
    ensures r.None? <==> SidAt(s).None?
    ensures r.Some? ==> r.value == SidMatch(s[SidAt(s).value..]).value.0
  {
    match SidAt(s)
    case None => None
    case Some(i) => Some(SidMatch(s[i..]).value.0)
  }

  /** `re.sub(r'sid:\s*\d+', text, s)`: every match, left to right and
      without overlap, replaced by `text`. */
  function ReplaceSids(s: string, text: string): string
    decreases |s|
  {
    if |s| == 0 then ""
    else match SidMatch(s)
      case Some((_, len)) => text + ReplaceSids(s[len..], text)
      case None => [s[0]] + ReplaceSids(s[1..], text)
  }

  /** Without a match the substitution changes nothing, so the guard in
      front of it does not matter. */
  lemma {:induction false} ReplaceWithoutMatch(s: string, text: string)
    requires FindSid(s).None?
    ensures ReplaceSids(s, text) == s
    decreases |s|
  {
    if |s| > 0 {
      assert SidMatch(s[0..]).None?;
      assert s[0..] == s;
      assert SidAt(s[1..]).None? by {
        assert forall j :: 0 <= j < |s| - 1 ==> s[1..][j..] == s[j + 1..];
      }
      ReplaceWithoutMatch(s[1..], text);
    }
  }

  // ------------------------------------------------------------- seeding

  /** The SID a rule-file line contributes: none for blank and comment
      lines, otherwise the first `sid:` number on the stripped line. */
  function LineSid(line: string): (r: Option<nat>)
    ensures Strip(line) == "" || Strip(line)[0] == '#' ==> r.None?
    ensures r.Some? ==> FindSid(Strip(line)) == r
  {
    var t := Strip(line);
    if t == "" || t[0] == '#' then None else FindSid(t)
  }

  /** A file in the rules directory: its name and the lines read from it
      (up to a read error, if one occurs). */
  datatype RulesFile = RulesFile(name: string, lines: seq<string>)

  function LineSids(lines: seq<string>): seq<nat>
    decreases |lines|
  {
    if |lines| == 0 then []
    else
      var rest := LineSids(lines[1..]);
      match LineSid(lines[0])
      case Some(x) => [x] + rest
      case None => rest
  }

  /** A file is scanned when its name ends in `.rules`. */
  predicate IsRulesFile(f: RulesFile) {
    EndsWith(f.name, ".rules")
  }

  /** The SIDs found in the `.rules` files of the directory, file by file. */
  function FoundSids(files: seq<RulesFile>): seq<nat>
    decreases |files|
  {
    if |files| == 0 then []
    else (if IsRulesFile(files[0]) then LineSids(files[0].lines) else []) + FoundSids(files[1..])
  }

  /** A SID is collected from some line of some `.rules` file. */
  predicate SidInFile(x: nat, f: RulesFile) {
    IsRulesFile(f) && exists i :: 0 <= i < |f.lines| && LineSid(f.lines[i]) == Some(x)
  }

  lemma LineSidsStep(lines: seq<string>, x: nat)
    requires |lines| > 0
    ensures x in LineSids(lines) <==> LineSid(lines[0]) == Some(x) || x in LineSids(lines[1..])
  {
  }

  lemma LineExistsStep(lines: seq<string>, x: nat)
    requires |lines| > 0
    ensures (exists i :: 0 <= i < |lines| && LineSid(lines[i]) == Some(x))
            <==> LineSid(lines[0]) == Some(x) || exists i :: 0 <= i < |lines[1..]| && LineSid(lines[1..][i]) == Some(x)
  {
    if exists i :: 0 <= i < |lines| && LineSid(lines[i]) == Some(x) {
      var i :| 0 <= i < |lines| && LineSid(lines[i]) == Some(x);
      if i > 0 {
        assert lines[1..][i - 1] == lines[i];
      }
    }
    if exists i :: 0 <= i < |lines[1..]| && LineSid(lines[1..][i]) == Some(x) {
      var i :| 0 <= i < |lines[1..]| && LineSid(lines[1..][i]) == Some(x);
      assert lines[1..][i] == lines[i + 1];
    }
  }

  lemma {:induction false} LineSidsMeans(lines: seq<string>, x: nat)
    ensures x in LineSids(lines) <==> exists i :: 0 <= i < |lines| && LineSid(lines[i]) == Some(x)
    decreases |lines|
  {
    if |lines| > 0 {
      LineSidsMeans(lines[1..], x);
      LineSidsStep(lines, x);
      LineExistsStep(lines, x);
    }
  }

  /** The collected SIDs are exactly those on the lines of the `.rules`
      files; other files are skipped. */
  lemma {:induction false} FoundSidsMeans(files: seq<RulesFile>, x: nat)
    ensures x in FoundSids(files) <==> exists k :: 0 <= k < |files| && SidInFile(x, files[k])
    decreases |files|
  {
    if |files| > 0 {
      FoundSidsMeans(files[1..], x);
      LineSidsMeans(files[0].lines, x);
      FoundSidsStep(files, x);
      FileExistsStep(files, x);
    }
  }

  lemma FoundSidsStep(files: seq<RulesFile>, x: nat)
    requires |files| > 0
    ensures x in FoundSids(files) <==>
              (IsRulesFile(files[0]) && x in LineSids(files[0].lines)) || x in FoundSids(files[1..])
  {
  }

  lemma FileExistsStep(files: seq<RulesFile>, x: nat)
    requires |files| > 0
    ensures (exists k :: 0 <= k < |files| && SidInFile(x, files[k]))
            <==> SidInFile(x, files[0]) || exists k :: 0 <= k < |files[1..]| && SidInFile(x, files[1..][k])
  {
    if exists k :: 0 <= k < |files| && SidInFile(x, files[k]) {
      var k :| 0 <= k < |files| && SidInFile(x, files[k]);
      if k > 0 {
        assert files[1..][k - 1] == files[k];
      }
    }
    if exists k :: 0 <= k < |files[1..]| && SidInFile(x, files[1..][k]) {
      var k :| 0 <= k < |files[1..]| && SidInFile(x, files[1..][k]);
      assert files[1..][k] == files[k + 1];
    }
  }

  /** `max(existing_sids)`. */
  function MaxOf(xs: seq<nat>): (r: Option<nat>)
    ensures r.None? <==> |xs| == 0
    ensures r.Some? ==> r.value in xs && forall x :: x in xs ==> x <= r.value
    decreases |xs|
  {
    if |xs| == 0 then None
    else
      assert xs == [xs[0]] + xs[1..];
      match MaxOf(xs[1..])
      case None => Some(xs[0])
      case Some(m) => Some(if xs[0] >= m then xs[0] else m)
  }

  /** `_load_existing_sids`: the first SID to hand out, given whether the
      rules directory exists and the files in it. */
  function SeedSid(start: int, dirExists: bool, files: seq<RulesFile>): (next: int)
    ensures next >= start
    ensures dirExists ==> forall x :: x in FoundSids(files) ==> next > x
    ensures next == start || (dirExists && next - 1 in FoundSids(files))
  {
    var found := if dirExists then FoundSids(files) else [];
    match MaxOf(found)
    case Some(m) => if m >= start then m + 1 else start
    case None => start
  }

  /** No SID handed out after seeding collides with one already in a
      `.rules` file. */
  lemma SeededSidIsFresh(start: int, files: seq<RulesFile>, x: nat, k: nat)
    requires k < |files| && SidInFile(x, files[k])
    ensures SeedSid(start, true, files) > x
  {
    FoundSidsMeans(files, x);
  }

  /** Without a rules directory, or without a SID in it, allocation starts
      at the configured SID. */
  lemma SeedWithoutSids(start: int, dirExists: bool, files: seq<RulesFile>)
    requires !dirExists || forall k :: 0 <= k < |files| ==> !IsRulesFile(files[k])
    ensures SeedSid(start, dirExists, files) == start
  {
    if dirExists && SeedSid(start, dirExists, files) != start {
      var x := SeedSid(start, dirExists, files) - 1;
      FoundSidsMeans(files, x);
    }
  }

  // --------------------------------------------------------- rule text

  /** Tokens separated by single spaces, in front of `rest`. */
  function TokensOnto(ts: seq<string>, rest: string): string
    decreases |ts|
  {
    if |ts| == 0 then rest else ts[0] + (" " + TokensOnto(ts[1..], rest))
  }

  /** The seven header fields of a rule. */
  datatype Header = Header(action: string, protocol: string, srcAddr: string, srcPort: string,
                           direction: string, dstAddr: string, dstPort: string)
  {
    function Tokens(): seq<string> {
      [action, protocol, srcAddr, srcPort, direction, dstAddr, dstPort]
    }
  }

  function HeaderOf(ts: seq<string>): Header
    requires |ts| == 7
  {
    Header(ts[0], ts[1], ts[2], ts[3], ts[4], ts[5], ts[6])
  }

  /** `f"{action} {protocol} ... {dst_port} ({'; '.join(options_list)};)"` */
  function RuleText(h: Header, opts: Options): string {
    TokensOnto(h.Tokens(), "(" + OptionsBody(opts) + ")")
  }

  // --------------------------------------------------------- rule scanning

  /** Length of the run of non-space characters that starts `s`. */
  function NonSpaceRun(s: string): (n: nat)
    ensures n <= |s| && NoSpace(s[..n])
    ensures n == |s| || IsSpace(s[n])
    decreases |s|
  {
    if |s| > 0 && !IsSpace(s[0]) then
      var n := 1 + NonSpaceRun(s[1..]);
      assert s[..n] == [s[0]] + s[1..][..n - 1];
      n
    else 0
  }

  /** `(\S+)\s+`: a token and what follows the spaces after it. */
  function TokenThen(s: string): (r: Option<(string, string)>)
    ensures r.Some? ==> |r.value.1| < |s|
  {
    var n := NonSpaceRun(s);
    if n == 0 then None
    else match AlertParser.Spaces1(s[n..])
      case Some(rest) => Some((s[..n], rest))
      case None => None
  }

  /** `k` whitespace-terminated tokens. */
  function ScanTokens(s: string, k: nat): (r: Option<(seq<string>, string)>)
    ensures r.Some? ==> |r.value.0| == k
    decreases k
  {
    if k == 0 then Some(([], s))
    else match TokenThen(s)
      case None => None
      case Some((t, rest)) =>
        match ScanTokens(rest, k - 1)
        case None => None
        case Some((ts, tail)) => Some(([t] + ts, tail))
  }

  /** `\w+` as a whole token. */
  predicate WordToken(t: string) {
    t != "" && forall i :: 0 <= i < |t| ==> IsWordChar(t[i])
  }

  /** `[<>-]+` as a whole token. */
  predicate ArrowToken(t: string) {
    t != "" && forall i :: 0 <= i < |t| ==> t[i] == '<' || t[i] == '>' || t[i] == '-'
  }

  /** `\(([^)]+)\)`: the text up to the first `)` and what follows it. */
  function ParenGroup(s: string): (r: Option<(string, string)>)
    ensures r.Some? ==> r.value.0 != "" && Free(r.value.0, ')') && s == "(" + r.value.0 + ")" + r.value.1
  {
    if |s| == 0 || s[0] != '(' then None
    else
      var k := IndexOf(s[1..], ')');
      if k == 0 || k == |s[1..]| then None
      else
        assert s == "(" + s[1..][..k] + ")" + s[1..][k + 1..];
        Some((s[1..][..k], s[1..][k + 1..]))
  }

  /** What `;?$` accepts after the closing parenthesis: `$` also matches
      before a final newline. */
  predicate ValidTail(t: string) {
    t == "" || t == ";" || t == "\n" || t == ";\n"
  }

  /** A header of the shape both rule patterns require: the action is one of
      `actions`, the protocol a word, the direction made of `<`, `>`, `-`. */
  predicate HeaderShape(ts: seq<string>, actions: set<string>) {
    |ts| == 7 && ts[0] in actions && WordToken(ts[1]) && ArrowToken(ts[4])
  }

  /** The raw-text half of `validate_rule`: the anchored pattern
      `^(alert|drop|reject|pass)\s+\w+\s+\S+\s+\S+\s+[<>-]+\s+\S+\s+\S+\s+\([^)]+\);?$`. */
  predicate ValidText(raw: string) {
    match ScanTokens(raw, 7)
    case None => false
    case Some((ts, rest)) =>
      HeaderShape(ts, {"alert", "drop", "reject", "pass"})
      && match ParenGroup(rest)
         case None => false
         case Some((_, tail)) => ValidTail(tail)
  }

  /** `validate_rule`: the text has the rule shape and the options include
      `msg` and `sid`. */
  predicate ValidateRule(r: Rule) {
    ValidText(r.raw) && HasKey(r.options, "msg") && HasKey(r.options, "sid")
  }

  // ----------------------------------------------------- scanning lemmas

  /** A token needs to be non-empty and free of spaces. */
  predicate Token(t: string) {
    t != "" && NoSpace(t)
  }

  lemma {:induction false} NonSpacePrefix(t: string, rest: string)
    requires NoSpace(t) && rest != [] && IsSpace(rest[0])
    ensures NonSpaceRun(t + rest) == |t|
    decreases |t|
  {
    if |t| > 0 {
      assert (t + rest)[1..] == t[1..] + rest;
      NonSpacePrefix(t[1..], rest);
    }
  }

  lemma TokenPrefix(t: string, rest: string)
    requires Token(t) && (rest == [] || !IsSpace(rest[0]))
    ensures TokenThen(t + (" " + rest)) == Some((t, rest))
  {
    var s := t + (" " + rest);
    NonSpacePrefix(t, " " + rest);
    assert s[|t|..] == " " + rest;
    assert s[..|t|] == t;
    AlertParser.SpacePrefix(rest);
  }

  /** A printed token list starts with a token's first character, or is
      `rest` itself. */
  lemma OntoStart(ts: seq<string>, rest: string)
    requires forall i :: 0 <= i < |ts| ==> Token(ts[i])
    requires rest == [] || !IsSpace(rest[0])
    ensures TokensOnto(ts, rest) == [] || !IsSpace(TokensOnto(ts, rest)[0])
  {
    if |ts| > 0 {
      assert TokensOnto(ts, rest)[0] == ts[0][0];
    }
  }

  /** One more token in front of scannable text scans too. */
  lemma ScanStep(t: string, after: string, ts: seq<string>, rest: string)
    requires Token(t) && (after == [] || !IsSpace(after[0]))
    requires ScanTokens(after, |ts|) == Some((ts, rest))
    ensures ScanTokens(t + (" " + after), |ts| + 1) == Some(([t] + ts, rest))
  {
    TokenPrefix(t, after);
  }

  /** Tokens printed with `TokensOnto` scan back. */
  lemma {:induction false} ScanPrinted(ts: seq<string>, rest: string)
    requires forall i :: 0 <= i < |ts| ==> Token(ts[i])
    requires rest == [] || !IsSpace(rest[0])
    ensures ScanTokens(TokensOnto(ts, rest), |ts|) == Some((ts, rest))
    decreases |ts|
  {
    if |ts| > 0 {
      var t, tail := ts[0], ts[1..];
      ScanPrinted(tail, rest);
      var after := TokensOnto(tail, rest);
      OntoStart(tail, rest);
      ScanStep(t, after, tail, rest);
      assert TokensOnto(ts, rest) == t + (" " + after);
      assert [t] + tail == ts;
    }
  }

  /** A printed token list ends where `rest` ends. */
  lemma {:induction false} OntoLast(ts: seq<string>, rest: string)
    requires rest != []
    ensures TokensOnto(ts, rest) != [] && TokensOnto(ts, rest)[|TokensOnto(ts, rest)| - 1] == rest[|rest| - 1]
    decreases |ts|
  {
    if |ts| > 0 {
      OntoLast(ts[1..], rest);
    }
  }

  /** The group of a printed option body is the whole body. */
  lemma ParenPrinted(body: string, tail: string)
    requires body != "" && Free(body, ')')
    ensures ParenGroup("(" + body + ")" + tail) == Some((body, tail))
  {
    var s := "(" + body + ")" + tail;
    assert s[1..] == body + [')'] + tail;
    IndexOfAfterFree(body, ')', tail);
    assert s[1..][..|body|] == body;
    assert s[1..][|body| + 1..] == tail;
  }

  /** A `)` inside the body ends the group early, and the rest of the text
      then cannot close the pattern. */
  lemma ParenCut(body: string)
    requires !Free(body, ')')
    ensures match ParenGroup("(" + body + ")")
            case None => true
            case Some((_, tail)) => !ValidTail(tail)
  {
    var s := "(" + body + ")";
    var k := IndexOf(s[1..], ')');
    assert s[1..] == body + ")";
    var j :| 0 <= j < |body| && body[j] == ')';
    assert s[1..][j] == ')';
    IndexOfAtMost(s[1..], ')', j);
    if ParenGroup(s).Some? {
      var tail := s[1..][k + 1..];
      assert |tail| >= 1 && tail[|tail| - 1] == ')';
    }
  }

  lemma BodyNonEmpty(opts: Options)
    ensures OptionsBody(opts) != "" && OptionsBody(opts)[|OptionsBody(opts)| - 1] == ';'
  {
  }

  /** A rule text built from a well-formed header is valid exactly when its
      option body has no `)`. */
  lemma RuleTextValid(h: Header, opts: Options)
    requires forall i :: 0 <= i < 7 ==> Token(h.Tokens()[i])
    requires HeaderShape(h.Tokens(), {"alert", "drop", "reject", "pass"})
    ensures ValidText(RuleText(h, opts)) <==> Free(OptionsBody(opts), ')')
  {
    var body := OptionsBody(opts);
    ScanPrinted(h.Tokens(), "(" + body + ")");
    BodyNonEmpty(opts);
    if Free(body, ')') {
      ParenPrinted(body, "");
      assert "(" + body + ")" + "" == "(" + body + ")";
    } else {
      ParenCut(body);
    }
  }

  // ---------------------------------------------------- rule from an alert

  /** The action a recommendation maps to. */
  function ActionFor(recommended: string): (a: string)
    ensures a in {"alert", "drop", "reject"}
    ensures a == "drop" <==> recommended == "block"
    ensures a == "reject" <==> recommended == "reject"
  {
    if recommended == "block" then "drop"
    else if recommended == "reject" then "reject"
    else "alert"
  }

  /** `str(port) if port else "any"`: None and 0 both become `any`. */
  function PortField(p: Option<nat>): (r: string)
    ensures r == "any" <==> p.None? || p.value == 0
    ensures Token(r)
  {
    if p.Some? && p.value != 0 then
      var t := NatToString(p.value);
      assert t != "any" by { assert IsDigit(t[0]); }
      t
    else "any"
  }

  function Take(s: string, n: nat): (r: string)
    ensures |r| <= n && StartsWith(s, r)
    ensures |s| <= n ==> r == s
    ensures |s| > n ==> r == s[..n] && |r| == n
  {
    if |s| <= n then s else s[..n]
  }

  /** `f"{rule_prefix}: {threat_description[:80]}"` */
  function RuleMessage(prefix: string, description: string): string {
    prefix + ": " + Take(description, 80)
  }

  function Reference(an: Analysis, fmt: Formatting): string {
    "ml_analysis,confidence_" + fmt.twoDecimals(an.confidence)
  }

  function Metadata(settings: Settings, fmt: Formatting): string {
    settings.prefix + ",generated_" + fmt.date
  }

  /** The options of an alert-derived rule, in dictionary order. */
  function AlertOptions(sid: int, an: Analysis, settings: Settings, fmt: Formatting): Options {
    [("msg", "\"" + RuleMessage(settings.prefix, an.description) + "\""),
     ("sid", IntToString(sid)),
     ("rev", "1"),
     ("classtype", an.classification),
     ("priority", IntToString(settings.priority)),
     ("reference", Reference(an, fmt)),
     ("metadata", Metadata(settings, fmt))]
  }

  /** The header of an alert-derived rule: the protocol lower-cased, the
      addresses as they are, `any` for a missing or zero port, `->`. */
  function AlertHeader(a: AlertParser.Alert, an: Analysis): (h: Header)
    ensures h.direction == "->" && h.srcAddr == a.srcIp && h.dstAddr == a.dstIp
    ensures h.action == ActionFor(an.action)
  {
    Header(ActionFor(an.action), Lower(a.protocol), a.srcIp, PortField(a.srcPort), "->", a.dstIp, PortField(a.dstPort))
  }

  /** `_generate_rule_from_alert`: the rule gets the current SID and the
      counter moves on by one. */
  function FromAlert(st: GenState, a: AlertParser.Alert, an: Analysis, settings: Settings, fmt: Formatting): (r: (Rule, GenState))
    ensures r.0.sid == st.nextSid && r.1 == GenState(st.nextSid + 1)
    ensures r.0.direction == "->" && r.0.srcAddr == a.srcIp && r.0.dstAddr == a.dstIp
    ensures r.0.srcPort == "any" <==> a.srcPort.None? || a.srcPort.value == 0
    ensures r.0.dstPort == "any" <==> a.dstPort.None? || a.dstPort.value == 0
    ensures r.0.protocol == Upper(Lower(a.protocol)) && r.0.confidence == an.confidence
    ensures r.0.message == RuleMessage(settings.prefix, an.description)
  {
    var h := AlertHeader(a, an);
    var opts := AlertOptions(st.nextSid, an, settings, fmt);
    (Rule(st.nextSid, RuleMessage(settings.prefix, an.description), Upper(h.protocol), h.srcAddr, h.srcPort,
          h.direction, h.dstAddr, h.dstPort, opts, RuleText(h, opts), an.confidence),
     GenState(st.nextSid + 1))
  }

  /** The options of an alert-derived rule: the quoted message cut to 80
      characters of description, the SID, revision 1 and the rest. */
  lemma AlertOptionsContent(sid: int, an: Analysis, settings: Settings, fmt: Formatting)
    ensures var opts := AlertOptions(sid, an, settings, fmt);
            && Get(opts, "msg") == Some("\"" + RuleMessage(settings.prefix, an.description) + "\"")
            && Get(opts, "sid") == Some(IntToString(sid))
            && Get(opts, "rev") == Some("1")
  {
    var opts := AlertOptions(sid, an, settings, fmt);
    assert Get(opts, "msg") == Some(opts[0].1);
    assert Get(opts, "sid") == Get(opts[1..], "sid") == Some(opts[1].1);
    assert opts[1..][1..] == opts[2..];
    assert Get(opts, "rev") == Get(opts[2..], "rev") == Some(opts[2].1);
  }

  /** An alert-derived rule validates exactly when its option body has no
      `)`, provided the alert's protocol is a word and its addresses are
      single tokens, as parsed alerts' fields are when they hold no inner
      spaces. */
  lemma FromAlertValidates(st: GenState, a: AlertParser.Alert, an: Analysis, settings: Settings, fmt: Formatting)
    requires WordToken(Lower(a.protocol)) && Token(a.srcIp) && Token(a.dstIp)
    ensures var rule := FromAlert(st, a, an, settings, fmt).0;
            ValidateRule(rule) <==> Free(OptionsBody(rule.options), ')')
  {
    var h := AlertHeader(a, an);
    var opts := AlertOptions(st.nextSid, an, settings, fmt);
    assert Token("->") && ArrowToken("->");
    assert Token(h.action);
    RuleTextValid(h, opts);
    assert HasKey(opts, "msg") && HasKey(opts, "sid") by {
      AlertOptionsContent(st.nextSid, an, settings, fmt);
    }
  }

  // ------------------------------------------------------ suggested rules

  /** The generator's overrides on a suggested rule's options. */
  lemma OverriddenKeysDistinct()
    ensures "sid" != "classtype" && "sid" != "reference" && "sid" != "metadata"
    ensures "classtype" != "reference" && "classtype" != "metadata" && "reference" != "metadata"
  {
    assert "classtype"[0] != "reference"[0];
  }

  function Overwrite(opts: Options, sid: int, an: Analysis, settings: Settings, fmt: Formatting): (r: Options)
    ensures Get(r, "sid") == Some(IntToString(sid))
    ensures Get(r, "classtype") == Some(an.classification)
    ensures Get(r, "reference") == Some(Reference(an, fmt))
    ensures Get(r, "metadata") == Some(Metadata(settings, fmt))
    ensures forall k :: k !in {"sid", "classtype", "reference", "metadata"} ==> Get(r, k) == Get(opts, k)
    ensures UniqueKeys(opts) ==> UniqueKeys(r)
  {
    OverriddenKeysDistinct();
    var o1 := Put(opts, "sid", IntToString(sid));
    var o2 := Put(o1, "classtype", an.classification);
    var o3 := Put(o2, "reference", Reference(an, fmt));
    PutUnique(opts, "sid", IntToString(sid));
    PutUnique(o1, "classtype", an.classification);
    PutUnique(o2, "reference", Reference(an, fmt));
    PutUnique(o3, "metadata", Metadata(settings, fmt));
    Put(o3, "metadata", Metadata(settings, fmt))
  }

  /** `rule_pattern.match(...)`: the header and the option text of a
      suggestion; text after the closing parenthesis is ignored. */
  function MatchSuggestion(s: string): (r: Option<(Header, string)>)
    ensures r.Some? ==> r.value.1 != "" && Free(r.value.1, ')')
  {
    match ScanTokens(s, 7)
    case None => None
    case Some((ts, rest)) =>
      if !HeaderShape(ts, {"alert", "drop", "reject"}) then None
      else match ParenGroup(rest)
        case None => None
        case Some((body, _)) => Some((HeaderOf(ts), body))
  }

  /** `_parse_suggested_rule`: SIDs in the text replaced by the current
      one, the header and options read back, the generator's options
      forced, the text rebuilt; a suggestion of the wrong shape falls back
      to the alert-derived rule. */
  function FromSuggestion(st: GenState, suggestion: string, a: AlertParser.Alert, an: Analysis,
                          settings: Settings, fmt: Formatting): (r: (Rule, GenState))
    ensures r.0.sid == st.nextSid && r.1 == GenState(st.nextSid + 1)
    ensures Get(r.0.options, "sid") == Some(IntToString(st.nextSid)) || r.0 == FromAlert(st, a, an, settings, fmt).0
    ensures MatchSuggestion(Strip(SidsReplaced(suggestion, st.nextSid))).None? ==> r == FromAlert(st, a, an, settings, fmt)
  {
    match MatchSuggestion(Strip(SidsReplaced(suggestion, st.nextSid)))
    case None => FromAlert(st, a, an, settings, fmt)
    case Some((h, body)) =>
      var opts := Overwrite(ParseOptions(body), st.nextSid, an, settings, fmt);
      var message := StripChar(Get(opts, "msg").GetOr(an.description), '"');
      (Rule(st.nextSid, message, Upper(h.protocol), h.srcAddr, h.srcPort, h.direction, h.dstAddr, h.dstPort,
            opts, RuleText(h, opts), an.confidence),
       GenState(st.nextSid + 1))
  }

  /** The suggestion after the SID substitution, which runs only when the
      text has a SID. */
  function SidsReplaced(suggestion: string, sid: int): string {
    if FindSid(suggestion).Some? then ReplaceSids(suggestion, "sid:" + IntToString(sid)) else suggestion
  }

  /** A suggestion of the right shape keeps its header; its options carry
      the current SID and the generator's classtype, reference and
      metadata, and the other options as the suggestion wrote them. */
  lemma SuggestionOptions(st: GenState, suggestion: string, a: AlertParser.Alert, an: Analysis,
                          settings: Settings, fmt: Formatting)
    requires MatchSuggestion(Strip(SidsReplaced(suggestion, st.nextSid))).Some?
    ensures var (h, body) := MatchSuggestion(Strip(SidsReplaced(suggestion, st.nextSid))).value;
            var rule := FromSuggestion(st, suggestion, a, an, settings, fmt).0;
            && rule.srcAddr == h.srcAddr && rule.dstAddr == h.dstAddr && rule.direction == h.direction
            && rule.raw == RuleText(h, rule.options)
            && Get(rule.options, "classtype") == Some(an.classification)
            && Get(rule.options, "reference") == Some(Reference(an, fmt))
            && Get(rule.options, "metadata") == Some(Metadata(settings, fmt))
            && (forall k :: k !in {"sid", "classtype", "reference", "metadata"} ==>
                  Get(rule.options, k) == Get(ParseOptions(body), k))
            && UniqueKeys(rule.options)
  {
  }

  /** A printed rule of a suggestible action matches the suggestion
      pattern with its own header and option body. */
  lemma SuggestedRuleText(h: Header, opts: Options)
    requires forall i :: 0 <= i < 7 ==> Token(h.Tokens()[i])
    requires HeaderShape(h.Tokens(), {"alert", "drop", "reject"})
    requires Free(OptionsBody(opts), ')')
    ensures MatchSuggestion(RuleText(h, opts)) == Some((h, OptionsBody(opts)))
  {
    var body := OptionsBody(opts);
    ScanPrinted(h.Tokens(), "(" + body + ")");
    BodyNonEmpty(opts);
    ParenPrinted(body, "");
    assert "(" + body + ")" + "" == "(" + body + ")";
    assert HeaderOf(h.Tokens()) == h;
  }

  /** A suggestion that is itself a printed rule with no `sid:` number in
      its text keeps its header and its options, and the generator adds
      its own SID, classtype, reference and metadata. */
  lemma PrintedSuggestion(st: GenState, h: Header, opts: Options, a: AlertParser.Alert, an: Analysis,
                          settings: Settings, fmt: Formatting)
    requires forall i :: 0 <= i < 7 ==> Token(h.Tokens()[i])
    requires HeaderShape(h.Tokens(), {"alert", "drop", "reject"})
    requires Printable(opts) && Free(OptionsBody(opts), ')')
    requires FindSid(RuleText(h, opts)).None?
    ensures var rule := FromSuggestion(st, RuleText(h, opts), a, an, settings, fmt).0;
            && rule.options == Overwrite(opts, st.nextSid, an, settings, fmt)
            && rule.raw == RuleText(h, rule.options)
            && rule.srcAddr == h.srcAddr && rule.srcPort == h.srcPort && rule.direction == h.direction
            && rule.dstAddr == h.dstAddr && rule.dstPort == h.dstPort
            && rule.protocol == Upper(h.protocol)
  {
    var text := RuleText(h, opts);
    assert SidsReplaced(text, st.nextSid) == text;
    OntoLast(h.Tokens(), "(" + OptionsBody(opts) + ")");
    assert text[0] == h.action[0];
    StripOfStripped(text);
    SuggestedRuleText(h, opts);
    ParsePrintedOptions(opts);
  }

  // -------------------------------------------------------------- the gate

  /** A rule suggestion is used when it is present and non-empty. */
  predicate HasSuggestion(an: Analysis) {
    an.suggestion.Some? && an.suggestion.value != ""
  }

  /** `generate_rule_from_ml_analysis`: nothing below the threshold (equal
      passes); otherwise a rule from the suggestion or from the alert. */
  function Generate(st: GenState, a: AlertParser.Alert, an: Analysis, settings: Settings, fmt: Formatting): (r: (Option<Rule>, GenState))
    ensures an.confidence < settings.threshold ==> r == (None, st)
    ensures an.confidence >= settings.threshold ==>
              r.0.Some? && r.0.value.sid == st.nextSid && r.1 == GenState(st.nextSid + 1)
    ensures an.confidence >= settings.threshold && !HasSuggestion(an) ==>
              r.0 == Some(FromAlert(st, a, an, settings, fmt).0)
  {
    if an.confidence < settings.threshold then (None, st)
    else
      var (rule, st') := if HasSuggestion(an) then FromSuggestion(st, an.suggestion.value, a, an, settings, fmt)
                         else FromAlert(st, a, an, settings, fmt);
      (Some(rule), st')
  }
}
