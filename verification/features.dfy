/** `AlertFeatureExtractor` (ml_runner/alert_parser.py): the feature record handed to
    the analyzers.  Whether an address is private comes from the address library and is
    a parameter here; so is the calendar reading of the timestamp. */
module Features {
  import opened Wrappers
  import opened Strings
  import opened AlertParser

  /** A feature value: the record mixes integers, floats, flags and text. */
  datatype Value = VInt(i: int) | VReal(r: real) | VBool(b: bool) | VStr(s: string)

  /** The keys of the feature dictionary. */
  datatype Key =
    | Priority | Protocol | Sid | Classification | Message
    | HourOfDay | DayOfWeek | IsWeekend
    | SrcIp | SrcPort | SrcIsPrivate | SrcPortCategory
    | DstIp | DstPort | DstIsPrivate | DstPortCategory
    | IsInbound | IsOutbound | IsLateral
    | SeverityScore | SuspiciousPort | KnownAttackPattern | RawAlert

  /** The dictionary key each `Key` stands for. */
  function KeyName(k: Key): string {
    match k
    case Priority => "priority"
    case Protocol => "protocol"
    case Sid => "sid"
    case Classification => "classification"
    case Message => "message"
    case HourOfDay => "hour_of_day"
    case DayOfWeek => "day_of_week"
    case IsWeekend => "is_weekend"
    case SrcIp => "src_ip"
    case SrcPort => "src_port"
    case SrcIsPrivate => "src_is_private"
    case SrcPortCategory => "src_port_category"
    case DstIp => "dst_ip"
    case DstPort => "dst_port"
    case DstIsPrivate => "dst_is_private"
    case DstPortCategory => "dst_port_category"
    case IsInbound => "is_inbound"
    case IsOutbound => "is_outbound"
    case IsLateral => "is_lateral"
    case SeverityScore => "severity_score"
    case SuspiciousPort => "suspicious_port"
    case KnownAttackPattern => "known_attack_pattern"
    case RawAlert => "raw_alert"
  }

  /** A feature dictionary; the analyzers accept one with any subset of the keys. */
  type FeatureMap = map<Key, Value>

  /** Hour of day and weekday (Monday is 0) of the alert's timestamp. */
  datatype Moment = Moment(hour: nat, weekday: nat)

  const FeatureKeys: set<Key> := {
    Priority, Protocol, Sid, Classification, Message,
    HourOfDay, DayOfWeek, IsWeekend,
    SrcIp, SrcPort, SrcIsPrivate, SrcPortCategory,
    DstIp, DstPort, DstIsPrivate, DstPortCategory,
    IsInbound, IsOutbound, IsLateral,
    SeverityScore, SuspiciousPort, KnownAttackPattern, RawAlert
  }

  /** Every key is a feature key. */
  lemma AllKeys(k: Key)
    ensures k in FeatureKeys
  {
  }

  // ------------------------------------------------------------------ ports

  /** `_categorize_port`. */
  function PortCategory(p: Option<nat>): (r: string)
    ensures r == "unknown" <==> p.None?
    ensures r == "well_known" <==> p.Some? && p.value < 1024
    ensures r == "registered" <==> p.Some? && 1024 <= p.value < 49152
    ensures r == "dynamic" <==> p.Some? && p.value >= 49152
  {
    if p.None? then "unknown"
    else if p.value < 1024 then "well_known"
    else if p.value < 49152 then "registered"
    else "dynamic"
  }

  /** Position of a category in the order of port ranges. */
  function CategoryRank(c: string): nat {
    if c == "well_known" then 0 else if c == "registered" then 1 else 2
  }

  /** Larger ports never fall in an earlier range. */
  lemma PortCategoryMonotone(p: nat, q: nat)
    requires p <= q
    ensures CategoryRank(PortCategory(Some(p))) <= CategoryRank(PortCategory(Some(q)))
  {
  }

  /** `port in ports`, where a missing port is in no list. */
  predicate PortIn(p: Option<nat>, ports: set<nat>) {
    p.Some? && p.value in ports
  }

  /** The keys of the dictionary in `_is_suspicious_port`. */
  const SuspiciousPorts: set<nat> := {22, 23, 135, 139, 445, 1433, 3389, 5900, 6667, 31337, 12345}

  /** The list in `_calculate_severity_score`: the first eight of the above. */
  const SeverityPorts: set<nat> := {22, 23, 135, 139, 445, 1433, 3389, 5900}

  /** `_is_suspicious_port`. */
  predicate IsSuspiciousPort(src: Option<nat>, dst: Option<nat>) {
    PortIn(src, SuspiciousPorts) || PortIn(dst, SuspiciousPorts)
  }

  /** A port that earns the severity bonus also raises the suspicious-port flag; the
      converse fails for 6667, 31337 and 12345. */
  lemma SeverityPortsSuspicious(src: Option<nat>, dst: Option<nat>)
    ensures (PortIn(src, SeverityPorts) || PortIn(dst, SeverityPorts)) ==> IsSuspiciousPort(src, dst)
    ensures IsSuspiciousPort(None, Some(6667)) && !PortIn(Some(6667), SeverityPorts)
  {
  }

  // ------------------------------------------------------------------ direction

  /** `_is_inbound_traffic`: external source, private destination. */
  predicate Inbound(src: string, dst: string, isPrivate: string -> bool) {
    !isPrivate(src) && isPrivate(dst)
  }

  /** `_is_outbound_traffic`: private source, external destination. */
  predicate Outbound(src: string, dst: string, isPrivate: string -> bool) {
    isPrivate(src) && !isPrivate(dst)
  }

  /** `_is_lateral_movement`: both ends private. */
  predicate Lateral(src: string, dst: string, isPrivate: string -> bool) {
    isPrivate(src) && isPrivate(dst)
  }

  /** At most one direction flag holds, and one holds iff an end is private. */
  lemma DirectionExclusive(src: string, dst: string, isPrivate: string -> bool)
    ensures !(Inbound(src, dst, isPrivate) && Outbound(src, dst, isPrivate))
    ensures !(Inbound(src, dst, isPrivate) && Lateral(src, dst, isPrivate))
    ensures !(Outbound(src, dst, isPrivate) && Lateral(src, dst, isPrivate))
    ensures (Inbound(src, dst, isPrivate) || Outbound(src, dst, isPrivate) || Lateral(src, dst, isPrivate))
            <==> (isPrivate(src) || isPrivate(dst))
  {
  }

  // ------------------------------------------------------------------ severity

  /** The priority part of the severity score. */
  function PriorityWeight(p: nat): real {
    if p == 1 then 0.4 else if p == 2 then 0.3 else if p == 3 then 0.2 else 0.1
  }

  const HighRiskClassifications: seq<string> := [
    "trojan-activity", "malware-cnc", "attempted-admin",
    "successful-admin", "attempted-dos", "denial-of-service"
  ]

  /** The loop over `high_risk_classifications` that adds 0.3 and breaks at the first
      key contained in the (lower-cased) classification. */
  function HighRiskBonus(keys: seq<string>, cls: string): real
    decreases |keys|
  {
    if |keys| == 0 then 0.0
    else if Contains(cls, keys[0]) then 0.3
    else HighRiskBonus(keys[1..], cls)
  }

  /** Some key occurs in the text. */
  predicate AnyIn(keys: seq<string>, text: string) {
    exists i :: 0 <= i < |keys| && Contains(text, keys[i])
  }

  /** The loop with `break` adds 0.3 once when any key matches, and nothing otherwise. */
  lemma {:induction false} HighRiskBonusOnce(keys: seq<string>, cls: string)
    ensures HighRiskBonus(keys, cls) == (if AnyIn(keys, cls) then 0.3 else 0.0)
    decreases |keys|
  {
    if |keys| > 0 && !Contains(cls, keys[0]) {
      HighRiskBonusOnce(keys[1..], cls);
      if AnyIn(keys, cls) {
        var i :| 0 <= i < |keys| && Contains(cls, keys[i]);
        assert keys[1..][i - 1] == keys[i];
      }
      if AnyIn(keys[1..], cls) {
        var i :| 0 <= i < |keys[1..]| && Contains(cls, keys[1..][i]);
        assert keys[i + 1] == keys[1..][i];
      }
    }
  }

  /** `max(0.0, min(1.0, x))` */
  function Clamp01(x: real): (r: real)
    ensures 0.0 <= r <= 1.0
    ensures 0.0 <= x <= 1.0 ==> r == x
  {
    if x > 1.0 then 1.0 else if x < 0.0 then 0.0 else x
  }

  /** `_calculate_severity_score`, with the classification loop stated by what it
      adds (`SeverityParts` relates the two). */
  function Severity(a: Alert): (r: real)
    ensures 0.0 <= r <= 1.0
  {
    var score := PriorityWeight(a.priority)
      + (if AnyIn(HighRiskClassifications, Lower(a.classification)) then 0.3 else 0.0)
      + (if a.protocol == "TCP" || a.protocol == "UDP" then 0.1 else 0.0)
      + (if PortIn(a.dstPort, SeverityPorts) || PortIn(a.srcPort, SeverityPorts) then 0.2 else 0.0);
    Clamp01(score)
  }

  /** The score is the plain sum the source's statements add up, with the
      classification loop counted once: the parts add up to between 0.1 and 1.0, so
      the clamp never changes the sum. */
  lemma SeverityParts(a: Alert)
    ensures Severity(a)
            == PriorityWeight(a.priority)
               + HighRiskBonus(HighRiskClassifications, Lower(a.classification))
               + (if a.protocol == "TCP" || a.protocol == "UDP" then 0.1 else 0.0)
               + (if PortIn(a.dstPort, SeverityPorts) || PortIn(a.srcPort, SeverityPorts) then 0.2 else 0.0)
    ensures Severity(a) >= 0.1
  {
    HighRiskBonusOnce(HighRiskClassifications, Lower(a.classification));
  }

  // ------------------------------------------------------------------ attack keywords

  const AttackKeywords: seq<string> := [
    "exploit", "backdoor", "trojan", "malware", "shellcode",
    "buffer overflow", "sql injection", "xss", "reconnaissance",
    "scan", "brute force", "denial of service", "dos", "ddos"
  ]

  /** `any(keyword in text for keyword in keywords)`, scanning left to right. */
  function AnyKeyword(keys: seq<string>, text: string): (r: bool)
    decreases |keys|
  {
    |keys| > 0 && (Contains(text, keys[0]) || AnyKeyword(keys[1..], text))
  }

  lemma {:induction false} AnyKeywordMeans(keys: seq<string>, text: string)
    ensures AnyKeyword(keys, text) <==> AnyIn(keys, text)
    decreases |keys|
  {
    if |keys| > 0 {
      AnyKeywordMeans(keys[1..], text);
      if AnyIn(keys, text) && !Contains(text, keys[0]) {
        var i :| 0 <= i < |keys| && Contains(text, keys[i]);
        assert keys[1..][i - 1] == keys[i];
      }
      if AnyIn(keys[1..], text) {
        var i :| 0 <= i < |keys[1..]| && Contains(text, keys[1..][i]);
        assert keys[i + 1] == keys[1..][i];
      }
    }
  }

  /** `_match_attack_patterns`: some attack keyword occurs in the lower-cased
      message and classification. */
  predicate AttackPattern(message: string, classification: string) {
    AnyIn(AttackKeywords, Lower(message + " " + classification))
  }

  /** The left-to-right scan of `any(...)` finds an attack keyword exactly
      when one occurs. */
  lemma AttackPatternScan(message: string, classification: string)
    ensures AttackPattern(message, classification) <==> AnyKeyword(AttackKeywords, Lower(message + " " + classification))
  {
    AnyKeywordMeans(AttackKeywords, Lower(message + " " + classification));
  }

  // ------------------------------------------------------------------ the record

  /** `alert.port or 0` */
  function PortOrZero(p: Option<nat>): nat {
    if p.Some? then p.value else 0
  }

  /** The value `extract_features` stores under key `k`. */
  function FeatureValue(a: Alert, when: Moment, isPrivate: string -> bool, k: Key): Value {
    match k
    case Priority => VInt(a.priority)
    case Protocol => VStr(a.protocol)
    case Sid => VInt(a.sid)
    case Classification => VStr(a.classification)
    case Message => VStr(a.message)
    case HourOfDay => VInt(when.hour)
    case DayOfWeek => VInt(when.weekday)
    case IsWeekend => VBool(when.weekday >= 5)
    case SrcIp => VStr(a.srcIp)
    case SrcPort => VInt(PortOrZero(a.srcPort))
    case SrcIsPrivate => VBool(isPrivate(a.srcIp))
    case SrcPortCategory => VStr(PortCategory(a.srcPort))
    case DstIp => VStr(a.dstIp)
    case DstPort => VInt(PortOrZero(a.dstPort))
    case DstIsPrivate => VBool(isPrivate(a.dstIp))
    case DstPortCategory => VStr(PortCategory(a.dstPort))
    case IsInbound => VBool(Inbound(a.srcIp, a.dstIp, isPrivate))
    case IsOutbound => VBool(Outbound(a.srcIp, a.dstIp, isPrivate))
    case IsLateral => VBool(Lateral(a.srcIp, a.dstIp, isPrivate))
    case SeverityScore => VReal(Severity(a))
    case SuspiciousPort => VBool(IsSuspiciousPort(a.srcPort, a.dstPort))
    case KnownAttackPattern => VBool(AttackPattern(a.message, a.classification))
    case RawAlert => VStr(a.rawAlert)
  }

  /** `extract_features`: every key is present. */
  function ExtractFeatures(a: Alert, when: Moment, isPrivate: string -> bool): (r: FeatureMap)
    ensures r.Keys == FeatureKeys
  {
    map k | k in FeatureKeys :: FeatureValue(a, when, isPrivate, k)
  }

  lemma FeatureAt(a: Alert, when: Moment, isPrivate: string -> bool, k: Key)
    ensures k in ExtractFeatures(a, when, isPrivate)
    ensures ExtractFeatures(a, when, isPrivate)[k] == FeatureValue(a, when, isPrivate, k)
  {
    AllKeys(k);
  }

  /** The three entries an analyzer scores by: the severity and the two
      risk flags. */
  lemma FeatureRisk(a: Alert, when: Moment, isPrivate: string -> bool)
    ensures var r := ExtractFeatures(a, when, isPrivate);
            && SeverityScore in r && r[SeverityScore] == VReal(Severity(a))
            && SuspiciousPort in r && r[SuspiciousPort] == VBool(IsSuspiciousPort(a.srcPort, a.dstPort))
            && KnownAttackPattern in r && r[KnownAttackPattern] == VBool(AttackPattern(a.message, a.classification))
  {
    SeverityFeature(a, when, isPrivate);
    SuspiciousFeature(a, when, isPrivate);
    AttackFeature(a, when, isPrivate);
  }

  lemma SeverityFeature(a: Alert, when: Moment, isPrivate: string -> bool)
    ensures var r := ExtractFeatures(a, when, isPrivate);
            SeverityScore in r && r[SeverityScore] == VReal(Severity(a))
  {
    FeatureAt(a, when, isPrivate, SeverityScore);
  }

  lemma SuspiciousFeature(a: Alert, when: Moment, isPrivate: string -> bool)
    ensures var r := ExtractFeatures(a, when, isPrivate);
            SuspiciousPort in r && r[SuspiciousPort] == VBool(IsSuspiciousPort(a.srcPort, a.dstPort))
  {
    FeatureAt(a, when, isPrivate, SuspiciousPort);
  }

  lemma AttackFeature(a: Alert, when: Moment, isPrivate: string -> bool)
    ensures var r := ExtractFeatures(a, when, isPrivate);
            KnownAttackPattern in r && r[KnownAttackPattern] == VBool(AttackPattern(a.message, a.classification))
  {
    FeatureAt(a, when, isPrivate, KnownAttackPattern);
  }

  /** At most one of the three direction flags of a record is set. */
  lemma FeatureDirections(a: Alert, when: Moment, isPrivate: string -> bool)
    ensures var r := ExtractFeatures(a, when, isPrivate);
            && r[IsInbound].VBool? && r[IsOutbound].VBool? && r[IsLateral].VBool?
            && !(r[IsInbound].b && r[IsOutbound].b) && !(r[IsInbound].b && r[IsLateral].b)
            && !(r[IsOutbound].b && r[IsLateral].b)
  {
    FeatureAt(a, when, isPrivate, IsInbound);
    FeatureAt(a, when, isPrivate, IsOutbound);
    FeatureAt(a, when, isPrivate, IsLateral);
    DirectionExclusive(a.srcIp, a.dstIp, isPrivate);
  }

  /** The severity feature lies in [0, 1]. */
  lemma FeatureSeverityRange(a: Alert, when: Moment, isPrivate: string -> bool)
    ensures var r := ExtractFeatures(a, when, isPrivate);
            r[SeverityScore].VReal? && 0.0 <= r[SeverityScore].r <= 1.0
  {
  }

  /** A missing port is recorded as 0. */
  lemma FeaturePortsDefault(a: Alert, when: Moment, isPrivate: string -> bool)
    ensures var r := ExtractFeatures(a, when, isPrivate);
            && r[SrcPort] == VInt(if a.srcPort.Some? then a.srcPort.value else 0)
            && r[DstPort] == VInt(if a.dstPort.Some? then a.dstPort.value else 0)
  {
  }

  /** The record has the same keys whatever the alert, clock reading or address test. */
  lemma FeatureKeysFixed(a: Alert, b: Alert, w: Moment, v: Moment, p: string -> bool, q: string -> bool)
    ensures ExtractFeatures(a, w, p).Keys == ExtractFeatures(b, v, q).Keys
  {
  }
}
