/** `MLRunnerConfig` (ml_runner/config.py): a record of 23 settings with
    defaults, loaded from secure JSON files and the environment, saved to and
    loaded from a JSON file, and validated.

    The Python dataclass does not check types: `from_file` stores whatever
    JSON value it finds. A configuration is therefore a total map from the
    field names to JSON values, and the places that need a string or a
    number say what happens when the value is something else. */
module RunnerConfig {
  import opened Wrappers

  /** A decoded JSON scalar, as `json.load` produces it. */
  datatype Json = JNull | JBool(b: bool) | JInt(i: int) | JFloat(r: real) | JStr(s: string)

  /** Python truthiness of a JSON scalar. */
  predicate Truthy(v: Json) {
    match v
    case JNull => false
    case JBool(b) => b
    case JInt(i) => i != 0
    case JFloat(r) => r != 0.0
    case JStr(s) => s != ""
  }

  // ----------------------------------------------------------------- fields

  datatype Field =
    | SnortAlertFile | SnortConfigDir | SnortRulesFile | SnortBinary
    | ModelType | ModelName | ApiKey | ApiEndpoint | ConfidenceThreshold
    | MaxAlertsPerBatch | ProcessingInterval | MaxConcurrentAnalyses
    | RuleSidStart | RulePrefix | RuleClasstype | RulePriority
    | LogLevel | LogFile | LogMaxBytes | LogBackupCount
    | AlertHistoryFile | RuleHistoryFile | MaxHistoryDays

  /** The fields in declaration order, which is the order of `__dict__`. */
  const Fields: seq<Field> := [
    SnortAlertFile, SnortConfigDir, SnortRulesFile, SnortBinary,
    ModelType, ModelName, ApiKey, ApiEndpoint, ConfidenceThreshold,
    MaxAlertsPerBatch, ProcessingInterval, MaxConcurrentAnalyses,
    RuleSidStart, RulePrefix, RuleClasstype, RulePriority,
    LogLevel, LogFile, LogMaxBytes, LogBackupCount,
    AlertHistoryFile, RuleHistoryFile, MaxHistoryDays]

  lemma AllFields(f: Field)
    ensures f in Fields
  {
  }

  /** The attribute name of a field. */
  function FieldName(f: Field): string {
    match f
    case SnortAlertFile => "snort_alert_file"
    case SnortConfigDir => "snort_config_dir"
    case SnortRulesFile => "snort_rules_file"
    case SnortBinary => "snort_binary"
    case ModelType => "ml_model_type"
    case ModelName => "ml_model_name"
    case ApiKey => "ml_api_key"
    case ApiEndpoint => "ml_api_endpoint"
    case ConfidenceThreshold => "confidence_threshold"
    case MaxAlertsPerBatch => "max_alerts_per_batch"
    case ProcessingInterval => "processing_interval"
    case MaxConcurrentAnalyses => "max_concurrent_analyses"
    case RuleSidStart => "rule_sid_start"
    case RulePrefix => "rule_prefix"
    case RuleClasstype => "rule_classtype"
    case RulePriority => "rule_priority"
    case LogLevel => "log_level"
    case LogFile => "log_file"
    case LogMaxBytes => "log_max_bytes"
    case LogBackupCount => "log_backup_count"
    case AlertHistoryFile => "alert_history_file"
    case RuleHistoryFile => "rule_history_file"
    case MaxHistoryDays => "max_history_days"
  }

  /** `hasattr(config, name)` restricted to the data fields: the field a name
      denotes, if any. The lookup goes by length first, then by the text. */
  function FieldOf(name: string): Option<Field> {
    match |name|
    case 8 => if name == "log_file" then Some(LogFile) else None
    case 9 => if name == "log_level" then Some(LogLevel) else None
    case 10 => if name == "ml_api_key" then Some(ApiKey) else None
    case 11 => if name == "rule_prefix" then Some(RulePrefix) else None
    case 12 => if name == "snort_binary" then Some(SnortBinary) else None
    case 13 =>
      if name == "ml_model_type" then Some(ModelType)
      else if name == "ml_model_name" then Some(ModelName)
      else if name == "rule_priority" then Some(RulePriority)
      else if name == "log_max_bytes" then Some(LogMaxBytes)
      else None
    case 14 =>
      if name == "rule_sid_start" then Some(RuleSidStart)
      else if name == "rule_classtype" then Some(RuleClasstype)
      else None
    case 15 => if name == "ml_api_endpoint" then Some(ApiEndpoint) else None
    case 16 =>
      if name == "snort_alert_file" then Some(SnortAlertFile)
      else if name == "snort_config_dir" then Some(SnortConfigDir)
      else if name == "snort_rules_file" then Some(SnortRulesFile)
      else if name == "log_backup_count" then Some(LogBackupCount)
      else if name == "max_history_days" then Some(MaxHistoryDays)
      else None
    case 17 => if name == "rule_history_file" then Some(RuleHistoryFile) else None
    case 18 => if name == "alert_history_file" then Some(AlertHistoryFile) else None
    case 19 => if name == "processing_interval" then Some(ProcessingInterval) else None
    case 20 =>
      if name == "confidence_threshold" then Some(ConfidenceThreshold)
      else if name == "max_alerts_per_batch" then Some(MaxAlertsPerBatch)
      else None
    case 23 => if name == "max_concurrent_analyses" then Some(MaxConcurrentAnalyses) else None
    case _ => None
  }

  lemma FieldNamesRead1(f: Field)
    requires f.SnortAlertFile? || f.SnortConfigDir? || f.SnortRulesFile? || f.SnortBinary? || f.ModelType? || f.ModelName?
    ensures FieldOf(FieldName(f)) == Some(f)
  {
  }

  lemma FieldNamesRead2(f: Field)
    requires f.ApiKey? || f.ApiEndpoint? || f.ConfidenceThreshold? || f.MaxAlertsPerBatch? || f.ProcessingInterval? || f.MaxConcurrentAnalyses?
    ensures FieldOf(FieldName(f)) == Some(f)
  {
  }

  lemma FieldNamesRead3(f: Field)
    requires f.RuleSidStart? || f.RulePrefix? || f.RuleClasstype? || f.RulePriority? || f.LogLevel? || f.LogFile?
    ensures FieldOf(FieldName(f)) == Some(f)
  {
  }

  lemma FieldNamesRead4(f: Field)
    requires f.LogMaxBytes? || f.AlertHistoryFile? || f.RuleHistoryFile?
    ensures FieldOf(FieldName(f)) == Some(f)
  {
  }

  lemma FieldNamesRead5(f: Field)
    requires f.LogBackupCount? || f.MaxHistoryDays?
    ensures FieldOf(FieldName(f)) == Some(f)
  {
  }

  /** Every attribute name is recognised as its own field. */
  lemma FieldOfName(f: Field)
    ensures FieldOf(FieldName(f)) == Some(f)
  {
    if f.SnortAlertFile? || f.SnortConfigDir? || f.SnortRulesFile? || f.SnortBinary? || f.ModelType? || f.ModelName? {
      FieldNamesRead1(f);
    } else if f.ApiKey? || f.ApiEndpoint? || f.ConfidenceThreshold? || f.MaxAlertsPerBatch? || f.ProcessingInterval? || f.MaxConcurrentAnalyses? {
      FieldNamesRead2(f);
    } else if f.RuleSidStart? || f.RulePrefix? || f.RuleClasstype? || f.RulePriority? || f.LogLevel? || f.LogFile? {
      FieldNamesRead3(f);
    } else if f.LogMaxBytes? || f.AlertHistoryFile? || f.RuleHistoryFile? {
      FieldNamesRead4(f);
    } else {
      FieldNamesRead5(f);
    }
  }

  // ---------------------------------------------------------------- records

  /** Every field is present, as on a dataclass instance. */
  predicate Complete(c: map<Field, Json>) {
    forall f: Field :: f in c
  }

  type Config = c: map<Field, Json> | Complete(c)
    witness map f: Field |
      f.SnortAlertFile? || f.SnortConfigDir? || f.SnortRulesFile? || f.SnortBinary? || f.ModelType?
      || f.ModelName? || f.ApiKey? || f.ApiEndpoint? || f.ConfidenceThreshold?
      || f.MaxAlertsPerBatch? || f.ProcessingInterval? || f.MaxConcurrentAnalyses?
      || f.RuleSidStart? || f.RulePrefix? || f.RuleClasstype? || f.RulePriority? || f.LogLevel?
      || f.LogFile? || f.LogMaxBytes? || f.LogBackupCount? || f.AlertHistoryFile?
      || f.RuleHistoryFile? || f.MaxHistoryDays?
      :: JNull

  function DefaultValue(f: Field): Json {
    match f
    case SnortAlertFile => JStr("/var/log/snort/alert_fast.txt")
    case SnortConfigDir => JStr("/etc/snort")
    case SnortRulesFile => JStr("/etc/snort/rules/ml_generated.rules")
    case SnortBinary => JStr("/usr/local/bin/snort")
    case ModelType => JStr("openai")
    case ModelName => JStr("gpt-4")
    case ApiKey => JNull
    case ApiEndpoint => JNull
    case ConfidenceThreshold => JFloat(0.98)
    case MaxAlertsPerBatch => JInt(10)
    case ProcessingInterval => JFloat(5.0)
    case MaxConcurrentAnalyses => JInt(3)
    case RuleSidStart => JInt(2000000)
    case RulePrefix => JStr("ML_GENERATED")
    case RuleClasstype => JStr("trojan-activity")
    case RulePriority => JInt(1)
    case LogLevel => JStr("INFO")
    case LogFile => JStr("/var/log/snort/ml_runner.log")
    case LogMaxBytes => JInt(10485760)
    case LogBackupCount => JInt(5)
    case AlertHistoryFile => JStr("/var/log/snort/alert_history.json")
    case RuleHistoryFile => JStr("/var/log/snort/rule_history.json")
    case MaxHistoryDays => JInt(30)
  }

  /** `MLRunnerConfig()`. */
  function Defaults(): (c: Config)
    ensures forall f: Field :: c[f] == DefaultValue(f)
  {
    assert forall f: Field :: f in Fields by {
      forall f: Field ensures f in Fields { AllFields(f); }
    }
    map f | f in Fields :: DefaultValue(f)
  }

  // --------------------------------------------------------- file round trip

  /** The items a JSON object decodes to, in document order. */
  type Items = seq<(string, Json)>

  /** One `setattr` of `from_file`: names that are not fields are ignored. */
  function SetItem(c: Config, item: (string, Json)): Config {
    match FieldOf(item.0)
    case Some(f) => c[f := item.1]
    case None => c
  }

  function Load(c: Config, items: Items): Config
    decreases |items|
  {
    if |items| == 0 then c else Load(SetItem(c, items[0]), items[1..])
  }

  /** `from_file`, given the decoded object. */
  function FromFile(items: Items): Config {
    Load(Defaults(), items)
  }

  /** `to_file`, up to the JSON text: every field under its attribute name,
      in declaration order. */
  function ToFile(c: Config): (items: Items)
    ensures |items| == |Fields|
    ensures forall i :: 0 <= i < |items| ==> items[i] == (FieldName(Fields[i]), c[Fields[i]])
  {
    seq(|Fields|, i requires 0 <= i < |Fields| => (FieldName(Fields[i]), c[Fields[i]]))
  }

  /** The position of a field in declaration order. */
  function FieldIndex(f: Field): (i: nat)
    ensures i < |Fields| && Fields[i] == f
  {
    match f
    case SnortAlertFile => 0
    case SnortConfigDir => 1
    case SnortRulesFile => 2
    case SnortBinary => 3
    case ModelType => 4
    case ModelName => 5
    case ApiKey => 6
    case ApiEndpoint => 7
    case ConfidenceThreshold => 8
    case MaxAlertsPerBatch => 9
    case ProcessingInterval => 10
    case MaxConcurrentAnalyses => 11
    case RuleSidStart => 12
    case RulePrefix => 13
    case RuleClasstype => 14
    case RulePriority => 15
    case LogLevel => 16
    case LogFile => 17
    case LogMaxBytes => 18
    case LogBackupCount => 19
    case AlertHistoryFile => 20
    case RuleHistoryFile => 21
    case MaxHistoryDays => 22
  }

  /** No field is declared twice. */
  lemma FieldIndexed(i: nat)
    requires i < |Fields|
    ensures FieldIndex(Fields[i]) == i
  {
  }

  /** The saved object names every field exactly once, at its declaration
      position, with its value. */
  lemma SavedOnce(c: Config, f: Field)
    ensures ToFile(c)[FieldIndex(f)] == (FieldName(f), c[f])
    ensures forall i :: 0 <= i < |ToFile(c)| ==> (FieldOf(ToFile(c)[i].0) == Some(f) <==> i == FieldIndex(f))
  {
    forall i | 0 <= i < |ToFile(c)|
      ensures FieldOf(ToFile(c)[i].0) == Some(f) <==> i == FieldIndex(f)
    {
      FieldOfName(Fields[i]);
      FieldIndexed(i);
    }
  }

  /** A field that no item names keeps its value through the load. */
  lemma {:induction false} LoadKeeps(c: Config, items: Items, f: Field)
    requires forall i :: 0 <= i < |items| ==> FieldOf(items[i].0) != Some(f)
    ensures Load(c, items)[f] == c[f]
    decreases |items|
  {
    if |items| > 0 {
      LoadKeeps(SetItem(c, items[0]), items[1..], f);
    }
  }

  /** A field takes the value of the last item that names it. */
  lemma {:induction false} LoadLast(c: Config, items: Items, k: nat, f: Field)
    requires k < |items| && FieldOf(items[k].0) == Some(f)
    requires forall i :: k < i < |items| ==> FieldOf(items[i].0) != Some(f)
    ensures Load(c, items)[f] == items[k].1
    decreases |items|
  {
    if k == 0 {
      LoadKeeps(SetItem(c, items[0]), items[1..], f);
    } else {
      LoadLast(SetItem(c, items[0]), items[1..], k - 1, f);
    }
  }

  /** Unknown keys are ignored and absent keys keep their defaults. */
  lemma FromFileFields(items: Items, f: Field)
    ensures (forall i :: 0 <= i < |items| ==> FieldOf(items[i].0) != Some(f)) ==> FromFile(items)[f] == DefaultValue(f)
    ensures forall k :: 0 <= k < |items| && FieldOf(items[k].0) == Some(f)
                        && (forall i :: k < i < |items| ==> FieldOf(items[i].0) != Some(f))
                        ==> FromFile(items)[f] == items[k].1
  {
    if forall i :: 0 <= i < |items| ==> FieldOf(items[i].0) != Some(f) {
      LoadKeeps(Defaults(), items, f);
    }
    forall k | 0 <= k < |items| && FieldOf(items[k].0) == Some(f)
               && (forall i :: k < i < |items| ==> FieldOf(items[i].0) != Some(f))
      ensures FromFile(items)[f] == items[k].1
    {
      LoadLast(Defaults(), items, k, f);
    }
  }

  /** Loading the saved items from position `k` on completes a record that
      already agrees with `c` on the first `k` fields. */
  lemma {:induction false} LoadSaved(d: Config, c: Config, k: nat)
    requires k <= |Fields|
    requires forall j :: 0 <= j < k ==> d[Fields[j]] == c[Fields[j]]
    ensures Load(d, ToFile(c)[k..]) == c
    decreases |Fields| - k
  {
    var items := ToFile(c);
    if k == |Fields| {
      assert items[k..] == [];
      forall f: Field ensures d[f] == c[f] {
        AllFields(f);
      }
    } else {
      FieldOfName(Fields[k]);
      var d' := SetItem(d, items[k]);
      assert d' == d[Fields[k] := c[Fields[k]]];
      assert items[k..][1..] == items[k + 1..];
      LoadSaved(d', c, k + 1);
    }
  }

  /** `to_file` followed by `from_file` restores every field. */
  lemma SaveLoad(c: Config)
    ensures FromFile(ToFile(c)) == c
  {
    assert ToFile(c)[0..] == ToFile(c);
    LoadSaved(Defaults(), c, 0);
  }

  // -------------------------------------------------------------- from_env

  /** The secure configuration files, tried in this order. */
  const SecurePaths: seq<string> := [
    "/etc/snort/ml_runner/api_config.json",
    "/etc/snort/ml_runner/config.json",
    "./ml_runner_config.json"]

  /** What probing one secure path finds: no file, a file that cannot be
      opened or decoded into an object, or the decoded object. */
  datatype Probe = Absent | Unreadable | Loaded(data: map<string, Json>)

  /** Python's `float(text)` and `int(text)` on strings. */
  datatype Parsers = Parsers(toReal: string -> Option<real>, toInt: string -> Option<int>)

  /** `float(v)`: None where Python raises. */
  function FloatOf(v: Json, p: Parsers): Option<real> {
    match v
    case JNull => None
    case JBool(b) => Some(if b then 1.0 else 0.0)
    case JInt(i) => Some(i as real)
    case JFloat(r) => Some(r)
    case JStr(s) => p.toReal(s)
  }

  /** Truncation toward zero, as `int(x)` does on a float. */
  function Truncate(r: real): (i: int)
    ensures r >= 0.0 ==> i as real <= r < i as real + 1.0
    ensures r < 0.0 ==> i as real - 1.0 < r <= i as real
  {
    if r >= 0.0 then r.Floor else -((-r).Floor)
  }

  /** `int(v)`: None where Python raises. */
  function IntOf(v: Json, p: Parsers): Option<int> {
    match v
    case JNull => None
    case JBool(b) => Some(if b then 1 else 0)
    case JInt(i) => Some(i)
    case JFloat(r) => Some(Truncate(r))
    case JStr(s) => p.toInt(s)
  }

  function GetOr(d: map<string, Json>, key: string, default: Json): Json {
    if key in d then d[key] else default
  }

  /** The four settings a secure file supplies as they are. */
  function SecureStrings(c: Config, d: map<string, Json>): (r: Config)
    ensures r[ApiKey] == GetOr(d, "ml_api_key", c[ApiKey])
    ensures r[ModelType] == GetOr(d, "ml_model_type", c[ModelType])
    ensures r[ModelName] == GetOr(d, "ml_model_name", c[ModelName])
    ensures r[ApiEndpoint] == GetOr(d, "ml_api_endpoint", c[ApiEndpoint])
  {
    c[ApiKey := GetOr(d, "ml_api_key", c[ApiKey])]
     [ModelType := GetOr(d, "ml_model_type", c[ModelType])]
     [ModelName := GetOr(d, "ml_model_name", c[ModelName])]
     [ApiEndpoint := GetOr(d, "ml_api_endpoint", c[ApiEndpoint])]
  }

  /** One converted numeric setting: the record so far and whether the
      conversion succeeded. */
  function SecureReal(c: Config, d: map<string, Json>, key: string, f: Field, p: Parsers): (r: (Config, bool))
    ensures r.0 == c || r.0 == c[f := r.0[f]]
    ensures r.1 <==> key !in d || FloatOf(d[key], p).Some?
    ensures r.1 && key in d ==> r.0[f] == JFloat(FloatOf(d[key], p).value)
  {
    if key !in d then (c, true)
    else match FloatOf(d[key], p)
      case Some(x) => (c[f := JFloat(x)], true)
      case None => (c, false)
  }

  function SecureInt(c: Config, d: map<string, Json>, key: string, f: Field, p: Parsers): (r: (Config, bool))
    ensures r.0 == c || r.0 == c[f := r.0[f]]
    ensures r.1 <==> key !in d || IntOf(d[key], p).Some?
    ensures r.1 && key in d ==> r.0[f] == JInt(IntOf(d[key], p).value)
  {
    if key !in d then (c, true)
    else match IntOf(d[key], p)
      case Some(i) => (c[f := JInt(i)], true)
      case None => (c, false)
  }

  /** The seven settings `from_env` reads, from a secure file or from the
      environment; it leaves every other setting at its default. */
  predicate LoadedField(f: Field) {
    || f.ApiKey? || f.ModelType? || f.ModelName? || f.ApiEndpoint?
    || f.ConfidenceThreshold? || f.MaxAlertsPerBatch? || f.ProcessingInterval?
  }

  /** `key` is absent, or `float(...)` of its value does not raise. */
  predicate RealOk(d: map<string, Json>, key: string, p: Parsers) {
    key in d ==> FloatOf(d[key], p).Some?
  }

  /** `key` is absent, or `int(...)` of its value does not raise. */
  predicate IntOk(d: map<string, Json>, key: string, p: Parsers) {
    key in d ==> IntOf(d[key], p).Some?
  }

  /** Loading one decoded secure file: the record afterwards, and whether the
      whole load succeeded. A failed conversion stops the load, but what was
      assigned before it stays assigned: the four string settings always
      take the file's values, and a numeric setting takes its converted value
      when every conversion before it, and its own, went through. */
  function ApplySecure(c: Config, d: map<string, Json>, p: Parsers): (r: (Config, bool))
    ensures r.0[ApiKey] == GetOr(d, "ml_api_key", c[ApiKey])
    ensures r.0[ModelType] == GetOr(d, "ml_model_type", c[ModelType])
    ensures r.0[ModelName] == GetOr(d, "ml_model_name", c[ModelName])
    ensures r.0[ApiEndpoint] == GetOr(d, "ml_api_endpoint", c[ApiEndpoint])
    ensures r.1 <==> && RealOk(d, "confidence_threshold", p)
                     && IntOk(d, "max_alerts_per_batch", p)
                     && RealOk(d, "processing_interval", p)
    ensures r.0[ConfidenceThreshold]
              == if "confidence_threshold" in d && RealOk(d, "confidence_threshold", p)
                 then JFloat(FloatOf(d["confidence_threshold"], p).value)
                 else c[ConfidenceThreshold]
    ensures r.0[MaxAlertsPerBatch]
              == if RealOk(d, "confidence_threshold", p)
                    && "max_alerts_per_batch" in d && IntOk(d, "max_alerts_per_batch", p)
                 then JInt(IntOf(d["max_alerts_per_batch"], p).value)
                 else c[MaxAlertsPerBatch]
    ensures r.0[ProcessingInterval]
              == if RealOk(d, "confidence_threshold", p) && IntOk(d, "max_alerts_per_batch", p)
                    && "processing_interval" in d && RealOk(d, "processing_interval", p)
                 then JFloat(FloatOf(d["processing_interval"], p).value)
                 else c[ProcessingInterval]
    ensures forall f: Field :: !LoadedField(f) ==> r.0[f] == c[f]
  {
    var c1 := SecureStrings(c, d);
    var (c2, ok2) := SecureReal(c1, d, "confidence_threshold", ConfidenceThreshold, p);
    if !ok2 then (c2, false) else
    var (c3, ok3) := SecureInt(c2, d, "max_alerts_per_batch", MaxAlertsPerBatch, p);
    if !ok3 then (c3, false) else
    SecureReal(c3, d, "processing_interval", ProcessingInterval, p)
  }

  /** The secure-file loop: the first path that loads completely ends it;
      absent, unreadable and partly loaded files move on to the next path. */
  function SecureStage(paths: seq<string>, c: Config, probe: string -> Probe, p: Parsers): Config
    decreases |paths|
  {
    if |paths| == 0 then c
    else match probe(paths[0])
      case Loaded(d) =>
        var loaded := ApplySecure(c, d, p);
        if loaded.1 then loaded.0 else SecureStage(paths[1..], loaded.0, probe, p)
      case _ => SecureStage(paths[1..], c, probe, p)
  }

  /** With no loadable file the record is unchanged. */
  lemma {:induction false} NoSecureFile(paths: seq<string>, c: Config, probe: string -> Probe, p: Parsers)
    requires forall i :: 0 <= i < |paths| ==> !probe(paths[i]).Loaded?
    ensures SecureStage(paths, c, probe, p) == c
    decreases |paths|
  {
    if |paths| > 0 {
      NoSecureFile(paths[1..], c, probe, p);
    }
  }

  /** A path that does not load is passed over. */
  lemma SecureSkip(paths: seq<string>, c: Config, probe: string -> Probe, p: Parsers)
    requires |paths| > 0 && !probe(paths[0]).Loaded?
    ensures SecureStage(paths, c, probe, p) == SecureStage(paths[1..], c, probe, p)
  {
  }

  /** A path that loads completely ends the loop. */
  lemma SecureHit(paths: seq<string>, c: Config, probe: string -> Probe, p: Parsers, d: map<string, Json>)
    requires |paths| > 0 && probe(paths[0]) == Loaded(d) && ApplySecure(c, d, p).1
    ensures SecureStage(paths, c, probe, p) == ApplySecure(c, d, p).0
  {
  }

  lemma {:induction false} FirstLoaded(paths: seq<string>, k: nat, c: Config, probe: string -> Probe, p: Parsers,
                                       d: map<string, Json>)
    requires k < |paths| && probe(paths[k]) == Loaded(d) && ApplySecure(c, d, p).1
    requires forall i :: 0 <= i < k ==> !probe(paths[i]).Loaded?
    ensures SecureStage(paths, c, probe, p) == ApplySecure(c, d, p).0
    decreases k
  {
    if k == 0 {
      SecureHit(paths, c, probe, p, d);
    } else {
      assert paths[1..][k - 1] == paths[k];
      FirstLoaded(paths[1..], k - 1, c, probe, p, d);
      SecureSkip(paths, c, probe, p);
    }
  }

  /** The first file that loads completely, after files that were absent or
      unreadable, decides the secure stage; later paths are not read. */
  lemma FirstSecureWins(paths: seq<string>, k: nat, c: Config, probe: string -> Probe, p: Parsers)
    requires k < |paths| && probe(paths[k]).Loaded?
    requires ApplySecure(c, probe(paths[k]).data, p).1
    requires forall i :: 0 <= i < k ==> !probe(paths[i]).Loaded?
    ensures SecureStage(paths, c, probe, p) == ApplySecure(c, probe(paths[k]).data, p).0
  {
    FirstLoaded(paths, k, c, probe, p, probe(paths[k]).data);
  }

  /** `os.getenv(name, default)` for a string setting. */
  function EnvOr(env: map<string, string>, name: string, default: Json): Json {
    if name in env then JStr(env[name]) else default
  }

  predicate EnvSet(env: map<string, string>, name: string) {
    name in env && env[name] != ""
  }

  datatype ConfigError =
    | LogDirMissing(dir: string)
    | ConfigDirMissing(dir: string)
    | BinaryMissing(path: string)
    | ThresholdOutOfRange(value: real)
    | ApiKeyRequired
    | CannotCreate(dir: string)
    | WrongType(field: Field)
    | BadNumber(name: string, text: string)

  function EnvReal(c: Config, env: map<string, string>, name: string, f: Field, p: Parsers): Result<Config, ConfigError> {
    if !EnvSet(env, name) then Success(c)
    else match p.toReal(env[name])
      case Some(r) => Success(c[f := JFloat(r)])
      case None => Failure(BadNumber(name, env[name]))
  }

  function EnvInt(c: Config, env: map<string, string>, name: string, f: Field, p: Parsers): Result<Config, ConfigError> {
    if !EnvSet(env, name) then Success(c)
    else match p.toInt(env[name])
      case Some(i) => Success(c[f := JInt(i)])
      case None => Failure(BadNumber(name, env[name]))
  }

  /** The environment stage: a present variable replaces a string setting
      (even when empty); a numeric variable applies only when non-empty, and
      one that does not parse raises. */
  function EnvStage(c: Config, env: map<string, string>, p: Parsers): (r: Result<Config, ConfigError>)
    ensures r.Success? ==>
      && r.value[ApiKey] == EnvOr(env, "ML_API_KEY", c[ApiKey])
      && r.value[ModelType] == EnvOr(env, "ML_MODEL_TYPE", c[ModelType])
      && r.value[ModelName] == EnvOr(env, "ML_MODEL_NAME", c[ModelName])
      && r.value[ApiEndpoint] == EnvOr(env, "ML_API_ENDPOINT", c[ApiEndpoint])
    ensures r.Success? ==>
      && (!EnvSet(env, "CONFIDENCE_THRESHOLD") ==> r.value[ConfidenceThreshold] == c[ConfidenceThreshold])
      && (!EnvSet(env, "MAX_ALERTS_PER_BATCH") ==> r.value[MaxAlertsPerBatch] == c[MaxAlertsPerBatch])
      && (!EnvSet(env, "PROCESSING_INTERVAL") ==> r.value[ProcessingInterval] == c[ProcessingInterval])
    ensures r.Success? && EnvSet(env, "CONFIDENCE_THRESHOLD") ==>
              p.toReal(env["CONFIDENCE_THRESHOLD"]).Some?
              && r.value[ConfidenceThreshold] == JFloat(p.toReal(env["CONFIDENCE_THRESHOLD"]).value)
    ensures r.Success? && EnvSet(env, "MAX_ALERTS_PER_BATCH") ==>
              p.toInt(env["MAX_ALERTS_PER_BATCH"]).Some?
              && r.value[MaxAlertsPerBatch] == JInt(p.toInt(env["MAX_ALERTS_PER_BATCH"]).value)
    ensures r.Success? && EnvSet(env, "PROCESSING_INTERVAL") ==>
              p.toReal(env["PROCESSING_INTERVAL"]).Some?
              && r.value[ProcessingInterval] == JFloat(p.toReal(env["PROCESSING_INTERVAL"]).value)
    ensures r.Success? ==> forall f: Field :: !LoadedField(f) ==> r.value[f] == c[f]
    ensures r.Failure? <==>
              || (EnvSet(env, "CONFIDENCE_THRESHOLD") && p.toReal(env["CONFIDENCE_THRESHOLD"]).None?)
              || (EnvSet(env, "MAX_ALERTS_PER_BATCH") && p.toInt(env["MAX_ALERTS_PER_BATCH"]).None?)
              || (EnvSet(env, "PROCESSING_INTERVAL") && p.toReal(env["PROCESSING_INTERVAL"]).None?)
  {
    var c1 := c[ApiKey := EnvOr(env, "ML_API_KEY", c[ApiKey])]
               [ModelType := EnvOr(env, "ML_MODEL_TYPE", c[ModelType])]
               [ModelName := EnvOr(env, "ML_MODEL_NAME", c[ModelName])]
               [ApiEndpoint := EnvOr(env, "ML_API_ENDPOINT", c[ApiEndpoint])];
    var c2 :- EnvReal(c1, env, "CONFIDENCE_THRESHOLD", ConfidenceThreshold, p);
    var c3 :- EnvInt(c2, env, "MAX_ALERTS_PER_BATCH", MaxAlertsPerBatch, p);
    EnvReal(c3, env, "PROCESSING_INTERVAL", ProcessingInterval, p)
  }

  /** `from_env`: defaults, then the secure files, then the environment. */
  function FromEnv(probe: string -> Probe, env: map<string, string>, p: Parsers): Result<Config, ConfigError> {
    EnvStage(SecureStage(SecurePaths, Defaults(), probe, p), env, p)
  }

  /** Precedence for the API key: the environment over the first complete
      secure file over the default. */
  lemma KeyPrecedence(probe: string -> Probe, env: map<string, string>, p: Parsers, k: nat)
    requires FromEnv(probe, env, p).Success?
    requires k < |SecurePaths| && probe(SecurePaths[k]).Loaded?
    requires ApplySecure(Defaults(), probe(SecurePaths[k]).data, p).1
    requires forall i :: 0 <= i < k ==> !probe(SecurePaths[i]).Loaded?
    ensures var d := probe(SecurePaths[k]).data;
            FromEnv(probe, env, p).value[ApiKey]
              == if "ML_API_KEY" in env then JStr(env["ML_API_KEY"])
                 else if "ml_api_key" in d then d["ml_api_key"]
                 else JNull
  {
    var d := probe(SecurePaths[k]).data;
    FirstSecureWins(SecurePaths, k, Defaults(), probe, p);
    var c := SecureStage(SecurePaths, Defaults(), probe, p);
    SecureKey(Defaults(), d, p);
    DefaultKey();
    EnvKey(c, env, p);
  }

  /** Precedence for a numeric setting, the confidence threshold: a non-empty
      environment variable over the first complete secure file over the
      default 0.98. */
  lemma ThresholdPrecedence(probe: string -> Probe, env: map<string, string>, p: Parsers, k: nat)
    requires FromEnv(probe, env, p).Success?
    requires k < |SecurePaths| && probe(SecurePaths[k]).Loaded?
    requires ApplySecure(Defaults(), probe(SecurePaths[k]).data, p).1
    requires forall i :: 0 <= i < k ==> !probe(SecurePaths[i]).Loaded?
    ensures var d := probe(SecurePaths[k]).data;
            var v := FromEnv(probe, env, p).value[ConfidenceThreshold];
            && (EnvSet(env, "CONFIDENCE_THRESHOLD") ==>
                  p.toReal(env["CONFIDENCE_THRESHOLD"]).Some?
                  && v == JFloat(p.toReal(env["CONFIDENCE_THRESHOLD"]).value))
            && (!EnvSet(env, "CONFIDENCE_THRESHOLD") && "confidence_threshold" in d ==>
                  FloatOf(d["confidence_threshold"], p).Some?
                  && v == JFloat(FloatOf(d["confidence_threshold"], p).value))
            && (!EnvSet(env, "CONFIDENCE_THRESHOLD") && "confidence_threshold" !in d ==> v == JFloat(0.98))
  {
    var d := probe(SecurePaths[k]).data;
    FirstSecureWins(SecurePaths, k, Defaults(), probe, p);
    var c := SecureStage(SecurePaths, Defaults(), probe, p);
    SecureThreshold(Defaults(), d, p);
    DefaultThreshold();
    EnvThreshold(c, env, p);
  }

  lemma SecureThreshold(c: Config, d: map<string, Json>, p: Parsers)
    requires ApplySecure(c, d, p).1
    ensures "confidence_threshold" in d ==>
              FloatOf(d["confidence_threshold"], p).Some?
              && ApplySecure(c, d, p).0[ConfidenceThreshold] == JFloat(FloatOf(d["confidence_threshold"], p).value)
    ensures "confidence_threshold" !in d ==> ApplySecure(c, d, p).0[ConfidenceThreshold] == c[ConfidenceThreshold]
  {
  }

  lemma DefaultThreshold()
    ensures Defaults()[ConfidenceThreshold] == JFloat(0.98)
  {
  }

  lemma EnvThreshold(c: Config, env: map<string, string>, p: Parsers)
    requires EnvStage(c, env, p).Success?
    ensures EnvSet(env, "CONFIDENCE_THRESHOLD") ==>
              p.toReal(env["CONFIDENCE_THRESHOLD"]).Some?
              && EnvStage(c, env, p).value[ConfidenceThreshold] == JFloat(p.toReal(env["CONFIDENCE_THRESHOLD"]).value)
    ensures !EnvSet(env, "CONFIDENCE_THRESHOLD") ==> EnvStage(c, env, p).value[ConfidenceThreshold] == c[ConfidenceThreshold]
  {
  }

  lemma SecureKey(c: Config, d: map<string, Json>, p: Parsers)
    ensures ApplySecure(c, d, p).0[ApiKey] == GetOr(d, "ml_api_key", c[ApiKey])
  {
  }

  lemma DefaultKey()
    ensures Defaults()[ApiKey] == JNull
  {
  }

  lemma EnvKey(c: Config, env: map<string, string>, p: Parsers)
    requires EnvStage(c, env, p).Success?
    ensures EnvStage(c, env, p).value[ApiKey] == EnvOr(env, "ML_API_KEY", c[ApiKey])
  {
  }

  /** Without secure files and environment variables, `from_env` gives the
      defaults. */
  lemma FromEnvDefaults(probe: string -> Probe, p: Parsers)
    requires forall i :: 0 <= i < |SecurePaths| ==> !probe(SecurePaths[i]).Loaded?
    ensures FromEnv(probe, map[], p) == Success(Defaults())
  {
    NoSecureFile(SecurePaths, Defaults(), probe, p);
    EmptyEnvironment(Defaults(), p);
  }

  /** An empty environment changes nothing. */
  lemma EmptyEnvironment(c: Config, p: Parsers)
    ensures EnvStage(c, map[], p) == Success(c)
  {
    assert c[ApiKey := c[ApiKey]][ModelType := c[ModelType]][ModelName := c[ModelName]][ApiEndpoint := c[ApiEndpoint]] == c;
  }

  // -------------------------------------------------------------- validate

  /** `os.path.dirname`: the text before the last `/`, without trailing
      slashes unless it consists of slashes only. */
  function SlashEnd(p: string): (n: nat)
    ensures n <= |p|
    ensures n > 0 ==> p[n - 1] == '/'
    ensures forall i :: n <= i < |p| ==> p[i] != '/'
  {
    if |p| == 0 then 0
    else if p[|p| - 1] == '/' then |p|
    else SlashEnd(p[..|p| - 1])
  }

  function RStripSlashes(s: string): (r: string)
    ensures r <= s
  {
    if |s| > 0 && s[|s| - 1] == '/' then RStripSlashes(s[..|s| - 1]) else s
  }

  predicate AllSlashes(s: string) {
    forall i :: 0 <= i < |s| ==> s[i] == '/'
  }

  function Dirname(p: string): (r: string)
    ensures r <= p
  {
    var head := p[..SlashEnd(p)];
    if head != "" && !AllSlashes(head) then RStripSlashes(head) else head
  }

  /** The directory of `dir/name` is `dir`. */
  lemma DirnameJoin(dir: string, name: string)
    requires dir != "" && dir[|dir| - 1] != '/'
    requires forall i :: 0 <= i < |name| ==> name[i] != '/'
    ensures Dirname(dir + "/" + name) == dir
  {
    var p := dir + "/" + name;
    var n := SlashEnd(p);
    assert p[|dir|] == '/';
    assert forall i :: |dir| < i < |p| ==> p[i] == name[i - |dir| - 1];
    assert n == |dir| + 1;
    var head := p[..n];
    assert head == dir + "/";
    assert !AllSlashes(head) by {
      assert head[|dir| - 1] != '/';
    }
    assert head[..|head| - 1] == dir;
    assert RStripSlashes(dir) == dir;
    assert RStripSlashes(head) == RStripSlashes(dir);
  }

  function PathField(c: Config, f: Field): Result<string, ConfigError> {
    if c[f].JStr? then Success(c[f].s) else Failure(WrongType(f))
  }

  function NumberField(c: Config, f: Field): (r: Result<real, ConfigError>)
    ensures r.Success? <==> c[f].JBool? || c[f].JInt? || c[f].JFloat?
  {
    match c[f]
    case JBool(b) => Success(if b then 1.0 else 0.0)
    case JInt(i) => Success(i as real)
    case JFloat(r) => Success(r)
    case _ => Failure(WrongType(f))
  }

  /** The directories `validate` creates, in order. */
  const CreatedDirs: seq<Field> := [SnortRulesFile, LogFile, AlertHistoryFile]

  function MakeDirs(c: Config, fs: seq<Field>, makeDirs: string -> bool): Result<(), ConfigError>
    decreases |fs|
  {
    if |fs| == 0 then Success(())
    else
      var path :- PathField(c, fs[0]);
      if !makeDirs(Dirname(path)) then Failure(CannotCreate(Dirname(path)))
      else MakeDirs(c, fs[1..], makeDirs)
  }

  /** The three location checks `validate` starts with. */
  predicate PathsPresent(c: Config, present: string -> bool) {
    && c[SnortAlertFile].JStr? && present(Dirname(c[SnortAlertFile].s))
    && c[SnortConfigDir].JStr? && present(c[SnortConfigDir].s)
    && c[SnortBinary].JStr? && present(c[SnortBinary].s)
  }

  predicate ThresholdInRange(c: Config) {
    NumberField(c, ConfidenceThreshold).Success?
    && 0.0 <= NumberField(c, ConfidenceThreshold).value <= 1.0
  }

  predicate KeyPresent(c: Config) {
    !(c[ModelType] == JStr("openai") && !Truthy(c[ApiKey]))
  }

  predicate DirsCreated(c: Config, makeDirs: string -> bool) {
    forall i :: 0 <= i < |CreatedDirs| ==>
      c[CreatedDirs[i]].JStr? && makeDirs(Dirname(c[CreatedDirs[i]].s))
  }

  lemma {:induction false} MakeDirsMeans(c: Config, fs: seq<Field>, makeDirs: string -> bool)
    ensures MakeDirs(c, fs, makeDirs).Success? <==>
              forall i :: 0 <= i < |fs| ==> c[fs[i]].JStr? && makeDirs(Dirname(c[fs[i]].s))
    decreases |fs|
  {
    if |fs| > 0 {
      MakeDirsMeans(c, fs[1..], makeDirs);
      assert forall i :: 1 <= i < |fs| ==> fs[i] == fs[1..][i - 1];
    }
  }

  /** `validate`, with the file system as two oracles: whether a path
      exists, and whether `os.makedirs(dir, exist_ok=True)` succeeds. */
  function Validate(c: Config, present: string -> bool, makeDirs: string -> bool): (r: Result<(), ConfigError>)
    ensures r.Failure? && r.error.LogDirMissing? <==>
              c[SnortAlertFile].JStr? && !present(Dirname(c[SnortAlertFile].s))
    ensures r.Failure? && r.error.ConfigDirMissing? <==>
              && c[SnortAlertFile].JStr? && present(Dirname(c[SnortAlertFile].s))
              && c[SnortConfigDir].JStr? && !present(c[SnortConfigDir].s)
    ensures r.Failure? && r.error.BinaryMissing? <==>
              && c[SnortAlertFile].JStr? && present(Dirname(c[SnortAlertFile].s))
              && c[SnortConfigDir].JStr? && present(c[SnortConfigDir].s)
              && c[SnortBinary].JStr? && !present(c[SnortBinary].s)
    ensures r.Failure? && r.error.ThresholdOutOfRange? <==>
              PathsPresent(c, present) && NumberField(c, ConfidenceThreshold).Success? && !ThresholdInRange(c)
    ensures r == Failure(ApiKeyRequired) <==> PathsPresent(c, present) && ThresholdInRange(c) && !KeyPresent(c)
    ensures r.Failure? && r.error.CannotCreate? ==> PathsPresent(c, present) && ThresholdInRange(c) && KeyPresent(c)
  {
    var alertFile :- PathField(c, SnortAlertFile);
    if !present(Dirname(alertFile)) then Failure(LogDirMissing(Dirname(alertFile))) else
    var configDir :- PathField(c, SnortConfigDir);
    if !present(configDir) then Failure(ConfigDirMissing(configDir)) else
    var binary :- PathField(c, SnortBinary);
    if !present(binary) then Failure(BinaryMissing(binary)) else
    var t :- NumberField(c, ConfidenceThreshold);
    if t < 0.0 || t > 1.0 then Failure(ThresholdOutOfRange(t))
    else if c[ModelType] == JStr("openai") && !Truthy(c[ApiKey]) then Failure(ApiKeyRequired)
    else MakeDirs(c, CreatedDirs, makeDirs)
  }

  /** `validate` passes exactly when every check passes. */
  lemma ValidateAccepts(c: Config, present: string -> bool, makeDirs: string -> bool)
    ensures Validate(c, present, makeDirs).Success? <==>
              PathsPresent(c, present) && ThresholdInRange(c) && KeyPresent(c) && DirsCreated(c, makeDirs)
  {
    MakeDirsMeans(c, CreatedDirs, makeDirs);
  }

  /** The bounds of the threshold are inclusive, and a local model needs no
      key. */
  lemma ThresholdBoundsAccepted(c: Config, present: string -> bool, makeDirs: string -> bool)
    requires PathsPresent(c, present) && DirsCreated(c, makeDirs)
    requires c[ConfidenceThreshold] == JFloat(0.0) || c[ConfidenceThreshold] == JFloat(1.0) || c[ConfidenceThreshold] == JInt(1)
    requires c[ModelType] == JStr("local")
    ensures Validate(c, present, makeDirs).Success?
  {
    ValidateAccepts(c, present, makeDirs);
  }

  /** The saved-and-loaded custom record of the configuration test keeps its
      0.95 threshold and its `local` model type. */
  lemma CustomRoundTrip()
    ensures var c := Defaults()[ConfidenceThreshold := JFloat(0.95)][ModelType := JStr("local")];
            && FromFile(ToFile(c))[ConfidenceThreshold] == JFloat(0.95)
            && FromFile(ToFile(c))[ModelType] == JStr("local")
  {
    SaveLoad(Defaults()[ConfidenceThreshold := JFloat(0.95)][ModelType := JStr("local")]);
  }
}
