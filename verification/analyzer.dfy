/** The analyzers (ml_runner/ml_analyzer.py) without the network: the local
    mock scorer, the sequential batch of the base class, the concurrent
    batch of the manager, the factory, and the retry-and-fallback control
    flow of the remote analyzer, whose API calls are an oracle. */
module Analyzer {
  import opened Wrappers
  import opened AlertParser
  import opened Features
  import opened RunnerConfig

  /** `MLAnalysisResult` without its creation time. */
  datatype Analysis = Analysis(
    confidence: real,
    classification: string,
    description: string,
    action: string,
    context: map<string, Value>,
    suggestion: Option<string>)

  /** `analysis_count` and `error_count` of an analyzer. */
  datatype Counters = Counters(analyses: nat, errors: nat)

  const NoCounts := Counters(0, 0)

  /** What one analysis call ends in: a result or a raised exception. */
  type Outcome = Result<Analysis, string>

  /** Python truthiness of a feature value. */
  predicate ValueTruthy(v: Value) {
    match v
    case VInt(i) => i != 0
    case VReal(r) => r != 0.0
    case VBool(b) => b
    case VStr(s) => s != ""
  }

  /** `features.get(k)` is truthy. */
  predicate Flag(features: FeatureMap, k: Key) {
    k in features && ValueTruthy(features[k])
  }

  /** A numeric feature value as a number; bool counts as 0 or 1. */
  function NumberOf(v: Value): Option<real> {
    match v
    case VInt(i) => Some(i as real)
    case VReal(r) => Some(r)
    case VBool(b) => Some(if b then 1.0 else 0.0)
    case VStr(_) => None
  }

  /** `features.get('severity_score', 0.5)`. */
  function StartConfidence(features: FeatureMap): Value {
    if SeverityScore in features then features[SeverityScore] else VReal(0.5)
  }

  function Min(x: real, y: real): real {
    if x <= y then x else y
  }

  // ------------------------------------------------------------ local model

  /** `LocalMLAnalyzer.analyze_alert`: the severity as confidence, raised by
      0.3 and capped at 1.0 when a suspicious port or a known attack pattern
      was seen. A string severity makes the call fail. */
  function LocalAnalyze(a: Alert, features: FeatureMap, st: Counters): (r: Result<(Analysis, Counters), string>)
    ensures r.Success? <==> NumberOf(StartConfidence(features)).Some?
    ensures r.Success? ==>
      var (res, st') := r.value;
      var c0 := NumberOf(StartConfidence(features)).value;
      && res.classification == "mock_analysis" && res.action == "monitor"
      && res.suggestion == None
      && st' == Counters(st.analyses + 1, st.errors)
      && (Flag(features, SuspiciousPort) || Flag(features, KnownAttackPattern) ==> res.confidence == Min(c0 + 0.3, 1.0))
      && (!(Flag(features, SuspiciousPort) || Flag(features, KnownAttackPattern)) ==> res.confidence == c0)
    ensures r.Failure? ==> r.error == "TypeError"
  {
    var c0 :- match NumberOf(StartConfidence(features))
      case Some(x) => Success(x)
      case None => Failure("TypeError");
    var c := if Flag(features, SuspiciousPort) || Flag(features, KnownAttackPattern) then Min(c0 + 0.3, 1.0) else c0;
    var res := Analysis(c, "mock_analysis", "Mock analysis of alert: " + a.message, "monitor",
                        map["mock" := VBool(true), "features_count" := VInt(|features|)], None);
    Success((res, Counters(st.analyses + 1, st.errors)))
  }

  /** On an extracted feature record the local model never fails: the
      confidence is the alert's severity, raised by 0.3 up to at most 1.0
      when one of its ports is suspicious or its text names an attack. */
  lemma LocalOnExtracted(a: Alert, when: Moment, isPrivate: string -> bool, st: Counters)
    ensures var r := LocalAnalyze(a, ExtractFeatures(a, when, isPrivate), st);
            && r.Success?
            && r.value.0.confidence
                 == (if IsSuspiciousPort(a.srcPort, a.dstPort) || AttackPattern(a.message, a.classification)
                     then Min(Severity(a) + 0.3, 1.0) else Severity(a))
            && 0.0 <= r.value.0.confidence <= 1.0
  {
    var f := ExtractFeatures(a, when, isPrivate);
    FeatureRisk(a, when, isPrivate);
    LocalOnRecord(a, f, Severity(a), IsSuspiciousPort(a.srcPort, a.dstPort), AttackPattern(a.message, a.classification), st);
  }

  /** The local model on a record whose severity is a number in [0, 1] and
      whose two flags are booleans. */
  lemma LocalOnRecord(a: Alert, f: FeatureMap, sev: real, suspicious: bool, attack: bool, st: Counters)
    requires 0.0 <= sev <= 1.0
    requires SeverityScore in f && f[SeverityScore] == VReal(sev)
    requires SuspiciousPort in f && f[SuspiciousPort] == VBool(suspicious)
    requires KnownAttackPattern in f && f[KnownAttackPattern] == VBool(attack)
    ensures var r := LocalAnalyze(a, f, st);
            && r.Success?
            && r.value.0.confidence == (if suspicious || attack then Min(sev + 0.3, 1.0) else sev)
            && 0.0 <= r.value.0.confidence <= 1.0
  {
    assert StartConfidence(f) == VReal(sev);
    assert Flag(f, SuspiciousPort) == suspicious;
  }

  // ------------------------------------------------------------- batches

  /** The results of the calls that returned, in call order. */
  function Successes(outs: seq<Outcome>): (r: seq<Analysis>)
    ensures |r| <= |outs|
    decreases |outs|
  {
    if |outs| == 0 then []
    else
      var rest := Successes(outs[..|outs| - 1]);
      match outs[|outs| - 1]
      case Success(x) => rest + [x]
      case Failure(_) => rest
  }

  /** The number of calls that raised. */
  function Failures(outs: seq<Outcome>): nat
    decreases |outs|
  {
    if |outs| == 0 then 0
    else Failures(outs[..|outs| - 1]) + (if outs[|outs| - 1].Failure? then 1 else 0)
  }

  /** Every call either returns a result or raises. */
  lemma {:induction false} OutcomesPartition(outs: seq<Outcome>)
    ensures |Successes(outs)| + Failures(outs) == |outs|
    decreases |outs|
  {
    if |outs| > 0 {
      OutcomesPartition(outs[..|outs| - 1]);
    }
  }

  /** `MLAnalysisManager.analyze_alerts_batch`: `gather` with
      `return_exceptions=True` keeps one entry per input, in input order,
      whether it is a result or an exception. */
  function ManagerBatch(inputs: seq<(Alert, FeatureMap)>, analyze: (Alert, FeatureMap) -> Outcome): (r: seq<Outcome>)
    ensures |r| == |inputs|
    ensures forall i :: 0 <= i < |inputs| ==> r[i] == analyze(inputs[i].0, inputs[i].1)
  {
    seq(|inputs|, i requires 0 <= i < |inputs| => analyze(inputs[i].0, inputs[i].1))
  }

  /** One call of an analyzer's `analyze_alert`, given its counters before
      the call: what the call ends in, and the counters after it. Each
      analyzer updates its own counters inside the call. */
  type Call = (Alert, FeatureMap, Counters) -> (Outcome, Counters)

  /** The counters once the batch has seen an outcome: an exception counts
      as one more error. */
  function Charged(o: Outcome, c: Counters): (c': Counters)
    ensures c'.analyses == c.analyses
    ensures c'.errors == c.errors + (if o.Failure? then 1 else 0)
  {
    if o.Failure? then c.(errors := c.errors + 1) else c
  }

  /** Reference for the base batch: the outcomes of calling the analyzer on
      each input in turn, and the counters as the calls and the batch's own
      error count leave them. */
  function InTurn(inputs: seq<(Alert, FeatureMap)>, call: Call, st: Counters): (r: (seq<Outcome>, Counters))
    ensures |r.0| == |inputs|
    decreases |inputs|
  {
    if |inputs| == 0 then ([], st)
    else
      var n := |inputs| - 1;
      var (outs, c) := InTurn(inputs[..n], call, st);
      var (o, c') := call(inputs[n].0, inputs[n].1, c);
      (outs + [o], Charged(o, c'))
  }

  /** One more input is one more call, on the counters the earlier calls left. */
  lemma InTurnStep(inputs: seq<(Alert, FeatureMap)>, i: nat, call: Call, st: Counters)
    requires i < |inputs|
    ensures var (outs, c) := InTurn(inputs[..i], call, st);
            var (o, c') := call(inputs[i].0, inputs[i].1, c);
            InTurn(inputs[..i + 1], call, st) == (outs + [o], Charged(o, c'))
  {
    assert inputs[..i + 1][..i] == inputs[..i];
  }

  /** One more outcome adds its result, if it has one, at the end. */
  lemma SuccessesStep(outs: seq<Outcome>, o: Outcome)
    ensures Successes(outs + [o]) == Successes(outs) + (if o.Success? then [o.value] else [])
  {
    assert (outs + [o])[..|outs|] == outs;
  }

  /** `BaseMLAnalyzer.analyze_alerts_batch`: calls the analyzer on each
      input in turn, keeps the results and counts the exceptions. */
  method BaseBatch(inputs: seq<(Alert, FeatureMap)>, call: Call, st: Counters)
    returns (results: seq<Analysis>, st': Counters)
    ensures results == Successes(InTurn(inputs, call, st).0)
    ensures st' == InTurn(inputs, call, st).1
    ensures |results| + Failures(InTurn(inputs, call, st).0) == |inputs|
  {
    results := [];
    st' := st;
    var i := 0;
    while i < |inputs|
      invariant 0 <= i <= |inputs|
      invariant results == Successes(InTurn(inputs[..i], call, st).0)
      invariant st' == InTurn(inputs[..i], call, st).1
    {
      var (out, c) := call(inputs[i].0, inputs[i].1, st');
      InTurnStep(inputs, i, call, st);
      SuccessesStep(InTurn(inputs[..i], call, st).0, out);
      match out {
        case Success(x) =>
          results := results + [x];
          st' := c;
        case Failure(_) =>
          st' := c.(errors := c.errors + 1);
      }
      i := i + 1;
    }
    assert inputs[..|inputs|] == inputs;
    OutcomesPartition(InTurn(inputs, call, st).0);
  }

  /** The call counts one analysis for a result and leaves the counters
      alone when it raises. */
  predicate CountedCall(r: (Outcome, Counters), c: Counters) {
    if r.0.Success? then r.1 == Counters(c.analyses + 1, c.errors) else r.1 == c
  }

  /** An analyzer whose every call is counted that way. */
  ghost predicate CountsResults(call: Call) {
    forall a, f, c :: CountedCall(call(a, f, c), c)
  }

  /** With such an analyzer, a batch adds one analysis per result and one
      error per exception, so results and new errors add up to the inputs. */
  lemma {:induction false} BatchCounts(inputs: seq<(Alert, FeatureMap)>, call: Call, st: Counters)
    requires CountsResults(call)
    ensures var (outs, c) := InTurn(inputs, call, st);
            && c.analyses == st.analyses + |Successes(outs)|
            && c.errors == st.errors + Failures(outs)
    decreases |inputs|
  {
    if |inputs| > 0 {
      var n := |inputs| - 1;
      BatchCounts(inputs[..n], call, st);
      var (outs, c) := InTurn(inputs[..n], call, st);
      var (o, c') := call(inputs[n].0, inputs[n].1, c);
      assert CountedCall(call(inputs[n].0, inputs[n].1, c), c);
      assert (outs + [o])[..n] == outs;
    }
  }

  /** The local model as a call: its counters are unchanged when it raises. */
  function LocalCall(a: Alert, f: FeatureMap, c: Counters): (r: (Outcome, Counters))
    ensures CountedCall(r, c)
  {
    match LocalAnalyze(a, f, c)
    case Success(p) => (Success(p.0), p.1)
    case Failure(e) => (Failure(e), c)
  }

  /** The local model counts its results, so `BatchCounts` applies to it. */
  lemma LocalCounts()
    ensures CountsResults(LocalCall)
  {
    forall a, f, c ensures CountedCall(LocalCall(a, f, c), c) {
    }
  }

  /** A call whose outcome does not depend on the counters it is given is
      the manager's analyzer with counters attached. */
  ghost predicate OutcomeOf(call: Call, analyze: (Alert, FeatureMap) -> Outcome) {
    forall a, f, c :: call(a, f, c).0 == analyze(a, f)
  }

  /** The manager and the base batch see the same outcomes: the manager's
      results, in order, are the ones the base batch returns, and with an
      analyzer that counts its results, its exceptions are the errors the
      base batch charges. */
  lemma {:induction false} ManagerMatchesBase(inputs: seq<(Alert, FeatureMap)>, call: Call,
                                              analyze: (Alert, FeatureMap) -> Outcome, st: Counters)
    requires OutcomeOf(call, analyze)
    ensures ManagerBatch(inputs, analyze) == InTurn(inputs, call, st).0
    ensures Successes(ManagerBatch(inputs, analyze)) == Successes(InTurn(inputs, call, st).0)
    ensures CountsResults(call) ==>
              InTurn(inputs, call, st).1.errors == st.errors + Failures(ManagerBatch(inputs, analyze))
    decreases |inputs|
  {
    if |inputs| > 0 {
      var n := |inputs| - 1;
      ManagerMatchesBase(inputs[..n], call, analyze, st);
      assert ManagerBatch(inputs, analyze) == ManagerBatch(inputs[..n], analyze) + [analyze(inputs[n].0, inputs[n].1)];
    }
    if CountsResults(call) {
      BatchCounts(inputs, call, st);
    }
  }

  // --------------------------------------------------------------- factory

  /** The analyzer the factory builds. */
  datatype AnalyzerKind = Remote(apiKey: Json, model: Json, maxRetries: int) | Local(modelPath: Json)

  /** `MLAnalyzerFactory.create_analyzer`: the requested type, or the
      configured one when none (or an empty one) is requested.
      `openaiAvailable` is whether `import openai` succeeded at load time;
      when it failed, building the remote analyzer raises `NameError`. */
  function CreateAnalyzer(requested: Option<string>, c: Config, openaiAvailable: bool): (r: Result<AnalyzerKind, string>)
    ensures r.Success? && r.value.Local? ==>
              r.value.modelPath == if Truthy(c[ApiEndpoint]) then c[ApiEndpoint] else JStr("/tmp/model.pkl")
    ensures r.Success? && r.value.Remote? ==>
              openaiAvailable && Truthy(c[ApiKey]) && r.value == Remote(c[ApiKey], c[ModelName], 3)
  {
    var kind := if requested.Some? && requested.value != "" then JStr(requested.value) else c[ModelType];
    if kind == JStr("openai") then
      if !Truthy(c[ApiKey]) then Failure("OpenAI API key required for OpenAI analyzer")
      else if !openaiAvailable then Failure("name 'openai' is not defined")
      else Success(Remote(c[ApiKey], c[ModelName], 3))
    else if kind == JStr("local") then
      Success(Local(if Truthy(c[ApiEndpoint]) then c[ApiEndpoint] else JStr("/tmp/model.pkl")))
    else Failure("Unsupported analyzer type")
  }

  /** The configured type decides: `local` always yields the local model,
      `openai` yields the remote one exactly when a key is set and the
      library was imported, and any other type is refused. */
  lemma FactorySelection(c: Config, openaiAvailable: bool)
    ensures c[ModelType] == JStr("local") ==>
              CreateAnalyzer(None, c, openaiAvailable).Success? && CreateAnalyzer(None, c, openaiAvailable).value.Local?
    ensures c[ModelType] == JStr("openai") ==>
              (CreateAnalyzer(None, c, openaiAvailable).Success? <==> Truthy(c[ApiKey]) && openaiAvailable)
    ensures c[ModelType] != JStr("openai") && c[ModelType] != JStr("local") ==> CreateAnalyzer(None, c, openaiAvailable).Failure?
  {
  }

  /** A configuration that validates gets an analyzer for the local type,
      and for the `openai` type exactly when the library was imported:
      validation checks the key but not the library. */
  lemma ValidatedConfigCreates(c: Config, present: string -> bool, makeDirs: string -> bool, openaiAvailable: bool)
    requires Validate(c, present, makeDirs).Success?
    requires c[ModelType] == JStr("openai") || c[ModelType] == JStr("local")
    ensures CreateAnalyzer(None, c, openaiAvailable).Success? <==> c[ModelType] == JStr("local") || openaiAvailable
  {
    ValidateAccepts(c, present, makeDirs);
  }

  // -------------------------------------------------------- remote analyzer

  /** The fields of a decoded model response; absent ones are None. */
  datatype Response = Response(
    confidence: Option<real>,
    classification: Option<string>,
    description: Option<string>,
    action: Option<string>,
    context: Option<map<string, Value>>,
    suggestion: Option<string>)

  /** One API attempt: a decoded response, or an exception (API error,
      undecodable JSON, or a confidence `float` cannot convert). */
  datatype Attempt = Reply(response: Response) | Failed(error: string)

  /** A result built from a response, with the documented defaults. */
  function FromResponse(resp: Response): (res: Analysis)
    ensures resp.confidence.None? ==> res.confidence == 0.0
    ensures resp.classification.None? ==> res.classification == "unknown"
    ensures resp.description.None? ==> res.description == ""
    ensures resp.action.None? ==> res.action == "monitor"
    ensures resp.context.None? ==> res.context == map[]
    ensures res.suggestion == resp.suggestion
  {
    Analysis(resp.confidence.GetOr(0.0), resp.classification.GetOr("unknown"), resp.description.GetOr(""),
             resp.action.GetOr("monitor"), resp.context.GetOr(map[]), resp.suggestion)
  }

  /** The result returned after an exception. */
  function Fallback(e: string): (res: Analysis)
    ensures res.confidence == 0.5 && res.classification == "analysis_error" && res.action == "investigate"
  {
    Analysis(0.5, "analysis_error", "Failed to analyze alert: " + e, "investigate", map["error" := VStr(e)], None)
  }

  /** The message of formatting a string with `:.2f` in the prompt. */
  const PromptError := "Unknown format code 'f' for object of type 'str'"

  /** Whether building the prompt raises: only a string severity does. */
  predicate PromptFails(features: FeatureMap) {
    SeverityScore in features && features[SeverityScore].VStr?
  }

  /** The first attempt below `n` that got a response. */
  function FirstReply(attempt: nat -> Attempt, n: nat): (r: Option<nat>)
    ensures r.Some? ==> r.value < n && attempt(r.value).Reply?
                        && forall j :: 0 <= j < r.value ==> attempt(j).Failed?
    ensures r.None? ==> forall j :: 0 <= j < n ==> attempt(j).Failed?
  {
    if n == 0 then None
    else match FirstReply(attempt, n - 1)
      case Some(j) => Some(j)
      case None => if attempt(n - 1).Reply? then Some(n - 1) else None
  }

  /** `OpenAIAnalyzer.analyze_alert`: up to `maxRetries` attempts; the first
      response is the result; when the last attempt fails too, the fallback
      result is returned and `error_count` rises. With no attempts allowed
      the method falls off its end and returns None. `calls` is the number
      of API calls made. */
  method RemoteAnalyze(features: FeatureMap, maxRetries: int, attempt: nat -> Attempt, st: Counters)
    returns (r: Option<Analysis>, st': Counters, calls: nat)
    ensures calls <= if maxRetries > 0 then maxRetries else 0
    ensures PromptFails(features) ==> r == Some(Fallback(PromptError)) && st' == Counters(st.analyses, st.errors + 1) && calls == 0
    ensures !PromptFails(features) && maxRetries <= 0 ==> r == None && st' == st && calls == 0
    ensures !PromptFails(features) && maxRetries > 0 ==>
              match FirstReply(attempt, maxRetries)
              case Some(j) =>
                r == Some(FromResponse(attempt(j).response)) && st' == Counters(st.analyses + 1, st.errors) && calls == j + 1
              case None =>
                r == Some(Fallback(attempt(maxRetries - 1).error)) && st' == Counters(st.analyses, st.errors + 1)
                && calls == maxRetries
  {
    if PromptFails(features) {
      return Some(Fallback(PromptError)), Counters(st.analyses, st.errors + 1), 0;
    }
    var i: nat := 0;
    while i < maxRetries
      invariant maxRetries > 0 ==> i < maxRetries
      invariant FirstReply(attempt, i) == None
    {
      calls := i + 1;
      match attempt(i) {
        case Reply(resp) =>
          assert FirstReply(attempt, maxRetries) == Some(i) by { FirstReplyFrom(attempt, i, maxRetries); }
          return Some(FromResponse(resp)), Counters(st.analyses + 1, st.errors), calls;
        case Failed(e) =>
          if i == maxRetries - 1 {
            return Some(Fallback(e)), Counters(st.analyses, st.errors + 1), calls;
          }
      }
      i := i + 1;
    }
    return None, st, 0;
  }

  /** Extending the range past the first reply does not move it. */
  lemma {:induction false} FirstReplyFrom(attempt: nat -> Attempt, i: nat, n: nat)
    requires i < n && attempt(i).Reply? && FirstReply(attempt, i) == None
    ensures FirstReply(attempt, n) == Some(i)
    decreases n
  {
    if n > i + 1 {
      FirstReplyFrom(attempt, i, n - 1);
    }
  }
}
