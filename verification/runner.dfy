/** The bookkeeping of `AlertMonitor` and `MLEnhancedRunner`
    (ml_runner/ml_enhanced_runner.py): the tail-read offset, the alert
    batch, the statistics counters and the path from analysis results to
    applied rules. The event loop, the sleeps and the history files are
    not modelled; the clock is a parameter. */
module Runner {
  import opened Wrappers
  import opened Strings
  import AP = AlertParser
  import F = Features
  import opened Analyzer
  import RG = RuleGenerator

  // ------------------------------------------------------------ the monitor

  /** `AlertMonitor`: how far into the alert file it has read. */
  datatype Monitor = Monitor(offset: nat)

  /** `start_monitoring`: the offset starts at the file's size when it
      exists, so lines already in the file are never delivered. */
  function StartMonitoring(present: bool, size: nat): (m: Monitor)
    ensures m.offset == if present then size else 0
  {
    Monitor(if present then size else 0)
  }

  /** The lines of `text` that are not blank, stripped, in order. */
  function NonBlankLines(lines: seq<string>): (r: seq<string>)
    ensures |r| <= |lines|
    ensures forall i :: 0 <= i < |r| ==> r[i] != [] && Stripped(r[i])
    decreases |lines|
  {
    if |lines| == 0 then []
    else
      var init := NonBlankLines(lines[..|lines| - 1]);
      var t := Strip(lines[|lines| - 1]);
      StripIsStripped(lines[|lines| - 1]);
      if t == [] then init else init + [t]
  }

  /** `[line.strip() for line in text.split('\n') if line.strip()]` */
  function AlertLines(text: string): seq<string> {
    NonBlankLines(SplitOn(text, "\n"))
  }

  /** Filtering lines distributes over concatenation, so lines read in two
      pieces come out as if read in one. */
  lemma {:induction false} NonBlankAppend(a: seq<string>, b: seq<string>)
    ensures NonBlankLines(a + b) == NonBlankLines(a) + NonBlankLines(b)
    decreases |b|
  {
    if |b| > 0 {
      var b' := b[..|b| - 1];
      NonBlankAppend(a, b');
      assert (a + b)[..|a + b| - 1] == a + b';
      assert (a + b)[|a + b| - 1] == b[|b| - 1];
    } else {
      assert a + b == a;
    }
  }

  /** A single line is delivered stripped exactly when it is not blank. */
  lemma NonBlankOne(line: string)
    ensures NonBlankLines([line]) == if Strip(line) == [] then [] else [Strip(line)]
  {
    assert [line][..0] == [];
  }

  /** `_read_new_alerts`, with the file as parameters: whether it exists,
      its size as `getsize` reports it (None when that raises) and the text
      from an offset to the end (None when opening or reading raises). */
  function ReadNewAlerts(m: Monitor, present: bool, size: Option<nat>, readFrom: nat -> Option<string>)
    : (r: (seq<string>, Monitor))
    ensures r.1 == m || (size.Some? && r.1.offset == size.value > m.offset)
    ensures r.1 != m ==> readFrom(m.offset).Some? && r.0 == AlertLines(readFrom(m.offset).value)
    ensures r.1 == m ==> r.0 == []
  {
    if !present || size.None? || size.value <= m.offset then ([], m)
    else match readFrom(m.offset)
      case None => ([], m)
      case Some(text) => (AlertLines(text), Monitor(size.value))
  }

  /** A file that did not grow past the offset yields nothing and keeps
      the offset, even when it shrank: truncation is not detected and the
      offset is never reset. */
  lemma NoGrowthNoRead(m: Monitor, size: nat, readFrom: nat -> Option<string>)
    requires size <= m.offset
    ensures ReadNewAlerts(m, true, Some(size), readFrom) == ([], m)
  {
  }

  /** A successful read moves the offset to the size seen before reading
      and delivers the non-blank lines of the text read. */
  lemma ReadAdvances(m: Monitor, size: nat, readFrom: nat -> Option<string>)
    requires size > m.offset && readFrom(m.offset).Some?
    ensures ReadNewAlerts(m, true, Some(size), readFrom)
              == (AlertLines(readFrom(m.offset).value), Monitor(size))
  {
  }

  /** Right after start-up, a file of unchanged size yields nothing, and a
      grown one is read from where it ended at start-up; a file that was
      missing at start-up is read from its beginning. */
  lemma ExistingLinesSkipped(size: nat, size': nat, readFrom: nat -> Option<string>)
    ensures ReadNewAlerts(StartMonitoring(true, size), true, Some(size), readFrom).0 == []
    ensures size' > size && readFrom(size).Some? ==>
              ReadNewAlerts(StartMonitoring(true, size), true, Some(size'), readFrom)
                == (AlertLines(readFrom(size).value), Monitor(size'))
    ensures size' > 0 && readFrom(0).Some? ==>
              ReadNewAlerts(StartMonitoring(false, size), true, Some(size'), readFrom)
                == (AlertLines(readFrom(0).value), Monitor(size'))
  {
  }

  // ------------------------------------------------------------ the runner

  /** The runner's `stats` without `start_time`. */
  datatype Stats = Stats(alertsProcessed: nat, analysesPerformed: nat, rulesGenerated: nat, highConfidence: nat)

  /** The runner's state: the parser's counters, the generator's next SID,
      the statistics, the pending batch and when it was last processed. */
  datatype Runner = Runner(parser: AP.ParserState, gen: RG.GenState, stats: Stats, batch: seq<AP.Alert>, lastBatch: real)

  /** What the runner reads from outside: the configuration values it
      uses, the moment each alert's timestamp denotes (its year comes from
      the clock, and an unparsable stamp falls back to the clock), the
      private-address test,
      whether the analyzer factory succeeds, the analyzer itself, and the
      rule manager's `add_rules`. */
  datatype Env = Env(
    maxBatch: int,
    interval: real,
    settings: RG.Settings,
    fmt: RG.Formatting,
    when: AP.Alert -> F.Moment,
    isPrivate: string -> bool,
    analyzerReady: bool,
    analyze: (AP.Alert, F.FeatureMap) -> Outcome,
    addRules: seq<RG.Rule> -> bool)

  /** A fresh runner. */
  function Initial(gen: RG.GenState, now: real): (r: Runner)
    ensures r.batch == [] && r.stats == Stats(0, 0, 0, 0)
  {
    Runner(AP.InitialParser, gen, Stats(0, 0, 0, 0), [], now)
  }

  /** The counters stay in step: no more rules than high-confidence
      results, no more of those than analyses, and analyses plus pending
      alerts never exceed the alerts taken in. */
  predicate Consistent(r: Runner) {
    r.stats.rulesGenerated <= r.stats.highConfidence <= r.stats.analysesPerformed
    && r.stats.analysesPerformed + |r.batch| <= r.stats.alertsProcessed
  }

  lemma InitialConsistent(gen: RG.GenState, now: real)
    ensures Consistent(Initial(gen, now))
  {
  }

  // ------------------------------------------------------ analysis results

  /** Each batch alert with its features, the temporal ones taken from the
      alert's own timestamp. */
  function WithFeatures(batch: seq<AP.Alert>, env: Env): (r: seq<(AP.Alert, F.FeatureMap)>)
    ensures |r| == |batch|
    ensures forall i :: 0 <= i < |batch| ==>
              r[i].0 == batch[i] && r[i].1 == F.ExtractFeatures(batch[i], env.when(batch[i]), env.isPrivate)
  {
    seq(|batch|, i requires 0 <= i < |batch| => (batch[i], F.ExtractFeatures(batch[i], env.when(batch[i]), env.isPrivate)))
  }

  /** The results kept by `_process_analysis_results`: exceptions are
      skipped, and a result is kept when its confidence reaches the
      threshold, equality included; each is paired with its alert by
      position. */
  function HighConfidence(inputs: seq<(AP.Alert, F.FeatureMap)>, outs: seq<Outcome>, threshold: real)
    : (r: seq<(AP.Alert, Analysis)>)
    requires |outs| == |inputs|
    ensures |r| <= |outs|
    ensures forall k :: 0 <= k < |r| ==> r[k].1.confidence >= threshold
    decreases |outs|
  {
    if |outs| == 0 then []
    else
      var n := |outs| - 1;
      var init := HighConfidence(inputs[..n], outs[..n], threshold);
      if outs[n].Success? && outs[n].value.confidence >= threshold then init + [(inputs[n].0, outs[n].value)]
      else init
  }

  /** Kept means: some input position holds a result at or above the
      threshold, and the entry is that input's alert with that result. */
  lemma {:induction false} HighConfidenceMeans(inputs: seq<(AP.Alert, F.FeatureMap)>, outs: seq<Outcome>,
                                               threshold: real, x: (AP.Alert, Analysis))
    requires |outs| == |inputs|
    ensures x in HighConfidence(inputs, outs, threshold) <==>
              exists i :: 0 <= i < |outs| && outs[i].Success? && outs[i].value.confidence >= threshold
                          && x == (inputs[i].0, outs[i].value)
    decreases |outs|
  {
    if |outs| > 0 {
      var n := |outs| - 1;
      HighConfidenceMeans(inputs[..n], outs[..n], threshold, x);
      assert forall i :: 0 <= i < n ==> outs[..n][i] == outs[i] && inputs[..n][i] == inputs[i];
    }
  }

  /** The rules of a list of high-confidence results, generated in order
      with one shared SID counter. */
  function GenerateRules(gen: RG.GenState, pairs: seq<(AP.Alert, Analysis)>, settings: RG.Settings, fmt: RG.Formatting)
    : (r: (seq<RG.Rule>, RG.GenState))
    ensures |r.0| <= |pairs|
    ensures r.1.nextSid == gen.nextSid + |r.0|
    ensures forall k :: 0 <= k < |r.0| ==> r.0[k].sid == gen.nextSid + k
    decreases |pairs|
  {
    if |pairs| == 0 then ([], gen)
    else
      var n := |pairs| - 1;
      var (rules, g) := GenerateRules(gen, pairs[..n], settings, fmt);
      var (rule, g') := RG.Generate(g, pairs[n].0, pairs[n].1, settings, fmt);
      if rule.Some? then (rules + [rule.value], g') else (rules, g')
  }

  /** Results already filtered by the generator's own threshold each give
      a rule, so the batch gets one rule per result. */
  lemma {:induction false} EveryResultGivesRule(gen: RG.GenState, pairs: seq<(AP.Alert, Analysis)>,
                                                 settings: RG.Settings, fmt: RG.Formatting)
    requires forall k :: 0 <= k < |pairs| ==> pairs[k].1.confidence >= settings.threshold
    ensures |GenerateRules(gen, pairs, settings, fmt).0| == |pairs|
    decreases |pairs|
  {
    if |pairs| > 0 {
      var n := |pairs| - 1;
      EveryResultGivesRule(gen, pairs[..n], settings, fmt);
    }
  }

  /** The rules of one call carry distinct SIDs, rising by one. */
  lemma GeneratedSidsDistinct(gen: RG.GenState, pairs: seq<(AP.Alert, Analysis)>, settings: RG.Settings,
                              fmt: RG.Formatting, j: nat, k: nat)
    requires j < k < |GenerateRules(gen, pairs, settings, fmt).0|
    ensures GenerateRules(gen, pairs, settings, fmt).0[j].sid < GenerateRules(gen, pairs, settings, fmt).0[k].sid
  {
  }

  /** `_generate_and_apply_rules`: `rules_generated` grows by the number of
      new rules when the manager accepts them, and is left alone
      otherwise. */
  function GenerateAndApply(r: Runner, pairs: seq<(AP.Alert, Analysis)>, env: Env): (r': Runner)
    ensures r'.batch == r.batch && r'.parser == r.parser && r'.lastBatch == r.lastBatch
    ensures r'.stats == r.stats.(rulesGenerated := r'.stats.rulesGenerated)
    ensures var (rules, g) := GenerateRules(r.gen, pairs, env.settings, env.fmt);
            && r'.gen == g
            && r'.stats.rulesGenerated == r.stats.rulesGenerated + (if |rules| > 0 && env.addRules(rules) then |rules| else 0)
  {
    var (rules, g) := GenerateRules(r.gen, pairs, env.settings, env.fmt);
    var applied := |rules| > 0 && env.addRules(rules);
    r.(gen := g,
       stats := r.stats.(rulesGenerated := r.stats.rulesGenerated + if applied then |rules| else 0))
  }

  /** `_process_analysis_results` followed by rule generation. */
  function ProcessResults(r: Runner, inputs: seq<(AP.Alert, F.FeatureMap)>, outs: seq<Outcome>, env: Env): (r': Runner)
    requires |outs| == |inputs|
    ensures var high := HighConfidence(inputs, outs, env.settings.threshold);
            && r'.stats.highConfidence == r.stats.highConfidence + |high|
            && r'.stats.rulesGenerated <= r.stats.rulesGenerated + |high|
            && r'.gen.nextSid == r.gen.nextSid + |high|
    ensures r'.batch == r.batch && r'.parser == r.parser && r'.lastBatch == r.lastBatch
    ensures r'.stats.alertsProcessed == r.stats.alertsProcessed && r'.stats.analysesPerformed == r.stats.analysesPerformed
  {
    var high := HighConfidence(inputs, outs, env.settings.threshold);
    var r1 := r.(stats := r.stats.(highConfidence := r.stats.highConfidence + |high|));
    EveryResultGivesRule(r.gen, high, env.settings, env.fmt);
    if |high| > 0 then GenerateAndApply(r1, high, env) else r1
  }

  // ---------------------------------------------------------------- batches

  /** `_process_alert_batch`: nothing to do on an empty batch; when the
      analyzer cannot be created the batch is dropped, the analyses count
      and the batch time stay as they were; otherwise every alert is
      analysed, each entry counts as an analysis, the results are
      processed, and the batch is cleared with the time recorded.
      `finished` is the clock read once the analysis and the rules are
      done, which is the time the next batch is measured from. */
  function ProcessAlertBatch(r: Runner, finished: real, env: Env): (r': Runner)
    ensures r'.batch == [] && r'.parser == r.parser
    ensures r'.stats.alertsProcessed == r.stats.alertsProcessed
    ensures r.batch == [] ==> r' == r
    ensures r.batch != [] && !env.analyzerReady ==> r' == r.(batch := [])
    ensures r.batch != [] && env.analyzerReady ==>
              && r'.lastBatch == finished
              && r'.stats.analysesPerformed == r.stats.analysesPerformed + |r.batch|
  {
    if r.batch == [] then r
    else if !env.analyzerReady then r.(batch := [])
    else
      var inputs := WithFeatures(r.batch, env);
      var outs := ManagerBatch(inputs, env.analyze);
      var r1 := r.(stats := r.stats.(analysesPerformed := r.stats.analysesPerformed + |outs|));
      ProcessResults(r1, inputs, outs, env).(batch := [], lastBatch := finished)
  }

  /** When `_process_new_alerts` runs the batch: it is full, or more than
      two intervals have passed since the last one. */
  predicate Due(r: Runner, now: real, env: Env) {
    |r.batch| >= env.maxBatch || now - r.lastBatch > 2.0 * env.interval
  }

  /** The alerts `parse_alerts_batch` returns and the parser's counters
      after it, as its contract states them: every line that is not blank
      is counted once, as parsed or as an error, and no alert is invented. */
  function ParseLines(st: AP.ParserState, lines: seq<string>): (r: (seq<AP.Alert>, AP.ParserState))
    ensures r.0 == AP.ParsedAlerts(lines)
    ensures r.1.parsedCount == st.parsedCount + |r.0|
    ensures r.1.parsedCount + r.1.errorCount == st.parsedCount + st.errorCount + |lines| - AP.Blank(lines)
    ensures |r.0| <= |lines| - AP.Blank(lines)
  {
    var alerts := AP.ParsedAlerts(lines);
    AP.LinesPartition(lines);
    (alerts, AP.ParserState(st.parsedCount + |alerts|, st.errorCount + AP.Malformed(lines)))
  }

  /** `_process_new_alerts`: the lines are parsed; without alerts only the
      parser's counters move; otherwise `alerts_processed` grows by the
      number of alerts, not of lines, they join the batch, and the batch is
      processed when due. `now` is the clock at the due check and
      `finished` the clock once a batch run there is over. */
  function ProcessNewAlerts(r: Runner, lines: seq<string>, now: real, finished: real, env: Env): (r': Runner)
    ensures r'.parser == ParseLines(r.parser, lines).1
    ensures AP.ParsedAlerts(lines) == [] ==> r' == r.(parser := r'.parser)
    ensures r'.stats.alertsProcessed == r.stats.alertsProcessed + |AP.ParsedAlerts(lines)|
    ensures AP.ParsedAlerts(lines) != [] ==>
              r'.batch == if Due(r.(batch := r.batch + AP.ParsedAlerts(lines)), now, env) then [] else r.batch + AP.ParsedAlerts(lines)
  {
    var (alerts, p) := ParseLines(r.parser, lines);
    if alerts == [] then r.(parser := p)
    else
      var r1 := r.(parser := p, stats := r.stats.(alertsProcessed := r.stats.alertsProcessed + |alerts|),
                   batch := r.batch + alerts);
      if Due(r1, now, env) then ProcessAlertBatch(r1, finished, env) else r1
  }

  /** One round of `_batch_processor`: a pending batch is processed once
      more than one interval has passed since the last one; `finished`
      is the clock once that run is over. */
  function BatchTick(r: Runner, now: real, finished: real, env: Env): (r': Runner)
    ensures r.batch != [] && now - r.lastBatch > env.interval ==> r'.batch == []
    ensures r.batch != [] && now - r.lastBatch > env.interval && env.analyzerReady ==>
              r'.lastBatch == finished && r'.stats.analysesPerformed == r.stats.analysesPerformed + |r.batch|
    ensures !(r.batch != [] && now - r.lastBatch > env.interval) ==> r' == r
  {
    if r.batch != [] && now - r.lastBatch > env.interval then ProcessAlertBatch(r, finished, env) else r
  }

  /** Processing a batch keeps the counters in step. */
  lemma BatchConsistent(r: Runner, finished: real, env: Env)
    requires Consistent(r)
    ensures Consistent(ProcessAlertBatch(r, finished, env))
  {
    if r.batch != [] && env.analyzerReady {
      var inputs := WithFeatures(r.batch, env);
      var outs := ManagerBatch(inputs, env.analyze);
      var high := HighConfidence(inputs, outs, env.settings.threshold);
      assert |high| <= |r.batch|;
    }
  }

  /** New lines keep the counters in step. */
  lemma NewAlertsConsistent(r: Runner, lines: seq<string>, now: real, finished: real, env: Env)
    requires Consistent(r)
    ensures Consistent(ProcessNewAlerts(r, lines, now, finished, env))
  {
    var alerts := AP.ParsedAlerts(lines);
    if alerts != [] {
      var r1 := r.(parser := ParseLines(r.parser, lines).1,
                   stats := r.stats.(alertsProcessed := r.stats.alertsProcessed + |alerts|),
                   batch := r.batch + alerts);
      assert Consistent(r1);
      BatchConsistent(r1, finished, env);
    }
  }

  /** A batch tick keeps the counters in step. */
  lemma TickConsistent(r: Runner, now: real, finished: real, env: Env)
    requires Consistent(r)
    ensures Consistent(BatchTick(r, now, finished, env))
  {
    BatchConsistent(r, finished, env);
  }

  /** A full batch is processed at once: with the analyzer available, all
      of its alerts count as analyses, the batch is left empty, and the
      next batch is timed from when this one finished. */
  lemma FullBatchProcessed(r: Runner, lines: seq<string>, now: real, finished: real, env: Env)
    requires AP.ParsedAlerts(lines) != [] && env.analyzerReady
    requires |r.batch| + |AP.ParsedAlerts(lines)| >= env.maxBatch
    ensures var r' := ProcessNewAlerts(r, lines, now, finished, env);
            && r'.batch == []
            && r'.stats.analysesPerformed == r.stats.analysesPerformed + |r.batch| + |AP.ParsedAlerts(lines)|
            && r'.lastBatch == finished
  {
  }
}
