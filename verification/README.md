# Snort 3 ML runner and installer — a Dafny model

This project models the deterministic core of the Snort 3 "ML runner" and of its installer:

- **Alert parsing.** A line of Snort's `alert_fast` output becomes a structured alert. The parser keeps success and error counters.
- **Feature extraction.** Each alert gets its feature map: port categories, traffic direction, severity score, suspicious ports and attack keywords.
- **Analysis.** The model covers:
  - the local mock analyzer;
  - the base and manager batch analysis;
  - the analyzer factory;
  - the retry loop of the remote (OpenAI) analyzer, with the API as an oracle.
- **Rule generation.**
  - The starting SID is seeded from the existing `.rules` files.
  - The confidence gate decides whether a rule is generated.
  - A rule comes either from a suggested rule text (with SID substitution and option overrides) or from the alert itself.
  - The rule-option parser and the rule validator are modelled too.
- **The runner.** The model covers the tail-reading monitor, the statistics counters, batching by size and by time, and the high-confidence filter feeding the rule generator.
- **Configuration.** This covers the defaults, the secure-file/environment layering of `from_env`, the `from_file`/`to_file` round trip, and `validate`.
- **The command line** (`main.py`). This covers the argument overrides and the exit status of `--test-config`.
- **The installer's decisions.** This covers adapter detection from `ip link show`, automatic and manual adapter assignment, the ordered installation steps with stop-at-first-failure, environment detection, and the exit status.

Every module has its own file:
- `wrappers.dfy`: `Option`/`Result`;
- `strings.dfy`: the Python `str` operations used (`strip`, `split`, `find`, `lower`, `upper`, integer text);
- `alert_parser.dfy`, `features.dfy`, `analyzer.dfy`;
- `rule_options.dfy`: the ordered option dictionary, its parser and printer;
- `rule_generator.dfy`, `runner.dfy`, `config.dfy`, `cli.dfy`, `installer.dfy`.

Everything the programs get from outside becomes a parameter:
- file existence and contents;
- file sizes;
- environment variables;
- the clock;
- subprocess results;
- API replies;
- the success of each installation step;
- whether an IP address is private;
- float parsing and `{:.2f}` formatting.

Regular expressions are written as deterministic scanners with the same acceptance. For example, the alert pattern's padded fields become "the text up to the stop character, stripped". Python dicts become association lists that keep insertion order. Python floats are `real`s.

Where the documented design and the code differ, the model follows the code:
- The monitor never resets its offset when the alert file shrinks.
- A failed Snort reload is not rolled back to the backup.
- A confidence from the remote analyzer outside [0, 1] is kept as is.
- A secure configuration file that fails halfway keeps the string fields it had already set.
- With `--config`, `apply_arguments` rebinds only `main`'s own `config`. The runner modules imported the original object, so neither the loaded file nor the overrides applied after it reach the runner; `--test-config` does see them. Without `--config`, the overrides change the shared object and reach the runner.

## Model

| member | source | states |
|---|---|---|
| AlertParser.MatchAlert | ml_runner/alert_parser.py:50-61 | an accepted line keeps itself as raw text; the protocol is upper-case; message, classification and addresses come out stripped |
| AlertParser.ParseAlert | ml_runner/alert_parser.py:67-113 | a blank line changes nothing; a line the pattern rejects bumps only the error count; a non-blank line the pattern accepts is returned as the match of its stripped text, bumps only the parsed count and keeps the stripped line as raw text |
| AlertParser.ParseAlertsBatch | ml_runner/alert_parser.py:130-137 | the alerts are exactly the parsed non-blank lines; parsed and error counts grow by the alerts and by the malformed lines; together they grow by the non-blank lines, and so does the reported total |
| AlertParser.LinesPartition | ml_runner/alert_parser.py:130-137 | every line of a batch is parsed, malformed or blank, and exactly one of them |
| AlertParser.StatsCountLine | ml_runner/alert_parser.py:139-145 | after `parse_alert` the reported total has grown by one for a non-blank line and not at all for a blank one, and the parsed count by one exactly when an alert was returned |
| AlertParser.TailRender | ml_runner/alert_parser.py:50-61 | the address/port tail of a printed alert is read back as the same endpoints |
| AlertParser.ParsePrinted | ml_runner/alert_parser.py:50-61 | a printable alert rendered in `alert_fast` form is matched back to the same alert |
| AlertParser.PrintedLineStripped | ml_runner/alert_parser.py:67-71 | a rendered alert line has no surrounding whitespace |
| AlertParser.ParseClean | ml_runner/alert_parser.py:67-106 | a stripped line the pattern accepts is returned and counted as parsed |
| AlertParser.ParsePrintedLine | ml_runner/alert_parser.py:67-113 | parsing a rendered alert line gives back the alert, and the parsed count grows by one |
| AlertParser.SamplePrintable | test_ml_runner.py:64-71 | the sample alert of the tests satisfies the conditions for an exact round trip |
| AlertParser.SampleRendering | test_ml_runner.py:64 | the test's line is, character for character, the `alert_fast` line of the sample alert with generator id 1 |
| AlertParser.SampleLineParses | test_ml_runner.py:64-71 | `parse_alert` on the test's line returns the sample alert with that line as raw text, and counts it as parsed |
| AlertParser.SampleLineFields | test_ml_runner.py:64-71 | the parsed line has message `SSH Connection Attempt`, source 192.168.1.100:22, destination 192.168.1.200:54321, priority 1 and SID 1000001 |
| Features.PortCategory | ml_runner/alert_parser.py:205-214 | unknown exactly for a missing port; well-known below 1024; registered below 49152; dynamic otherwise |
| Features.PortCategoryMonotone | ml_runner/alert_parser.py:205-214 | a larger port never falls into a lower category |
| Features.SeverityPortsSuspicious | ml_runner/alert_parser.py:228-272 | a port that raises the severity is also suspicious, but not the other way round (6667) |
| Features.DirectionExclusive | ml_runner/alert_parser.py:216-226 | inbound, outbound and lateral exclude each other, and one of them holds iff either end is private |
| Features.HighRiskBonusOnce | ml_runner/alert_parser.py:243-251 | the high-risk classification bonus is 0.3 when any keyword occurs and is never added twice |
| Features.Severity | ml_runner/alert_parser.py:228-262 | the severity score is within [0, 1] |
| Features.SeverityParts | ml_runner/alert_parser.py:228-262 | the score is exactly the sum the statements add up — priority weight, the classification loop that breaks at its first hit, protocol and port bonuses — so `max`/`min` never bite, and it is at least 0.1 |
| Features.AnyKeywordMeans | ml_runner/alert_parser.py:274-283 | the keyword loop answers true iff some keyword occurs in the text |
| Features.AttackPatternScan | ml_runner/alert_parser.py:274-283 | the left-to-right `any(...)` over the attack keywords in the lower-cased message and classification is true iff one of them occurs there |
| Features.ExtractFeatures | ml_runner/alert_parser.py:154-195 | the feature map has exactly the fixed set of keys |
| Features.FeatureDirections | ml_runner/alert_parser.py:154-195 | the three direction features are booleans and at most one is true |
| Features.FeatureSeverityRange | ml_runner/alert_parser.py:154-195 | the severity feature is a number within [0, 1] |
| Features.FeaturePortsDefault | ml_runner/alert_parser.py:154-195 | a missing port is reported as 0 |
| Features.FeatureKeysFixed | ml_runner/alert_parser.py:154-195 | every alert yields the same feature keys |
| RuleOptions.Get | ml_runner/rule_generator.py:234-264 | a key is found iff some entry carries it |
| RuleOptions.Put | ml_runner/rule_generator.py:146-148 | after assignment the key maps to the new value and every other key is unchanged |
| RuleOptions.PutNew | ml_runner/rule_generator.py:146-148 | assigning a new key appends it at the end |
| RuleOptions.PutKeepsOrder | ml_runner/rule_generator.py:146-148 | assigning an existing key keeps the key order |
| RuleOptions.PutUnique | ml_runner/rule_generator.py:146-148 | assignment keeps the keys unique |
| RuleOptions.SplitParts | ml_runner/rule_generator.py:243-254 | every part split off at an unquoted `;` is non-empty and stripped |
| RuleOptions.ParsePart | ml_runner/rule_generator.py:257-262 | a part without `:` is a key with an empty value |
| RuleOptions.ParsePartColon | ml_runner/rule_generator.py:257-262 | a part splits at its first `:` into the stripped key and the stripped value |
| RuleOptions.SplitAtSemicolon | ml_runner/rule_generator.py:243-254 | a `;` outside quotes ends the current part |
| RuleOptions.ParseOptions | ml_runner/rule_generator.py:234-264 | the parsed options have unique keys |
| RuleOptions.PartReads | ml_runner/rule_generator.py:205-214 | a printed `key:value` option is parsed back to the same pair |
| RuleOptions.ParsePrintedOptions | ml_runner/rule_generator.py:205-264 | parsing the printed options body gives back the options, keys in order |
| RuleGenerator.SidAt | ml_runner/rule_generator.py:82-86 | the leftmost position where `sid:` followed by digits starts, or none when there is none |
| RuleGenerator.FindSid | ml_runner/rule_generator.py:82-86 | a SID is found iff the pattern occurs, and it is the number at the leftmost occurrence |
| RuleGenerator.ReplaceWithoutMatch | ml_runner/rule_generator.py:119-122 | text without a SID is left alone by the substitution |
| RuleGenerator.LineSid | ml_runner/rule_generator.py:80-88 | blank and comment lines yield no SID; otherwise it is the first SID on the stripped line |
| RuleGenerator.LineSidsMeans | ml_runner/rule_generator.py:80-88 | a SID is collected from a file iff some line of it yields that SID |
| RuleGenerator.FoundSidsMeans | ml_runner/rule_generator.py:76-88 | a SID is collected iff it occurs in some `.rules` file |
| RuleGenerator.MaxOf | ml_runner/rule_generator.py:89-92 | the maximum is a member of the list and bounds it, and is absent iff the list is empty |
| RuleGenerator.SeedSid | ml_runner/rule_generator.py:67-94 | the next SID is at least the configured start, above every existing SID, and either the start or one past an existing SID |
| RuleGenerator.SeededSidIsFresh | ml_runner/rule_generator.py:67-94 | a SID in any `.rules` file is below the next SID |
| RuleGenerator.SeedWithoutSids | ml_runner/rule_generator.py:67-94 | with no rules directory or no `.rules` file the next SID is the configured start |
| RuleGenerator.ScanPrinted | ml_runner/rule_generator.py:125-132 | space-separated tokens are scanned back into the same tokens and rest |
| RuleGenerator.ParenPrinted | ml_runner/rule_generator.py:125-132 | `(body)` with no `)` in the body is read back as the body and the rest |
| RuleGenerator.ParenCut | ml_runner/rule_generator.py:270 | an options body containing `)` cannot be followed by a valid end of rule |
| RuleGenerator.RuleTextValid | ml_runner/rule_generator.py:266-285 | a rule printed from a well-formed header passes the syntax check iff its options body has no `)` |
| RuleGenerator.ActionFor | ml_runner/rule_generator.py:179-183 | drop exactly for `block`, reject exactly for `reject`, alert otherwise |
| RuleGenerator.PortField | ml_runner/rule_generator.py:186-191 | `any` exactly when the port is missing or 0, otherwise a single token |
| RuleGenerator.Take | ml_runner/rule_generator.py:194 | a message no longer than the limit is kept whole; a longer one is cut to exactly its first `n` characters |
| RuleGenerator.AlertHeader | ml_runner/rule_generator.py:179-191 | the header of an alert-derived rule copies the addresses, uses `->` and the mapped action |
| RuleGenerator.FromAlert | ml_runner/rule_generator.py:176-232 | the rule gets the current SID, which is then advanced by one; direction `->`; the alert's addresses; port `any` exactly for a missing or 0 port; the upper-cased protocol; the analysis confidence; the prefixed message |
| RuleGenerator.AlertOptionsContent | ml_runner/rule_generator.py:197-205 | the options carry the quoted message, the SID and revision 1 |
| RuleGenerator.FromAlertValidates | ml_runner/rule_generator.py:176-285 | an alert-derived rule with token-shaped fields passes validation iff its options body has no `)` |
| RuleGenerator.Overwrite | ml_runner/rule_generator.py:140-148 | sid, classtype, reference and metadata are set from the analysis; every other option is unchanged and unique keys stay unique |
| RuleGenerator.MatchSuggestion | ml_runner/rule_generator.py:125-132 | a matched suggestion has a non-empty options body without `)` |
| RuleGenerator.FromSuggestion | ml_runner/rule_generator.py:115-174 | the rule gets the current SID, which is advanced by one; its options carry that SID unless it fell back; an unmatched suggestion falls back to the alert-derived rule |
| RuleGenerator.SuggestionOptions | ml_runner/rule_generator.py:134-167 | a matched suggestion keeps its header and is printed again from the overwritten options |
| RuleGenerator.SuggestedRuleText | ml_runner/rule_generator.py:125-132 | a printed rule is matched as a suggestion into the same header and options body |
| RuleGenerator.PrintedSuggestion | ml_runner/rule_generator.py:115-174 | a printed rule without SID text, given as the suggestion, keeps its header and its options with only the four overrides applied |
| RuleGenerator.Generate | ml_runner/rule_generator.py:96-113 | below the threshold nothing is generated and the SID is unchanged; at or above it a rule with the current SID is produced and the SID advances; without a suggestion it is the alert-derived rule |
| Analyzer.LocalAnalyze | ml_runner/ml_analyzer.py:233-251 | succeeds iff the starting confidence is a number; the result is a monitor-only mock; the confidence is min(c + 0.3, 1.0) when a suspicious port or an attack pattern was flagged and c otherwise; the analysis count grows by one |
| Analyzer.LocalOnExtracted | ml_runner/ml_analyzer.py:233-251 | on extracted features the local analyzer succeeds; the confidence is the severity, raised to min(severity + 0.3, 1.0) when a port is suspicious or the text names an attack, and within [0, 1] |
| Analyzer.OutcomesPartition | ml_runner/ml_analyzer.py:65-75 | each batch outcome is either a result or a counted error |
| Analyzer.ManagerMatchesBase | ml_runner/ml_analyzer.py:298-305 | the manager's outcomes are those of calling the analyzer on each input in turn: its results, in order, are the ones the base batch returns, and for an analyzer that counts its results its exceptions are the errors the base batch charges |
| Analyzer.InTurn | ml_runner/ml_analyzer.py:65-75 | calling the analyzer on each input in turn gives one outcome per input |
| Analyzer.BaseBatch | ml_runner/ml_analyzer.py:65-75 | the results are the successful outcomes of the calls in turn, in order; the counters are what the calls and one extra error per exception leave them; results plus exceptions equal the inputs |
| Analyzer.BatchCounts | ml_runner/ml_analyzer.py:65-75 | with an analyzer that counts one analysis per result, a batch grows the analysis count by the results and the error count by the exceptions |
| Analyzer.LocalCall | ml_runner/ml_analyzer.py:233-251 | a local call counts one analysis when it returns and leaves the counters alone when it raises |
| Analyzer.LocalCounts | ml_runner/ml_analyzer.py:233-251 | every local call is counted that way, so the batch counts apply to the local analyzer |
| Analyzer.CreateAnalyzer | ml_runner/ml_analyzer.py:258-273 | a local analyzer uses the endpoint or `/tmp/model.pkl`; a remote one needs a key and the imported `openai` library, and gets the model name and 3 retries |
| Analyzer.FactorySelection | ml_runner/ml_analyzer.py:258-273 | `local` always succeeds, `openai` succeeds iff a key is set and `import openai` succeeded, any other type fails |
| Analyzer.ValidatedConfigCreates | ml_runner/ml_analyzer.py:258-273 | a configuration that validates with a known model type yields an analyzer iff the type is `local` or the `openai` library was imported |
| Analyzer.FirstReply | ml_runner/ml_analyzer.py:134-172 | the first attempt that gets a reply, with all earlier attempts failed, or none when all attempts fail |
| Analyzer.FirstReplyFrom | ml_runner/ml_analyzer.py:134-172 | a reply after only failures is the one that is used |
| Analyzer.RemoteAnalyze | ml_runner/ml_analyzer.py:126-187 | at most the retry count of calls; no retries yields nothing; otherwise the first reply is used and counted as an analysis, its missing fields defaulting to 0.0, `unknown`, an empty description, `monitor` and an empty context; a failing prompt, or the last attempt failing, yields confidence 0.5, `analysis_error` and `investigate` with the error text, and one more error |
| RunnerConfig.FieldOfName | ml_runner/config.py:17-49 | every field is found again by its attribute name |
| RunnerConfig.Defaults | ml_runner/config.py:27-49 | every field starts at its declared default |
| RunnerConfig.SavedOnce | ml_runner/config.py:118-127 | the saved object names every field exactly once, at its declaration position, under its attribute name and with its value |
| RunnerConfig.FromFileFields | ml_runner/config.py:106-116 | a field not named in the file keeps its default; otherwise the last entry naming it wins |
| RunnerConfig.SaveLoad | ml_runner/config.py:106-127 | loading a saved configuration gives back the same configuration |
| RunnerConfig.CustomRoundTrip | test_ml_runner.py:147-165 | a custom threshold and model type survive saving and loading |
| RunnerConfig.Truncate | ml_runner/config.py:78 | `int()` of a float truncates toward zero |
| RunnerConfig.ApplySecure | ml_runner/config.py:71-82 | the string fields take the file's value or keep theirs; each numeric field takes `float()`/`int()` of its entry when that and every earlier conversion went through, and keeps its value otherwise; loading succeeds iff every numeric entry present converts; no other field changes |
| RunnerConfig.NoSecureFile | ml_runner/config.py:64-87 | with no readable secure file the configuration is unchanged |
| RunnerConfig.FirstSecureWins | ml_runner/config.py:64-87 | the first secure file that loads cleanly decides, and later paths are not read |
| RunnerConfig.EnvStage | ml_runner/config.py:89-101 | environment variables override the string fields; each numeric field becomes `float()`/`int()` of its variable when that is set and non-empty, and is unchanged otherwise; the stage fails iff such a variable does not convert; no other field changes |
| RunnerConfig.ThresholdPrecedence | ml_runner/config.py:52-103 | the confidence threshold comes from a non-empty environment variable, else from the first complete secure file, else stays 0.98 |
| RunnerConfig.KeyPrecedence | ml_runner/config.py:52-103 | the API key comes from the environment, else from the first secure file, else stays unset |
| RunnerConfig.FromEnvDefaults | ml_runner/config.py:52-103 | with no secure file and an empty environment, the defaults are returned |
| RunnerConfig.DirnameJoin | ml_runner/config.py:131 | the directory of `dir/name` is `dir` |
| RunnerConfig.NumberField | ml_runner/config.py:140 | comparing the threshold works iff it is a bool, int or float |
| RunnerConfig.MakeDirsMeans | ml_runner/config.py:146-149 | directory creation succeeds iff every path is a string whose directory can be created |
| RunnerConfig.Validate | ml_runner/config.py:129-149 | each of the missing alert directory, configuration directory, binary and out-of-range threshold is reported iff all earlier checks passed and that check fails; the missing key likewise; a directory that cannot be created only after all checks passed |
| RunnerConfig.ValidateAccepts | ml_runner/config.py:129-149 | validation succeeds iff the paths exist, the threshold is within [0, 1], a key is present for `openai`, and the directories are created |
| RunnerConfig.ThresholdBoundsAccepted | ml_runner/config.py:140 | thresholds 0 and 1 are accepted, both bounds being inclusive |
| Cli.Overrides | main.py:138-151 | fields other than model type, model name, threshold, log file and log level are untouched |
| Cli.ApplyArguments | main.py:124-151 | a configuration path that does not exist exits with 1; without a path the overrides apply to the current configuration |
| Cli.OverridesFields | main.py:138-145 | each override replaces its field only when the argument is truthy |
| Cli.ZeroConfidenceIgnored | main.py:142-143 | `--confidence 0` has the same effect as no `--confidence` |
| Cli.LogLevelChoice | main.py:148-151 | verbose gives DEBUG, whatever quiet says; quiet alone gives WARNING |
| Cli.ConfigFileDiscardsEnvironment | main.py:129-135 | with a configuration file the result does not depend on the environment configuration |
| Cli.TestConfigurationIsValidate | main.py:154-198 | the configuration test succeeds exactly when validation does |
| Cli.EarlyExit | main.py:201-215 | an early exit is always status 0 or 1, and `--test-config` always exits early |
| Cli.TestConfigExitCode | main.py:213-215 | with `--test-config` the status is 0 iff the overridden configuration validates |
| Cli.OpenAiWithoutKeyFails | main.py:154-198 | `--test-config` with the `openai` model and no key exits with 1 |
| Runner.NonBlankLines | ml_runner/ml_enhanced_runner.py:103 | the kept lines are stripped and non-empty |
| Runner.NonBlankAppend | ml_runner/ml_enhanced_runner.py:103 | filtering distributes over concatenation |
| Runner.ReadNewAlerts | ml_runner/ml_enhanced_runner.py:87-112 | the offset moves only forward, to the new size, and only when the file grew and was read; then the lines are the non-blank lines read |
| Runner.NoGrowthNoRead | ml_runner/ml_enhanced_runner.py:93-95 | a file that did not grow yields no lines and keeps the offset |
| Runner.ReadAdvances | ml_runner/ml_enhanced_runner.py:98-103 | a grown file yields the lines after the offset and moves the offset to the size |
| Runner.ExistingLinesSkipped | ml_runner/ml_enhanced_runner.py:66-103 | the content present when monitoring starts is never reported: the first read of a grown file starts at the size seen at start-up, and at 0 for a file missing then |
| Runner.InitialConsistent | ml_runner/ml_enhanced_runner.py:130-136 | the initial counters satisfy the counter invariant |
| Runner.WithFeatures | ml_runner/ml_enhanced_runner.py:228-232 | each batch alert is paired, in order, with the features extracted from it, the temporal ones from its own timestamp |
| Runner.HighConfidenceMeans | ml_runner/ml_enhanced_runner.py:260-275 | a pair is kept iff its analysis succeeded with confidence at or above the threshold |
| Runner.GenerateRules | ml_runner/ml_enhanced_runner.py:292-299 | the rules get consecutive SIDs starting at the current one |
| Runner.EveryResultGivesRule | ml_runner/ml_enhanced_runner.py:292-299 | every high-confidence result yields a rule |
| Runner.GeneratedSidsDistinct | ml_runner/ml_enhanced_runner.py:292-299 | rules of one batch have strictly increasing SIDs |
| Runner.GenerateAndApply | ml_runner/ml_enhanced_runner.py:287-311 | only the rule counter and the SID change; it grows by the rule count iff rules exist and were applied |
| Runner.ProcessResults | ml_runner/ml_enhanced_runner.py:254-285 | high-confidence detections grow by the kept pairs; rules and SIDs grow by at most that |
| Runner.ProcessAlertBatch | ml_runner/ml_enhanced_runner.py:219-252 | an empty batch is a no-op; without an analyzer the batch is dropped; otherwise every alert counts as analysed and the batch time becomes the clock after the analysis and the rules; the batch is always cleared |
| Runner.ParseLines | ml_runner/ml_enhanced_runner.py:201-205 | the alerts are the parsed lines in order; the parsed and error counters together grow by the non-blank lines, and there are no more alerts than non-blank lines |
| Runner.ProcessNewAlerts | ml_runner/ml_enhanced_runner.py:197-217 | parsed alerts are counted and queued; the batch is processed when it is full or stale |
| Runner.BatchTick | ml_runner/ml_enhanced_runner.py:381-394 | a non-empty batch older than the interval is processed, and with an analyzer the next batch is timed from when this run finished; otherwise nothing changes |
| Runner.BatchConsistent | ml_runner/ml_enhanced_runner.py:219-252 | batch processing keeps rules ≤ detections ≤ analyses, and analyses plus queued ≤ processed |
| Runner.NewAlertsConsistent | ml_runner/ml_enhanced_runner.py:197-217 | handling new lines keeps the counter invariant |
| Runner.TickConsistent | ml_runner/ml_enhanced_runner.py:381-394 | the periodic tick keeps the counter invariant |
| Runner.FullBatchProcessed | ml_runner/ml_enhanced_runner.py:212-214 | reaching the batch size with an analyzer processes the whole batch at once, and the next batch is timed from when it finished |
| Installer.AdapterOf | snort3_installer.py:213-219 | an adapter comes only from a line with `: ` and no `@`; it is never `lo` and has no `:` |
| Installer.InterfaceLine | snort3_installer.py:213-219 | a line `index: name: flags` yields the name |
| Installer.AdapterNames | snort3_installer.py:213-219 | no more adapters than lines, never `lo` |
| Installer.AdapterNamesAppend | snort3_installer.py:213-219 | adapters are collected line by line, in order |
| Installer.DuplicatesKept | snort3_installer.py:213-219 | a repeated interface is listed twice |
| Installer.DetectAdapters | snort3_installer.py:206-225 | a listing that exits non-zero yields no adapters; one that prints yields the adapters of its lines, never `lo` and no more than the lines; one whose binary cannot be started raises |
| Installer.AdapterNamesMeans | snort3_installer.py:213-219 | a name is collected iff some line yields it |
| Installer.DetectedMeans | snort3_installer.py:206-225 | an adapter is detected iff `ip link show` printed a line that yields its name |
| Installer.Assign | snort3_installer.py:593-612 | auto needs three adapters and takes the first three in order; manual needs all three names and uses them |
| Installer.RunSteps | snort3_installer.py:480-544 | succeeds iff every step does; otherwise runs exactly up to the first failing step |
| Installer.RunFullInstallation | snort3_installer.py:480-544 | succeeds iff the nine mandatory steps do, then verifies; on failure stops at the first failing mandatory step, without verification |
| Installer.NotRootStopsAtOnce | snort3_installer.py:40-45 | without root privileges nothing else is attempted |
| Installer.VerificationIsAdvisory | snort3_installer.py:533-544 | a failing verification does not make the installation fail |
| Installer.BareMetalMeans | snort3_installer.py:47-75 | bare metal iff neither container nor VM, that is iff neither marker file exists and `systemd-detect-virt` raised, exited non-zero or printed `none` or nothing |
| Installer.InstallerMain | snort3_installer.py:547-617 | listing installs nothing and exits 0, or 1 when `ip` cannot be started; a raising detection or no assignment exits 1; otherwise the exit status follows the installation |
| Installer.TooFewAdapters | snort3_installer.py:593-603 | auto with fewer than three detected adapters exits 1 before any step |
| Installer.FailedListingStops | snort3_installer.py:584-603 | auto with a listing that exits non-zero exits 1; listing or auto with an `ip` that cannot be started exits 1 by the uncaught exception |
| Installer.ExitZeroMeans | snort3_installer.py:547-617 | status 0 iff listing with an `ip` that starts, or, without listing, detection returns, an assignment exists and all mandatory steps succeed |

## Left out

- Analyzer.LocalAnalyze: a severity score that is a string with no bonus to add is a failure here. Python returns it unchanged, and the model has no string confidence.
- Runner.ReadNewAlerts: offsets count characters rather than bytes. The file size and the read are separate parameters, so a file that grows between them is covered.
- Character classes: whitespace for `\s`, `strip()` and `split()` is Python's full `str.isspace` set, including U+001C to U+001F and the Unicode spaces. `\d`, `\w`, `lower()` and `upper()` are taken as ASCII only, while Python also accepts Unicode digits and letters there.
- Timestamps: `_parse_timestamp` is not modelled. The timestamp is kept as its digit fields. The hour and weekday of the features come from a parameter that maps each alert to its moment, because the year is taken from the clock and an unparsable stamp falls back to the clock.
- The remote analyzer: the prompt text, the HTTP call, the JSON decoding of the reply and `asyncio.gather` concurrency are oracles. The manager's batch is modelled as the outcomes in input order.
- Analyzer.ManagerBatch: the analyzers' own counters during the concurrent calls are not tracked, because the interleaving of the coroutines is not modelled.
- Analyzer.BaseBatch: a remote analyzer built with no retries returns None without raising; that is not an outcome of a call here. The factory always builds it with 3 retries.
- Runner.ProcessNewAlerts: the staleness test compares with exactly twice the interval. Python's `timedelta` rounds the interval to whole microseconds first.
- Runner.BatchTick: the tick compares with exactly the interval, where `timedelta` would round it to whole microseconds.
- Runner.BatchConsistent, Runner.NewAlertsConsistent, Runner.TickConsistent: the counter invariant is proved for steps that run one at a time. In the program the monitor task and the batch task interleave at the analysis `await`. Alerts queued during that wait are then cleared without analysis, and a full batch can start a second run over alerts already in flight, counting them twice as analyses.
- `SnortRuleManager.add_rules` and its helpers: backup rotation, `snort -T`, the reload and `_restore_backup` run subprocesses and touch files. The runner takes the result of `add_rules` as a parameter.
- Configuration files: JSON lists and objects are not values. Keys that name methods or dunders in `from_file` are ignored. `validate` in the model fails on any path that is not a string. Python only fails where `os.path.dirname` receives it; `os.path.exists` would accept an integer path as a file descriptor.
- History files, the stats reporter, logging, signal handling and `check_prerequisites` are I/O and are left out.
- The installer's package, download, build and configuration steps are subprocess and file work. Only their success or failure is modelled, as a parameter per step. The detected environment is computed but never used by the installer.
- `rules_generated` counts the rules handed to `add_rules` even when validation later rejects them. SIDs are consumed even when applying fails. Both are kept as in the code.
