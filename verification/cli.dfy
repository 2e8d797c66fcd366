/** The command-line front end (main.py): how the parsed arguments change
    the configuration, and the exit code of `--test-config`. */
module Cli {
  import opened Wrappers
  import opened RunnerConfig

  /** The parsed arguments that matter here; an option not given is None.
      argparse restricts `--model` to `openai` and `local`. */
  datatype Args = Args(
    model: Option<string>,
    modelName: Option<string>,
    confidence: Option<real>,
    configPath: Option<string>,
    testConfig: bool,
    verbose: bool,
    quiet: bool,
    logFile: Option<string>)

  /** Python truthiness of an optional argument. */
  predicate Given(v: Option<string>) {
    v.Some? && v.value != ""
  }

  predicate GivenNumber(v: Option<real>) {
    v.Some? && v.value != 0.0
  }

  /** What `apply_arguments` leads to: the configuration `main` itself goes
      on with, a `sys.exit(code)`, or an exception from loading the file
      (Python then exits with status 1 after a traceback). `--test-config`
      validates this configuration. A file loaded with `--config` rebinds
      only `main`'s global, so neither the file nor the overrides applied to
      it reach the runner, which imported the original object. */
  datatype Applied = Proceed(config: Config) | Exit(code: int) | Crash

  /** The argument overrides, each applied only when truthy, and the log
      level, where `--verbose` beats `--quiet`. */
  function Overrides(args: Args, c: Config): (r: Config)
    ensures forall f: Field :: f !in {ModelType, ModelName, ConfidenceThreshold, LogFile, LogLevel} ==> r[f] == c[f]
  {
    var c1 := if Given(args.model) then c[ModelType := JStr(args.model.value)] else c;
    var c2 := if Given(args.modelName) then c1[ModelName := JStr(args.modelName.value)] else c1;
    var c3 := if GivenNumber(args.confidence) then c2[ConfidenceThreshold := JFloat(args.confidence.value)] else c2;
    var c4 := if Given(args.logFile) then c3[LogFile := JStr(args.logFile.value)] else c3;
    if args.verbose then c4[LogLevel := JStr("DEBUG")]
    else if args.quiet then c4[LogLevel := JStr("WARNING")]
    else c4
  }

  /** `apply_arguments`, with the file system as two oracles: whether a path
      exists, and the items of the JSON object read from it (None when
      reading or decoding raises). */
  function ApplyArguments(args: Args, c: Config, present: string -> bool, read: string -> Option<Items>): (r: Applied)
    ensures Given(args.configPath) && !present(args.configPath.value) ==> r == Exit(1)
    ensures !Given(args.configPath) ==> r == Proceed(Overrides(args, c))
  {
    if Given(args.configPath) then
      if !present(args.configPath.value) then Exit(1)
      else match read(args.configPath.value)
        case None => Crash
        case Some(items) => Proceed(Overrides(args, FromFile(items)))
    else Proceed(Overrides(args, c))
  }

  /** Each override sets its own field from the argument, or leaves it. */
  lemma OverridesFields(args: Args, c: Config)
    ensures var r := Overrides(args, c);
            && r[ModelType] == (if Given(args.model) then JStr(args.model.value) else c[ModelType])
            && r[ModelName] == (if Given(args.modelName) then JStr(args.modelName.value) else c[ModelName])
            && r[LogFile] == (if Given(args.logFile) then JStr(args.logFile.value) else c[LogFile])
            && r[ConfidenceThreshold] == (if GivenNumber(args.confidence) then JFloat(args.confidence.value) else c[ConfidenceThreshold])
  {
  }

  /** `--confidence 0` is indistinguishable from no `--confidence`. */
  lemma ZeroConfidenceIgnored(args: Args, c: Config)
    requires args.confidence == Some(0.0)
    ensures Overrides(args, c) == Overrides(args.(confidence := None), c)
  {
  }

  /** The log level: DEBUG when verbose (whatever quiet says), WARNING when
      only quiet, unchanged otherwise. */
  lemma LogLevelChoice(args: Args, c: Config)
    ensures Overrides(args, c)[LogLevel] ==
              if args.verbose then JStr("DEBUG")
              else if args.quiet then JStr("WARNING")
              else c[LogLevel]
  {
  }

  /** A configuration file replaces the configuration built from the
      environment entirely: the result does not depend on it. */
  lemma ConfigFileDiscardsEnvironment(args: Args, c: Config, c': Config, present: string -> bool, read: string -> Option<Items>)
    requires Given(args.configPath)
    ensures ApplyArguments(args, c, present, read) == ApplyArguments(args, c', present, read)
  {
  }

  /** `test_configuration`: validation first, then the key check and the
      three location checks, all of which repeat checks of `validate`. */
  function TestConfiguration(c: Config, present: string -> bool, makeDirs: string -> bool): bool {
    if Validate(c, present, makeDirs).Failure? then false
    else if c[ModelType] == JStr("openai") && !Truthy(c[ApiKey]) then false
    else if !(c[SnortBinary].JStr? && present(c[SnortBinary].s)) then false
    else if !(c[SnortConfigDir].JStr? && present(c[SnortConfigDir].s)) then false
    else c[SnortAlertFile].JStr? && present(Dirname(c[SnortAlertFile].s))
  }

  /** The later checks of `test_configuration` never decide: it succeeds
      exactly when `validate` does. */
  lemma TestConfigurationIsValidate(c: Config, present: string -> bool, makeDirs: string -> bool)
    ensures TestConfiguration(c, present, makeDirs) <==> Validate(c, present, makeDirs).Success?
  {
    ValidateAccepts(c, present, makeDirs);
  }

  /** The exit status when `main` stops before monitoring, or None when it
      goes on to the prerequisite checks and the runner. */
  function EarlyExit(args: Args, c: Config, present: string -> bool, read: string -> Option<Items>,
                     makeDirs: string -> bool): (r: Option<int>)
    ensures r.Some? ==> r.value == 0 || r.value == 1
    ensures r.None? ==> !args.testConfig
  {
    match ApplyArguments(args, c, present, read)
    case Exit(code) => Some(code)
    case Crash => Some(1)
    case Proceed(c') =>
      if args.testConfig then Some(if TestConfiguration(c', present, makeDirs) then 0 else 1)
      else None
  }

  /** With `--test-config` and no configuration file, the exit status is 0
      exactly when the overridden configuration validates. */
  lemma TestConfigExitCode(args: Args, c: Config, present: string -> bool, read: string -> Option<Items>,
                           makeDirs: string -> bool)
    requires args.testConfig && !Given(args.configPath)
    ensures EarlyExit(args, c, present, read, makeDirs)
              == Some(if Validate(Overrides(args, c), present, makeDirs).Success? then 0 else 1)
  {
    TestConfigurationIsValidate(Overrides(args, c), present, makeDirs);
  }

  /** `--test-config` with the `openai` model and no key exits with 1. */
  lemma OpenAiWithoutKeyFails(args: Args, c: Config, present: string -> bool, read: string -> Option<Items>,
                              makeDirs: string -> bool)
    requires args.testConfig && !Given(args.configPath)
    requires Overrides(args, c)[ModelType] == JStr("openai") && !Truthy(c[ApiKey])
    ensures EarlyExit(args, c, present, read, makeDirs) == Some(1)
  {
    var c' := Overrides(args, c);
    assert c'[ApiKey] == c[ApiKey];
    ValidateAccepts(c', present, makeDirs);
  }
}
