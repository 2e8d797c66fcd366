/** The decisions of snort3_installer.py: which adapter names `ip link
    show` yields, how the three adapters are assigned, the order in which
    installation steps run and stop, the environment flags, and the exit
    status. Every command and file operation is an oracle. */
module Installer {
  import opened Wrappers
  import opened Strings

  // ------------------------------------------------------------ adapters

  /** The adapter name one line of `ip link show` contributes: only lines
      with `": "` and without `@` count; the name is the second
      `": "`-separated field up to its first `:`; `lo` is dropped. */
  function AdapterOf(line: string): (r: Option<string>)
    ensures r.Some? ==> Contains(line, ": ") && Free(line, '@') && r.value != "lo" && Free(r.value, ':')
  {
    if Contains(line, ": ") && Free(line, '@') then
      var parts := SplitOn(line, ": ");
      if |parts| >= 2 then
        var name := TakeUntil(parts[1], ':');
        if name != "lo" then Some(name) else None
      else None
    else None
  }

  /** The names of a list of lines, in line order, duplicates kept. */
  function AdapterNames(lines: seq<string>): (r: seq<string>)
    ensures |r| <= |lines|
    ensures forall i :: 0 <= i < |r| ==> r[i] != "lo"
    decreases |lines|
  {
    if |lines| == 0 then []
    else
      var init := AdapterNames(lines[..|lines| - 1]);
      match AdapterOf(lines[|lines| - 1])
      case Some(name) => init + [name]
      case None => init
  }

  /** How running `ip link show` ends: its output, a non-zero exit
      (`CalledProcessError`), or no process at all because the binary cannot
      be started (`FileNotFoundError` or another `OSError`). */
  datatype IpRun = Printed(text: string) | ExitedNonZero | NotStarted

  /** `detect_network_adapters`: the names in the command's output, none when
      the command fails, and None when it cannot be started: only
      `CalledProcessError` is caught, so that exception reaches the caller. */
  function DetectAdapters(run: IpRun): (r: Option<seq<string>>)
    ensures r.None? <==> run.NotStarted?
    ensures run.ExitedNonZero? ==> r == Some([])
    ensures run.Printed? ==> r == Some(AdapterNames(SplitOn(run.text, "\n")))
    ensures r.Some? ==> forall i :: 0 <= i < |r.value| ==> r.value[i] != "lo"
    ensures run.Printed? ==> |r.value| <= |SplitOn(run.text, "\n")|
  {
    match run
    case Printed(text) => Some(AdapterNames(SplitOn(text, "\n")))
    case ExitedNonZero => Some([])
    case NotStarted => None
  }

  /** Names are collected line by line: output split anywhere between
      lines gives the names of the first part followed by those of the
      second. */
  lemma {:induction false} AdapterNamesAppend(a: seq<string>, b: seq<string>)
    ensures AdapterNames(a + b) == AdapterNames(a) + AdapterNames(b)
    decreases |b|
  {
    if |b| > 0 {
      var b' := b[..|b| - 1];
      AdapterNamesAppend(a, b');
      assert (a + b)[..|a + b| - 1] == a + b';
      assert (a + b)[|a + b| - 1] == b[|b| - 1];
    } else {
      assert a + b == a;
    }
  }

  /** A name is collected exactly when some line yields it. */
  lemma {:induction false} AdapterNamesMeans(lines: seq<string>, name: string)
    ensures name in AdapterNames(lines) <==> exists i :: 0 <= i < |lines| && AdapterOf(lines[i]) == Some(name)
    decreases |lines|
  {
    if |lines| > 0 {
      var n := |lines| - 1;
      AdapterNamesMeans(lines[..n], name);
      assert forall i :: 0 <= i < n ==> lines[..n][i] == lines[i];
    }
  }

  /** An adapter is detected exactly when `ip link show` printed a line
      that yields its name. */
  lemma DetectedMeans(run: IpRun, name: string)
    ensures (DetectAdapters(run).Some? && name in DetectAdapters(run).value) <==>
              run.Printed? && exists line :: line in SplitOn(run.text, "\n") && AdapterOf(line) == Some(name)
  {
    if run.Printed? {
      var lines := SplitOn(run.text, "\n");
      AdapterNamesMeans(lines, name);
      assert (exists line :: line in lines && AdapterOf(line) == Some(name))
             <==> exists i :: 0 <= i < |lines| && AdapterOf(lines[i]) == Some(name);
    }
  }

  /** A line yields its name alone, or nothing. */
  lemma AdapterNamesOne(line: string)
    ensures AdapterNames([line]) == match AdapterOf(line) case Some(n) => [n] case None => []
  {
    assert [line][..0] == [];
  }

  /** A repeated line repeats its name: duplicates are not removed. */
  lemma DuplicatesKept(line: string, name: string)
    requires AdapterOf(line) == Some(name)
    ensures AdapterNames([line, line]) == [name, name]
  {
    AdapterNamesOne(line);
    AdapterNamesAppend([line], [line]);
    assert [line] + [line] == [line, line];
  }

  /** `": "` is first found right after a prefix without `:`. */
  lemma FindColonSpace(x: string, t: string)
    requires Free(x, ':')
    ensures Find(x + ": " + t, ": ") == |x|
  {
    var s := x + ": " + t;
    assert s[|x|..|x| + 2] == ": ";
    assert OccursAt(s, ": ", |x|);
    forall k | 0 <= k < |x|
      ensures !OccursAt(s, ": ", k)
    {
      assert s[k..k + 2][0] == x[k];
    }
  }

  lemma FreeConcat(a: string, b: string, c: char)
    requires Free(a, c) && Free(b, c)
    ensures Free(a + b, c)
  {
    assert forall i :: |a| <= i < |a + b| ==> (a + b)[i] == b[i - |a|];
  }

  /** The usual shape of an interface line, `<index>: <name>: <flags...>`,
      yields the name. */
  lemma InterfaceLine(index: string, name: string, flags: string)
    requires Free(index, ':') && Free(index, '@')
    requires Free(name, ':') && Free(name, '@') && name != "lo"
    requires Free(flags, '@')
    ensures AdapterOf(index + ": " + name + ": " + flags) == Some(name)
  {
    var line := index + ": " + name + ": " + flags;
    InterfaceLineFree(index, name, flags);
    InterfaceLineName(index, name, flags);
    var parts := SplitOn(line, ": ");
    assert TakeUntil(parts[1], ':') == name by {
      IndexOfFree(name, ':');
      assert name[..|name|] == name;
    }
  }

  /** Such a line has a `": "` and no `@`. */
  lemma InterfaceLineFree(index: string, name: string, flags: string)
    requires Free(index, ':') && Free(index, '@')
    requires Free(name, '@') && Free(flags, '@')
    ensures Contains(index + ": " + name + ": " + flags, ": ")
    ensures Free(index + ": " + name + ": " + flags, '@')
  {
    FindColonSpace(index, name + ": " + flags);
    assert index + ": " + name + ": " + flags == index + ": " + (name + ": " + flags);
    FreeConcat(index, ": ", '@');
    FreeConcat(index + ": ", name, '@');
    FreeConcat(index + ": " + name, ": ", '@');
    FreeConcat(index + ": " + name + ": ", flags, '@');
  }

  /** Its second `": "`-separated field is the name. */
  lemma InterfaceLineName(index: string, name: string, flags: string)
    requires Free(index, ':') && Free(name, ':')
    ensures |SplitOn(index + ": " + name + ": " + flags, ": ")| >= 2
    ensures SplitOn(index + ": " + name + ": " + flags, ": ")[1] == name
  {
    var rest := name + ": " + flags;
    var line := index + ": " + rest;
    assert index + ": " + name + ": " + flags == line;
    FindColonSpace(index, rest);
    FindColonSpace(name, flags);
    assert line[|index| + 2..] == rest;
    var parts := SplitOn(line, ": ");
    assert parts[1..] == SplitOn(rest, ": ");
    assert rest[..|name|] == name;
  }

  // -------------------------------------------------------- assignment

  /** The installer's arguments that decide what happens. */
  datatype InstallerArgs = InstallerArgs(
    incoming: Option<string>,
    offload: Option<string>,
    control: Option<string>,
    auto: bool,
    listAdapters: bool)

  /** Incoming, offload and control adapter. */
  datatype Assignment = Assignment(incoming: string, offload: string, control: string)

  predicate Given(v: Option<string>) {
    v.Some? && v.value != ""
  }

  /** The adapter choice in `main`: with `--auto`, the first three detected
      adapters (fewer than three is an error); otherwise all three manual
      flags are needed. */
  function Assign(args: InstallerArgs, detected: seq<string>): (r: Option<Assignment>)
    ensures args.auto ==> (r.Some? <==> |detected| >= 3)
    ensures args.auto && r.Some? ==> r.value == Assignment(detected[0], detected[1], detected[2])
    ensures !args.auto ==> (r.Some? <==> Given(args.incoming) && Given(args.offload) && Given(args.control))
    ensures !args.auto && r.Some? ==>
              r.value == Assignment(args.incoming.value, args.offload.value, args.control.value)
  {
    if args.auto then
      if |detected| < 3 then None else Some(Assignment(detected[0], detected[1], detected[2]))
    else if Given(args.incoming) && Given(args.offload) && Given(args.control) then
      Some(Assignment(args.incoming.value, args.offload.value, args.control.value))
    else None
  }

  // ----------------------------------------------------------- steps

  /** The steps of `run_full_installation`. */
  datatype Step =
    | CheckRoot
    | InstallDependencies
    | InstallLibdaq
    | InstallSnort3
    | ConfigureAdapters(assignment: Assignment)
    | CreateConfig
    | CreateService
    | CreatePersistence
    | EnableService
    | VerifyInstallation

  /** The root check and the eight steps whose failure stops the run. */
  function Mandatory(a: Assignment): (r: seq<Step>)
    ensures |r| == 9 && VerifyInstallation !in r
  {
    [CheckRoot, InstallDependencies, InstallLibdaq, InstallSnort3, ConfigureAdapters(a),
     CreateConfig, CreateService, CreatePersistence, EnableService]
  }

  /** Runs steps in order up to and including the first that fails: the
      verdict and the steps that ran. */
  function RunSteps(steps: seq<Step>, outcome: Step -> bool): (r: (bool, seq<Step>))
    ensures r.0 <==> forall i :: 0 <= i < |steps| ==> outcome(steps[i])
    ensures r.0 ==> r.1 == steps
    ensures !r.0 ==> 0 < |r.1| <= |steps| && r.1 == steps[..|r.1|] && !outcome(r.1[|r.1| - 1])
                     && forall i :: 0 <= i < |r.1| - 1 ==> outcome(r.1[i])
    decreases |steps|
  {
    if |steps| == 0 then (true, [])
    else if !outcome(steps[0]) then (false, [steps[0]])
    else
      var (ok, ran) := RunSteps(steps[1..], outcome);
      assert forall i :: 1 <= i < |steps| ==> steps[1..][i - 1] == steps[i];
      assert !ok ==> [steps[0]] + ran == steps[..|ran| + 1];
      (ok, [steps[0]] + ran)
  }

  /** `run_full_installation`: true exactly when every mandatory step
      succeeds; it stops at the first failure; the verification step runs
      last and its result does not matter. */
  function RunFullInstallation(a: Assignment, outcome: Step -> bool): (r: (bool, seq<Step>))
    ensures r.0 <==> forall i :: 0 <= i < 9 ==> outcome(Mandatory(a)[i])
    ensures r.0 ==> r.1 == Mandatory(a) + [VerifyInstallation]
    ensures !r.0 ==> 0 < |r.1| <= 9 && VerifyInstallation !in r.1 && r.1 == Mandatory(a)[..|r.1|]
                     && !outcome(r.1[|r.1| - 1])
  {
    var (ok, ran) := RunSteps(Mandatory(a), outcome);
    if ok then (true, ran + [VerifyInstallation]) else (false, ran)
  }

  /** Without root nothing else runs. */
  lemma NotRootStopsAtOnce(a: Assignment, outcome: Step -> bool)
    requires !outcome(CheckRoot)
    ensures RunFullInstallation(a, outcome) == (false, [CheckRoot])
  {
  }

  /** A failed verification still counts as a successful installation. */
  lemma VerificationIsAdvisory(a: Assignment, outcome: Step -> bool)
    requires forall i :: 0 <= i < 9 ==> outcome(Mandatory(a)[i])
    requires !outcome(VerifyInstallation)
    ensures RunFullInstallation(a, outcome).0
  {
  }

  // ------------------------------------------------------ environment

  /** The flags `detect_environment` reports. */
  datatype EnvFlags = EnvFlags(container: bool, vm: bool, bareMetal: bool)

  /** `detect_environment`: a container when either marker file exists,
      a VM when `systemd-detect-virt` exits 0 with output other than
      `none` or blank (None when running it raises). */
  function DetectEnvironment(dockerenv: bool, containerenv: bool, virt: Option<(int, string)>): (r: EnvFlags)
    ensures r.container <==> dockerenv || containerenv
    ensures r.vm <==> virt.Some? && virt.value.0 == 0 && Strip(virt.value.1) != "none" && Strip(virt.value.1) != ""
  {
    var container := dockerenv || containerenv;
    var vm := virt.Some? && virt.value.0 == 0 && Strip(virt.value.1) != "none" && Strip(virt.value.1) != "";
    EnvFlags(container, vm, !container && !vm)
  }

  /** Bare metal means neither a container nor a VM was seen: no marker
      file, and `systemd-detect-virt` raised, failed, or named no
      hypervisor. */
  lemma BareMetalMeans(dockerenv: bool, containerenv: bool, virt: Option<(int, string)>)
    ensures var r := DetectEnvironment(dockerenv, containerenv, virt);
            r.bareMetal <==> !r.container && !r.vm
    ensures DetectEnvironment(dockerenv, containerenv, virt).bareMetal <==>
              && !dockerenv && !containerenv
              && (virt.None? || virt.value.0 != 0 || Strip(virt.value.1) in ["none", ""])
  {
  }

  // ------------------------------------------------------------- main

  /** The adapters `main` detects: only `--auto` runs the detection; None
      when it raises. */
  function Detected(args: InstallerArgs, run: IpRun): Option<seq<string>> {
    if args.auto then DetectAdapters(run) else Some([])
  }

  /** `main` run as a script: the exit status and the installation steps
      that ran, given how `ip link show` ends and the outcome of each step.
      An exception that leaves `main` ends the interpreter with status 1. */
  function InstallerMain(args: InstallerArgs, run: IpRun, outcome: Step -> bool): (r: (int, seq<Step>))
    ensures args.listAdapters ==> r == (if run.NotStarted? then 1 else 0, [])
    ensures r.0 == 0 || r.0 == 1
    ensures !args.listAdapters ==>
              match Detected(args, run)
              case None => r == (1, [])
              case Some(ds) =>
                match Assign(args, ds)
                case None => r == (1, [])
                case Some(a) => r == (if RunFullInstallation(a, outcome).0 then 0 else 1, RunFullInstallation(a, outcome).1)
  {
    if args.listAdapters then
      match DetectAdapters(run)
      case None => (1, [])
      case Some(_) => (0, [])
    else
      match Detected(args, run)
      case None => (1, [])
      case Some(detected) =>
        match Assign(args, detected)
        case None => (1, [])
        case Some(a) =>
          var (ok, ran) := RunFullInstallation(a, outcome);
          (if ok then 0 else 1, ran)
  }

  /** With `--auto`, fewer than three adapters ends with status 1 before
      any installation step. */
  lemma TooFewAdapters(args: InstallerArgs, run: IpRun, outcome: Step -> bool)
    requires args.auto && !args.listAdapters
    requires DetectAdapters(run).Some? && |DetectAdapters(run).value| < 3
    ensures InstallerMain(args, run, outcome) == (1, [])
  {
  }

  /** A failed `ip link show` under `--auto` finds no adapters, so the run
      ends with status 1; one that cannot be started ends it the same way,
      by the uncaught exception, with or without `--list-adapters`. */
  lemma FailedListingStops(args: InstallerArgs, outcome: Step -> bool)
    requires args.auto || args.listAdapters
    ensures InstallerMain(args, NotStarted, outcome) == (1, [])
    ensures !args.listAdapters ==> InstallerMain(args, ExitedNonZero, outcome) == (1, [])
  {
  }

  /** Exit status 0 means the adapters were listed, or they were assigned and
      every mandatory step succeeded. */
  lemma ExitZeroMeans(args: InstallerArgs, run: IpRun, outcome: Step -> bool)
    ensures InstallerMain(args, run, outcome).0 == 0 <==>
              if args.listAdapters then !run.NotStarted?
              else
                && Detected(args, run).Some?
                && Assign(args, Detected(args, run).value).Some?
                && forall i :: 0 <= i < 9 ==> outcome(Mandatory(Assign(args, Detected(args, run).value).value)[i])
  {
  }
}
