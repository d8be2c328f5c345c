/** `_run_cli` and the three adapters that run an accessibility scanner
    through `npx`: how a process outcome becomes a result value, the argv
    each adapter builds and the envelope it returns. */
module Cli {
  import opened Wrappers
  import opened Text
  import opened Url
  import opened Json

  /** What running the command with captured text output and a time limit
      comes to: the process exited with a code and its two captured streams;
      the executable was not found (`FileNotFoundError`); or anything else
      was raised (the timeout among them), with its text. */
  datatype ProcessOutcome =
    | Exited(code: int, stdout: string, stderr: string)
    | BinaryNotFound
    | Fault(message: string)

  /** Running a command. */
  type Runner = seq<string> -> ProcessOutcome

  /** `json.loads`: `None` when it raises `JSONDecodeError`. */
  type Parser = string -> Option<Json>

  const NotFoundSuffix: string := " binary not found. Please ensure it is installed in the system PATH."

  /** An object whose only member is "error". */
  predicate IsError(j: Json) {
    j.JObject? && |j.members| == 1 && j.members[0].0 == "error"
  }

  /** `_run_cli(cmd)`: `cmd[0]` names the executable in the not-found
      message. */
  function RunCli(cmd: seq<string>, run: Runner, parse: Parser): (r: Json)
    requires |cmd| > 0
    ensures run(cmd).Exited? && run(cmd).code == 0 && parse(run(cmd).stdout).Some? ==>
      r == parse(run(cmd).stdout).value
    ensures run(cmd).Exited? && run(cmd).code == 0 && parse(run(cmd).stdout).None? ==>
      r == Single("stdout", Strip(run(cmd).stdout))
    ensures run(cmd).Exited? && run(cmd).code != 0 ==>
      r == Single("error", if AllSpace(run(cmd).stderr) then Strip(run(cmd).stdout) else Strip(run(cmd).stderr))
    ensures run(cmd).BinaryNotFound? ==> r == Single("error", cmd[0] + NotFoundSuffix)
    ensures run(cmd).Fault? ==> r == Single("error", run(cmd).message)
  {
    match run(cmd)
    case Exited(code, stdout, stderr) =>
      if code == 0 then
        match parse(stdout)
        case Some(v) => v
        case None => Single("stdout", Strip(stdout))
      else
        var err := Strip(stderr);
        Single("error", if err != "" then err else Strip(stdout))
    case BinaryNotFound => Single("error", cmd[0] + NotFoundSuffix)
    case Fault(message) => Single("error", message)
  }

  /** Every outcome other than a clean exit becomes a bare error object. */
  lemma FailuresAreErrors(cmd: seq<string>, run: Runner, parse: Parser)
    requires |cmd| > 0
    ensures !(run(cmd).Exited? && run(cmd).code == 0) ==> IsError(RunCli(cmd, run, parse))
  {
  }

  /** The message of a nonzero exit carries no whitespace at either end. */
  lemma NonzeroExitMessageStripped(cmd: seq<string>, run: Runner, parse: Parser)
    requires |cmd| > 0 && run(cmd).Exited? && run(cmd).code != 0
    ensures var msg := RunCli(cmd, run, parse).members[0].1.s;
      msg == [] || (!IsSpace(msg[0]) && !IsSpace(msg[|msg| - 1]))
  {
    var o := run(cmd);
    var t := if AllSpace(o.stderr) then o.stdout else o.stderr;
    assert RunCli(cmd, run, parse) == Single("error", Strip(t));
    var m := Strip(t);
    assert m == [] || (!IsSpace(m[0]) && !IsSpace(m[|m| - 1]));
  }

  /** The not-found message starts with the executable's name. */
  lemma NotFoundNamesExecutable(cmd: seq<string>, run: Runner, parse: Parser)
    requires |cmd| > 0 && run(cmd).BinaryNotFound?
    ensures StartsWith(RunCli(cmd, run, parse).members[0].1.s, cmd[0])
  {
    var msg := cmd[0] + NotFoundSuffix;
    assert RunCli(cmd, run, parse) == Single("error", msg);
    assert msg[..|cmd[0]|] == cmd[0];
  }

  /** A clean exit whose output does not parse is returned as an object whose
      only member is "stdout", so it is never mistaken for an error. */
  lemma CleanExitIsNotError(cmd: seq<string>, run: Runner, parse: Parser)
    requires |cmd| > 0
    requires run(cmd).Exited? && run(cmd).code == 0 && parse(run(cmd).stdout).None?
    ensures !IsError(RunCli(cmd, run, parse))
  {
    assert "stdout" != "error" by {
      assert "stdout"[0] != "error"[0];
    }
  }

  /** The three scanners the adapters run. */
  datatype Tool = Pa11y | AxeDevtools | Lighthouse
  {
    /** The `tool` value of the envelope. */
    function Name(): (s: string)
      ensures s != ""
    {
      match this
      case Pa11y => "pa11y"
      case AxeDevtools => "axe-devtools"
      case Lighthouse => "lighthouse"
    }

    /** The error returned when `npx` is not on the PATH. */
    function NpxMissing(): (s: string)
      ensures s != ""
    {
      match this
      case Pa11y => "npx command not found – Node.js is required for Pa11y."
      case AxeDevtools => "npx command not found – Node.js is required for axe DevTools."
      case Lighthouse => "npx command not found – Node.js is required for Lighthouse."
    }

    /** The fixed argv around the address: `npx`, the package, the address,
        then the options that make the scanner print JSON. */
    function Argv(url: string): (cmd: seq<string>)
      ensures |cmd| >= 3 && cmd[0] == "npx" && cmd[2] == url
      ensures forall i :: 0 <= i < |cmd| && i != 2 ==> cmd[i] != ""
    {
      match this
      case Pa11y => ["npx", "pa11y", url, "--reporter", "json"]
      case AxeDevtools => ["npx", "axe", url, "--tags", "wcag2a,wcag2aa", "--format", "json"]
      case Lighthouse => ["npx", "lighthouse", url, "--only-categories=accessibility", "--quiet",
        "--output=json", "--chrome-flags=--headless"]
    }
  }

  /** An adapter: without `npx` (`shutil.which("npx")` is falsy) a bare
      error and nothing run; otherwise the tool's name, the normalized
      address and `_run_cli` of the tool's argv on that address. */
  function RunTool(tool: Tool, url: string, npxFound: bool, run: Runner, parse: Parser): (r: Json)
    ensures !npxFound ==> IsError(r) && r == Single("error", tool.NpxMissing())
    ensures npxFound ==>
      var u := NormalizeUrl(url);
      r == JObject([("tool", JString(tool.Name())), ("url", JString(u)), ("result", RunCli(tool.Argv(u), run, parse))])
  {
    if !npxFound then Single("error", tool.NpxMissing())
    else
      var u := NormalizeUrl(url);
      JObject([("tool", JString(tool.Name())), ("url", JString(u)), ("result", RunCli(tool.Argv(u), run, parse))])
  }

  /** `run_pa11y` */
  function RunPa11y(url: string, npxFound: bool, run: Runner, parse: Parser): (r: Json)
    ensures !npxFound ==> r == Single("error", "npx command not found – Node.js is required for Pa11y.")
    ensures npxFound ==> var u := NormalizeUrl(url);
      r.JObject? && |r.members| == 3 && r.members[0] == ("tool", JString("pa11y"))
      && r.members[1] == ("url", JString(u))
      && r.members[2] == ("result", RunCli(["npx", "pa11y", u, "--reporter", "json"], run, parse))
  {
    RunTool(Pa11y, url, npxFound, run, parse)
  }

  /** `run_axe_devtools` */
  function RunAxeDevtools(url: string, npxFound: bool, run: Runner, parse: Parser): (r: Json)
    ensures !npxFound ==> r == Single("error", "npx command not found – Node.js is required for axe DevTools.")
    ensures npxFound ==> var u := NormalizeUrl(url);
      r.JObject? && |r.members| == 3 && r.members[0] == ("tool", JString("axe-devtools"))
      && r.members[1] == ("url", JString(u))
      && r.members[2] == ("result", RunCli(["npx", "axe", u, "--tags", "wcag2a,wcag2aa", "--format", "json"], run, parse))
  {
    RunTool(AxeDevtools, url, npxFound, run, parse)
  }

  /** `run_lighthouse_accessibility` */
  function RunLighthouseAccessibility(url: string, npxFound: bool, run: Runner, parse: Parser): (r: Json)
    ensures !npxFound ==> r == Single("error", "npx command not found – Node.js is required for Lighthouse.")
    ensures npxFound ==> var u := NormalizeUrl(url);
      r.JObject? && |r.members| == 3 && r.members[0] == ("tool", JString("lighthouse"))
      && r.members[1] == ("url", JString(u))
      && r.members[2] == ("result", RunCli(["npx", "lighthouse", u, "--only-categories=accessibility", "--quiet",
        "--output=json", "--chrome-flags=--headless"], run, parse))
  {
    RunTool(Lighthouse, url, npxFound, run, parse)
  }

  /** Without `npx` nothing is run: any two runners give the same result. */
  lemma WithoutNpxNothingRuns(tool: Tool, url: string, run1: Runner, run2: Runner, parse: Parser)
    ensures RunTool(tool, url, false, run1, parse) == RunTool(tool, url, false, run2, parse)
  {
  }

  /** With `npx` the result depends on the runner only through what it does
      with the tool's argv on the normalized address, which starts with
      "http". */
  lemma WithNpxRunsArgv(tool: Tool, url: string, run1: Runner, run2: Runner, parse: Parser)
    requires run1(tool.Argv(NormalizeUrl(url))) == run2(tool.Argv(NormalizeUrl(url)))
    ensures RunTool(tool, url, true, run1, parse) == RunTool(tool, url, true, run2, parse)
    ensures StartsWith(tool.Argv(NormalizeUrl(url))[2], "http")
  {
  }

  /** The envelope of an adapter that found `npx` is never a bare error. */
  lemma EnvelopeIsNotError(tool: Tool, url: string, run: Runner, parse: Parser)
    ensures !IsError(RunTool(tool, url, true, run, parse))
  {
  }
}
