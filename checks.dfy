/**
  The tool probes of internal/checks/checks.go. Each probe asks the
  command runner about one tool and classifies the answer into a
  CheckResult; the runner calls it made are returned beside the result,
  in order, so that what was asked can be stated as well as what was
  concluded.
 */
module Checks {
  import opened Wrappers
  import opened Text
  import SemVer

  /** One answer of the runner to `Output(name, args...)`: what the command
      wrote on standard output, and whether it exited without error. The
      output is kept even when the command failed. */
  datatype Reply = Reply(stdout: string, ok: bool)

  /** The command runner (the package-level CommandRunner) as an oracle:
      `output` answers `Output(name, args...)`, `run` says whether
      `Run(name, args...)` returned no error. */
  datatype Runner = Runner(output: (string, seq<string>) -> Reply, run: (string, seq<string>) -> bool)

  /** One request made to the runner. */
  datatype Call = Output(name: string, args: seq<string>) | Run(name: string, args: seq<string>)

  /** The errors a probe reports. */
  datatype Failure =
    | CommandFailed(name: string, args: seq<string>)
    | DaemonNotRunning
    | NotRunningOrNotConfigured
    | NeitherDockerNorPodman
    | ExtensionNotInstalled
    | InvalidInstalledVersion(version: string)
    | InvalidRequiredRange(range: string)
    | RangeNotSatisfied(version: string, range: string)
    | NotLoggedIn(cause: Failure)
    | ProjectNotInitialized(reason: string)
    | NoProjectReturned

  datatype CheckResult = CheckResult(
    name: string,
    installed: bool,
    version: string,
    running: bool,
    hasDaemon: bool,
    error: Option<Failure>)

  /** A probe's result together with the runner calls it made, in order. */
  datatype Probed = Probed(result: CheckResult, calls: seq<Call>)

  const VersionFlag: seq<string> := ["--version"]

  /** True of a result CheckTool builds for a command that answered. */
  predicate Answered(res: CheckResult, name: string, reply: Reply) {
    && res.name == name && res.installed && res.running && !res.hasDaemon && res.error == None
    && res.version == TrimSpace(reply.stdout)
  }

  /** CheckTool: one `Output` call; a command that fails is reported as not
      installed under its own name, one that answers as installed and
      running, with its trimmed output as the version. */
  function CheckTool(r: Runner, name: string, args: seq<string>): (p: Probed)
    ensures p.calls == [Output(name, args)]
    ensures p.result.installed <==> r.output(name, args).ok
    ensures p.result.installed ==> Answered(p.result, name, r.output(name, args))
    ensures !p.result.installed ==>
      && p.result.name == name && !p.result.running && !p.result.hasDaemon
      && p.result.error == Some(CommandFailed(name, args))
  {
    var reply := r.output(name, args);
    if reply.ok then
      Probed(CheckResult(name, true, TrimSpace(reply.stdout), true, false, None), [Output(name, args)])
    else
      Probed(CheckResult(name, false, "", false, false, Some(CommandFailed(name, args))), [Output(name, args)])
  }

  // ---------------------------------------------------------------------------
  // Fixed-name probes: `<tool> --version`

  function CheckNode(r: Runner): (p: Probed)
    ensures p.calls == [Output("node", VersionFlag)] && p.result.name == "node"
    ensures p.result.installed <==> r.output("node", VersionFlag).ok
  {
    CheckTool(r, "node", VersionFlag)
  }

  function CheckDotNet(r: Runner): (p: Probed)
    ensures p.calls == [Output("dotnet", VersionFlag)] && p.result.name == "dotnet"
    ensures p.result.installed <==> r.output("dotnet", VersionFlag).ok
  {
    CheckTool(r, "dotnet", VersionFlag)
  }

  function CheckAzureFunctionsCoreTools(r: Runner): (p: Probed)
    ensures p.calls == [Output("func", VersionFlag)] && p.result.name == "func"
    ensures p.result.installed <==> r.output("func", VersionFlag).ok
  {
    CheckTool(r, "func", VersionFlag)
  }

  function CheckSwaCli(r: Runner): (p: Probed)
    ensures p.calls == [Output("swa", VersionFlag)] && p.result.name == "swa"
    ensures p.result.installed <==> r.output("swa", VersionFlag).ok
  {
    CheckTool(r, "swa", VersionFlag)
  }

  function CheckGit(r: Runner): (p: Probed)
    ensures p.calls == [Output("git", VersionFlag)] && p.result.name == "git"
    ensures p.result.installed <==> r.output("git", VersionFlag).ok
  {
    CheckTool(r, "git", VersionFlag)
  }

  function CheckGh(r: Runner): (p: Probed)
    ensures p.calls == [Output("gh", VersionFlag)] && p.result.name == "gh"
    ensures p.result.installed <==> r.output("gh", VersionFlag).ok
  {
    CheckTool(r, "gh", VersionFlag)
  }

  function CheckTerraform(r: Runner): (p: Probed)
    ensures p.calls == [Output("terraform", VersionFlag)] && p.result.name == "terraform"
    ensures p.result.installed <==> r.output("terraform", VersionFlag).ok
  {
    CheckTool(r, "terraform", VersionFlag)
  }

  // ---------------------------------------------------------------------------
  // Probes with a fallback

  /** The container runtimes CheckDockerWithOS tries, in order. Linux,
      macOS, Windows and every other OS have their own branch, and all of
      them choose docker first and podman second. */
  function RuntimeOrder(goos: string): (order: (string, string))
    ensures order == ("docker", "podman")
  {
    if goos == "linux" then ("docker", "podman")
    else if goos == "darwin" || goos == "windows" then ("docker", "podman")
    else ("docker", "podman")
  }

  /** What CheckDockerWithOS reports: the first runtime that answers
      `--version` is the result, and its daemon is probed with `info` on that
      same binary; with neither runtime present no daemon probe is made. */
  predicate DockerAnswer(r: Runner, p: Probed) {
    var docker, podman := Output("docker", VersionFlag), Output("podman", VersionFlag);
    && p.calls == (if r.output("docker", VersionFlag).ok then [docker, Run("docker", ["info"])]
                   else if r.output("podman", VersionFlag).ok then [docker, podman, Run("podman", ["info"])]
                   else [docker, podman])
    && (p.result.installed <==> r.output("docker", VersionFlag).ok || r.output("podman", VersionFlag).ok)
    && (p.result.installed ==>
          && p.result.name == (if r.output("docker", VersionFlag).ok then "docker" else "podman")
          && p.result.hasDaemon
          && p.result.version == TrimSpace(r.output(p.result.name, VersionFlag).stdout)
          && (p.result.running <==> r.run(p.result.name, ["info"]))
          && p.result.error == if p.result.running then None
                               else Some(if p.result.name == "docker" then DaemonNotRunning else NotRunningOrNotConfigured))
    && (!p.result.installed ==>
          p.result == CheckResult("docker/podman", false, "", false, false, Some(NeitherDockerNorPodman)))
  }

  method CheckDockerWithOS(goos: string, r: Runner) returns (p: Probed)
    ensures DockerAnswer(r, p)
  {
    var (primary, secondary) := RuntimeOrder(goos);
    p := TryRuntime(r, primary, DaemonNotRunning);
    if p.result.installed {
      return;
    }
    var first := p.calls;
    p := TryRuntime(r, secondary, NotRunningOrNotConfigured);
    if p.result.installed {
      p := p.(calls := first + p.calls);
      return;
    }
    return Probed(CheckResult("docker/podman", false, "", false, false, Some(NeitherDockerNorPodman)), first + p.calls);
  }

  /** One runtime of CheckDockerWithOS: `--version`, and when that answers,
      the daemon probe `info` on the same binary, failing with `down` when
      the daemon does not answer. */
  method TryRuntime(r: Runner, name: string, down: Failure) returns (p: Probed)
    ensures var ok, up := r.output(name, VersionFlag).ok, r.run(name, ["info"]);
      && p.result.installed == ok
      && p.calls == [Output(name, VersionFlag)] + (if ok then [Run(name, ["info"])] else [])
      && (ok ==> p.result == CheckResult(name, true, TrimSpace(r.output(name, VersionFlag).stdout), up, true,
                                         if up then None else Some(down)))
  {
    p := CheckTool(r, name, VersionFlag);
    if p.result.installed {
      var res := p.result.(name := name, hasDaemon := true);
      if !r.run(name, ["info"]) {
        res := res.(running := false, error := Some(down));
      }
      p := Probed(res, p.calls + [Run(name, ["info"])]);
    }
  }

  /** The Python commands CheckPythonWithOS tries, in order: `python` first
      on Windows, `python3` first everywhere else. */
  function PythonOrder(goos: string): (order: (string, string))
    ensures goos == "windows" ==> order == ("python", "python3")
    ensures goos != "windows" ==> order == ("python3", "python")
  {
    if goos == "windows" then ("python", "python3")
    else if goos == "darwin" || goos == "linux" then ("python3", "python")
    else ("python3", "python")
  }

  /** What CheckPythonWithOS reports: the second command is tried only when
      the first fails; the result carries the name of the command that
      answered, or "python" when neither did. */
  predicate PythonAnswer(goos: string, r: Runner, p: Probed) {
    var first, second := PythonOrder(goos).0, PythonOrder(goos).1;
    var used := if r.output(first, VersionFlag).ok then first else second;
    && p.calls == (if r.output(first, VersionFlag).ok then [Output(first, VersionFlag)]
                   else [Output(first, VersionFlag), Output(second, VersionFlag)])
    && (p.result.installed <==> r.output(first, VersionFlag).ok || r.output(second, VersionFlag).ok)
    && (p.result.installed ==> Answered(p.result, used, r.output(used, VersionFlag)))
    && (!p.result.installed ==>
          && p.result.name == "python" && !p.result.running && !p.result.hasDaemon
          && p.result.error == Some(CommandFailed(second, VersionFlag)))
  }

  method CheckPythonWithOS(goos: string, r: Runner) returns (p: Probed)
    ensures PythonAnswer(goos, r, p)
  {
    var (primary, secondary) := PythonOrder(goos);
    p := CheckTool(r, primary, VersionFlag);
    var res := p.result;
    var calls := p.calls;
    if !res.installed {
      p := CheckTool(r, secondary, VersionFlag);
      res := p.result;
      calls := calls + p.calls;
      if res.installed {
        res := res.(name := secondary);
      }
    } else {
      res := res.(name := primary);
    }
    if !res.installed {
      res := res.(name := "python");
    }
    return Probed(res, calls);
  }

  /** CheckBashWithOS: every OS has its own branch, and each probes `bash`
      and names the result "bash". */
  function CheckBashWithOS(goos: string, r: Runner): (p: Probed)
    ensures p == CheckTool(r, "bash", VersionFlag)
    ensures p.result.name == "bash" && p.calls == [Output("bash", VersionFlag)]
  {
    if goos == "windows" then
      var p := CheckTool(r, "bash", VersionFlag);
      p.(result := p.result.(name := "bash"))
    else if goos == "darwin" || goos == "linux" then
      var p := CheckTool(r, "bash", VersionFlag);
      p.(result := p.result.(name := "bash"))
    else
      var p := CheckTool(r, "bash", VersionFlag);
      p.(result := p.result.(name := "bash"))
  }

  /** The PowerShell commands CheckPwshWithOS tries: `pwsh`, then
      `powershell` except on macOS and Linux, which have no fallback. */
  function PwshOrder(goos: string): (order: (string, Option<string>))
    ensures order.0 == "pwsh"
    ensures order.1 == (if goos == "darwin" || goos == "linux" then None else Some("powershell"))
  {
    if goos == "windows" then ("pwsh", Some("powershell"))
    else if goos == "darwin" || goos == "linux" then ("pwsh", None)
    else ("pwsh", Some("powershell"))
  }

  /** What CheckPwshWithOS reports: `pwsh` first; `powershell` only when
      pwsh fails and the OS has a fallback; the absent tool is named
      "pwsh/powershell" and keeps the error of the last command tried. */
  predicate PwshAnswer(goos: string, r: Runner, p: Probed) {
    var fallback := PwshOrder(goos).1;
    var second := fallback.Some? && !r.output("pwsh", VersionFlag).ok;
    var last := if second then fallback.value else "pwsh";
    && p.calls == (if second then [Output("pwsh", VersionFlag), Output(fallback.value, VersionFlag)]
                   else [Output("pwsh", VersionFlag)])
    && (p.result.installed <==> r.output("pwsh", VersionFlag).ok || (second && r.output(last, VersionFlag).ok))
    && (p.result.installed ==> Answered(p.result, last, r.output(last, VersionFlag)))
    && (!p.result.installed ==>
          && p.result.name == "pwsh/powershell" && !p.result.running && !p.result.hasDaemon
          && p.result.error == Some(CommandFailed(last, VersionFlag)))
  }

  method CheckPwshWithOS(goos: string, r: Runner) returns (p: Probed)
    ensures PwshAnswer(goos, r, p)
  {
    var (primary, secondary) := PwshOrder(goos);
    p := CheckTool(r, primary, VersionFlag);
    var res := p.result;
    var calls := p.calls;
    if !res.installed && secondary.Some? {
      p := CheckTool(r, secondary.value, VersionFlag);
      res := p.result;
      calls := calls + p.calls;
      if res.installed {
        res := res.(name := secondary.value);
      }
    } else if res.installed {
      res := res.(name := primary);
    }
    if !res.installed {
      res := res.(name := "pwsh/powershell");
    }
    return Probed(res, calls);
  }

  // ---------------------------------------------------------------------------
  // Extensions

  /** One entry of the installed-extension list. */
  datatype Extension = Extension(id: string, name: string, version: string)

  /** The position of the first listed extension with this id. */
  function FirstWithId(extensions: seq<Extension>, id: string): (r: Option<nat>)
    ensures r.Some? ==> r.value < |extensions| && extensions[r.value].id == id
    ensures r.Some? ==> forall k :: 0 <= k < r.value ==> extensions[k].id != id
    ensures r.None? ==> forall k :: 0 <= k < |extensions| ==> extensions[k].id != id
  {
    if extensions == [] then None
    else if extensions[0].id == id then Some(0)
    else
      match FirstWithId(extensions[1..], id)
      case None => None
      case Some(k) => Some(k + 1)
  }

  /** What CheckExtension reports: the first extension with the id decides.
      With a non-empty range, an unreadable installed version is reported
      before an unreadable range, and both before a range the version does
      not satisfy; every such failure keeps the extension installed, with
      its version, and not running. */
  predicate ExtensionAnswer(extensions: seq<Extension>, id: string, requiredRange: string,
                            parseRange: string -> Option<SemVer.Range>, res: CheckResult) {
    && res.name == "extension " + id && !res.hasDaemon
    && (FirstWithId(extensions, id).None? ==>
          !res.installed && !res.running && res.error == Some(ExtensionNotInstalled))
    && (FirstWithId(extensions, id).Some? ==>
          var installed := extensions[FirstWithId(extensions, id).value].version;
          var version, range := SemVer.Parse(installed), parseRange(requiredRange);
          && res.installed && res.version == installed
          && (res.running <==> res.error.None?)
          && (requiredRange == "" ==> res.error == None)
          && (requiredRange != "" && version.None? ==> res.error == Some(InvalidInstalledVersion(installed)))
          && (requiredRange != "" && version.Some? && range.None? ==> res.error == Some(InvalidRequiredRange(requiredRange)))
          && (requiredRange != "" && version.Some? && range.Some? ==>
                res.error == if SemVer.Satisfies(range.value, version.value) then None
                             else Some(RangeNotSatisfied(installed, requiredRange))))
  }

  method CheckExtension(extensions: seq<Extension>, id: string, requiredRange: string,
                        parseRange: string -> Option<SemVer.Range>) returns (res: CheckResult)
    ensures ExtensionAnswer(extensions, id, requiredRange, parseRange, res)
  {
    var installedVer := "";
    var found := false;
    var i := 0;
    while i < |extensions|
      invariant 0 <= i <= |extensions| && !found
      invariant forall k :: 0 <= k < i ==> extensions[k].id != id
    {
      if extensions[i].id == id {
        installedVer := extensions[i].version;
        found := true;
        break;
      }
      i := i + 1;
    }
    var name := "extension " + id;
    if !found {
      return CheckResult(name, false, "", false, false, Some(ExtensionNotInstalled));
    }
    if requiredRange != "" {
      var v := SemVer.Parse(installedVer);
      if v.None? {
        return CheckResult(name, true, installedVer, false, false, Some(InvalidInstalledVersion(installedVer)));
      }
      var expectedRange := parseRange(requiredRange);
      if expectedRange.None? {
        return CheckResult(name, true, installedVer, false, false, Some(InvalidRequiredRange(requiredRange)));
      }
      if !SemVer.Satisfies(expectedRange.value, v.value) {
        return CheckResult(name, true, installedVer, false, false, Some(RangeNotSatisfied(installedVer, requiredRange)));
      }
    }
    return CheckResult(name, true, installedVer, true, false, None);
  }
}
