/**
  What the verdict of the `verify` gate (internal/cmd/verify.go) says about
  the machine it ran on. Every probe of a run answers the environment, so a
  gate that passes vouches for each tool it required. One that fails stops
  at a requirement the environment does not meet, after every requirement
  of the earlier steps was met.
 */
module Verdict {
  import opened Wrappers
  import opened Text
  import opened Checks
  import Azd
  import SemVer
  import Project
  import opened Tools
  import opened Verify

  // ---------------------------------------------------------------------------
  // One probe against its requirement

  /** docker answers and its `info` runs; or docker does not answer and
      podman answers and its `info` runs. */
  predicate ContainerRuntimeReady(r: Runner) {
    if r.output("docker", VersionFlag).ok then r.run("docker", ["info"])
    else r.output("podman", VersionFlag).ok && r.run("podman", ["info"])
  }

  /** A host tool a service needs is ready: the container runtime as above,
      func and swa when their version flag answers. */
  predicate HostToolReady(env: Env, tool: Tool)
    requires tool in {Docker, Func, Swa}
  {
    match tool
    case Docker => ContainerRuntimeReady(env.runner)
    case Func => env.runner.output("func", VersionFlag).ok
    case Swa => env.runner.output("swa", VersionFlag).ok
  }

  /** A language runtime is ready: node or dotnet answers, or either python
      command does. */
  predicate RuntimeReady(env: Env, tool: Tool)
    requires tool in {Node, Python, DotNet}
  {
    var order := PythonOrder(env.goos);
    match tool
    case Node => env.runner.output("node", VersionFlag).ok
    case DotNet => env.runner.output("dotnet", VersionFlag).ok
    case Python => env.runner.output(order.0, VersionFlag).ok || env.runner.output(order.1, VersionFlag).ok
  }

  /** The infrastructure tool is ready: the bicep probe passes its
      requirement, or terraform answers. */
  predicate InfraReady(env: Env, tool: Tool)
    requires tool in {Bicep, Terraform}
  {
    match tool
    case Bicep => RequireCheck(env.bicep).None?
    case Terraform => env.runner.output("terraform", VersionFlag).ok
  }

  /** A required extension is ready: it is installed and, when a range is
      required, its version and the range parse and the version satisfies
      the range. */
  predicate ExtensionReady(env: Env, id: string, range: string) {
    var found := FirstWithId(env.extensions, id);
    && found.Some?
    && (range != "" ==>
          var version, parsed := SemVer.Parse(env.extensions[found.value].version), env.parseRange(range);
          version.Some? && parsed.Some? && SemVer.Satisfies(parsed.value, version.value))
  }

  /** The container-runtime probe passes exactly when the runtime that
      answers has a daemon that runs; a daemon that is down fails it with
      the probe's own error, and no runtime at all is a missing tool. */
  lemma DockerGate(env: Env, p: Probe)
    requires p.tool == Docker && Answers(env, p)
    ensures Gate(p).None? <==> ContainerRuntimeReady(env.runner)
    ensures var r := env.runner;
      && (r.output("docker", VersionFlag).ok && !r.run("docker", ["info"]) ==>
            Gate(p) == Some(CheckFailed("docker", DaemonNotRunning)))
      && (!r.output("docker", VersionFlag).ok && r.output("podman", VersionFlag).ok && !r.run("podman", ["info"]) ==>
            Gate(p) == Some(CheckFailed("podman", NotRunningOrNotConfigured)))
      && (!r.output("docker", VersionFlag).ok && !r.output("podman", VersionFlag).ok ==>
            Gate(p) == Some(ToolNotFound("docker/podman")))
  {
    assert DockerAnswer(env.runner, Probed(p.result, p.calls));
  }

  /** An extension probe passes exactly when the extension is ready; one
      that is not installed is a missing tool. */
  lemma ExtensionGate(env: Env, p: Probe)
    requires p.tool.ExtensionTool? && Answers(env, p)
    ensures Gate(p).None? <==> ExtensionReady(env, p.tool.id, p.tool.range)
    ensures FirstWithId(env.extensions, p.tool.id).None? ==> Gate(p) == Some(ToolNotFound("extension " + p.tool.id))
  {
    assert ExtensionAnswer(env.extensions, p.tool.id, p.tool.range, env.parseRange, p.result);
  }

  /** The command a probe runs when it is a single `CheckTool` call. */
  function Command(tool: Tool): (c: Option<(string, seq<string>)>)
    ensures c.Some? <==> tool in {AzdVersion, Git, Gh, Terraform, Node, DotNet, Func, Swa}
  {
    match tool
    case AzdVersion => Some(("azd", ["version"]))
    case Git => Some(("git", VersionFlag))
    case Gh => Some(("gh", VersionFlag))
    case Terraform => Some(("terraform", VersionFlag))
    case Node => Some(("node", VersionFlag))
    case DotNet => Some(("dotnet", VersionFlag))
    case Func => Some(("func", VersionFlag))
    case Swa => Some(("swa", VersionFlag))
    case _ => None
  }

  /** A single-command probe passes exactly when its command answers, and
      is otherwise a missing tool under the command's name. */
  lemma CommandGate(env: Env, p: Probe)
    requires Command(p.tool).Some? && Answers(env, p)
    ensures var (name, args) := Command(p.tool).value;
      Gate(p) == if env.runner.output(name, args).ok then None else Some(ToolNotFound(name))
  {
    var (name, args) := Command(p.tool).value;
    RequireCheckTool(env.runner, name, args);
  }

  /** The python probe passes exactly when either python command answers. */
  lemma PythonGate(env: Env, p: Probe)
    requires p.tool == Python && Answers(env, p)
    ensures Gate(p).None? <==> RuntimeReady(env, Python)
  {
    assert PythonAnswer(env.goos, env.runner, Probed(p.result, p.calls));
  }

  // ---------------------------------------------------------------------------
  // A trace of probes

  /** In a trace that ends as a fail-fast walk ends, a probe that fails its
      requirement is the last one, with the walk's error. */
  lemma StopsAt(log: seq<Probe>, err: Option<VerifyError>, k: int)
    requires Stopped(log, err) && 0 <= k < |log|
    ensures Gate(log[k]).Some? ==> k == |log| - 1 && err == Gate(log[k])
  {
    if k < |log| - 1 {
      var init := log[..|log| - 1];
      assert init[k] == log[k];
      AllPassAt(init, k);
    } else if err.None? || err.value.NoProjectFile? || err.value.LoadFailed? {
      AllPassAt(log, k);
    }
  }

  lemma CommandAt(env: Env, log: seq<Probe>, k: int)
    requires Genuine(env, log) && 0 <= k < |log| && Command(log[k].tool).Some?
    ensures var (name, args) := Command(log[k].tool).value;
      Gate(log[k]) == if env.runner.output(name, args).ok then None else Some(ToolNotFound(name))
  {
    GenuineAt(env, log, k);
    CommandGate(env, log[k]);
  }

  lemma LoginAt(env: Env, log: seq<Probe>, k: int)
    requires Genuine(env, log) && 0 <= k < |log| && log[k].tool == AzdLogin
    ensures Gate(log[k]) == if env.runner.output("azd", Azd.LoginArgs).ok then None
                            else Some(AuthFailed(Some(NotLoggedIn(CommandFailed("azd", Azd.LoginArgs)))))
  {
    GenuineAt(env, log, k);
    LoginGate(env.runner);
  }

  lemma HostToolAt(env: Env, log: seq<Probe>, k: int)
    requires Genuine(env, log) && 0 <= k < |log| && log[k].tool in {Docker, Func, Swa}
    ensures Gate(log[k]).None? <==> HostToolReady(env, log[k].tool)
  {
    GenuineAt(env, log, k);
    if log[k].tool == Docker {
      DockerGate(env, log[k]);
    } else {
      CommandGate(env, log[k]);
    }
  }

  lemma RuntimeAt(env: Env, log: seq<Probe>, k: int)
    requires Genuine(env, log) && 0 <= k < |log| && log[k].tool in {Node, Python, DotNet}
    ensures Gate(log[k]).None? <==> RuntimeReady(env, log[k].tool)
  {
    GenuineAt(env, log, k);
    if log[k].tool == Python {
      PythonGate(env, log[k]);
    } else {
      CommandGate(env, log[k]);
    }
  }

  lemma ExtensionAt(env: Env, log: seq<Probe>, k: int)
    requires Genuine(env, log) && 0 <= k < |log| && log[k].tool.ExtensionTool?
    ensures Gate(log[k]).None? <==> ExtensionReady(env, log[k].tool.id, log[k].tool.range)
  {
    GenuineAt(env, log, k);
    ExtensionGate(env, log[k]);
  }

  lemma InfraAt(env: Env, log: seq<Probe>, k: int)
    requires Genuine(env, log) && 0 <= k < |log| && log[k].tool in {Bicep, Terraform}
    ensures Gate(log[k]).None? <==> InfraReady(env, log[k].tool)
  {
    GenuineAt(env, log, k);
    if log[k].tool == Terraform {
      CommandGate(env, log[k]);
    }
  }

  lemma AllPassThree(c: seq<Probe>)
    requires |c| == 3
    ensures AllPass(c) <==> Gate(c[0]).None? && Gate(c[1]).None? && Gate(c[2]).None?
  {
    assert c == c[..2] + [c[2]] && c[..2] == [c[0]] + [c[1]];
    AllPassSnoc(c[..2], c[2]);
    AllPassSnoc([c[0]], c[1]);
    AllPassSnoc([], c[0]);
  }

  /** What the opening azd, git and login probes each report, as the
      environment answers them. */
  predicate CommonGates(env: Env, c: seq<Probe>) {
    var r := env.runner;
    && 1 <= |c| <= 3
    && Gate(c[0]) == (if r.output("azd", ["version"]).ok then None else Some(ToolNotFound("azd")))
    && (|c| >= 2 ==> Gate(c[1]) == if r.output("git", VersionFlag).ok then None else Some(ToolNotFound("git")))
    && (|c| == 3 ==> Gate(c[2]) == if r.output("azd", Azd.LoginArgs).ok then None
                                   else Some(AuthFailed(Some(NotLoggedIn(CommandFailed("azd", Azd.LoginArgs))))))
  }

  /** The opening probes of a trace that answers the environment report as
      the environment answers them. */
  lemma CommonGatesOf(env: Env, log: seq<Probe>, c: seq<Probe>)
    requires Genuine(env, log)
    requires 1 <= |c| <= 3 && |c| <= |log| && c == log[..|c|]
    requires c[0].tool == AzdVersion && (|c| >= 2 ==> c[1].tool == Git) && (|c| == 3 ==> c[2].tool == AzdLogin)
    ensures CommonGates(env, c)
  {
    assert forall k :: 0 <= k < |c| ==> log[k] == c[k];
    CommandAt(env, log, 0);
    if |c| >= 2 {
      CommandAt(env, log, 1);
    }
    if |c| == 3 {
      LoginAt(env, log, 2);
    }
  }

  /** A fail-fast walk that opens with the azd, git and login probes: each
      fails the walk when its command does not answer, and all three pass
      exactly when all three answer. */
  lemma CommonAnswers(env: Env, log: seq<Probe>, c: seq<Probe>, err: Option<VerifyError>)
    requires Stopped(log, err) && CommonGates(env, c)
    requires |c| <= |log| && c == log[..|c|] && (|c| < 3 ==> log == c)
    requires err.None? || err.value.NoProjectFile? || err.value.LoadFailed? ==> |c| == 3
    ensures var r := env.runner;
      && (r.output("azd", ["version"]).ok && !r.output("git", VersionFlag).ok ==>
            err == Some(ToolNotFound("git")) && |log| == 2)
      && (r.output("azd", ["version"]).ok && r.output("git", VersionFlag).ok && !r.output("azd", Azd.LoginArgs).ok ==>
            err == Some(AuthFailed(Some(NotLoggedIn(CommandFailed("azd", Azd.LoginArgs))))) && |log| == 3)
      && (|c| == 3 && AllPass(c) <==>
            r.output("azd", ["version"]).ok && r.output("git", VersionFlag).ok && r.output("azd", Azd.LoginArgs).ok)
  {
    assert forall k :: 0 <= k < |c| ==> log[k] == c[k];
    StopsAt(log, err, 0);
    if |c| >= 2 {
      StopsAt(log, err, 1);
    }
    if |c| == 3 {
      StopsAt(log, err, 2);
      AllPassThree(c);
    }
  }

  /** Each extension probed in a trace that passed and answers the
      environment is ready. */
  lemma ExtensionsAnswer(env: Env, log: seq<Probe>, o: int, ext: seq<Probe>, req: seq<(string, string)>)
    requires AllPass(log) && Genuine(env, log)
    requires 0 <= o && o + |ext| <= |log| && log[o..o + |ext|] == ext
    requires ExtensionTrace(req, None, ext, false)
    ensures forall k :: 0 <= k < |req| ==> ExtensionReady(env, req[k].0, req[k].1)
  {
    forall k | 0 <= k < |req|
      ensures ExtensionReady(env, req[k].0, req[k].1)
    {
      assert log[o + k] == ext[k];
      AllPassAt(log, o + k);
      ExtensionAt(env, log, o + k);
    }
  }

  /** Every probe of a fail-fast walk but its last passed, and answers the
      environment. */
  lemma PassedBefore(env: Env, log: seq<Probe>, err: Option<VerifyError>)
    requires Stopped(log, err) && Genuine(env, log) && log != []
    ensures AllPass(log[..|log| - 1]) && Genuine(env, log[..|log| - 1])
  {
  }

  /** Each extension probed before the last probe of a fail-fast walk that
      answers the environment is ready. */
  lemma ExtensionsBefore(env: Env, log: seq<Probe>, err: Option<VerifyError>, o: int, ext: seq<Probe>,
                         req: seq<(string, string)>)
    requires Stopped(log, err) && Genuine(env, log)
    requires 0 <= o && o + |ext| < |log| && log[o..o + |ext|] == ext
    requires ExtensionTrace(req, err, ext, true)
    ensures forall k :: 0 <= k < |req| ==> ExtensionReady(env, req[k].0, req[k].1)
  {
    PassedBefore(env, log, err);
    assert log[..|log| - 1][o..o + |ext|] == ext;
    ExtensionsAnswer(env, log[..|log| - 1], o, ext, req);
  }

  /** A host tool probed in a trace that passed and answers the environment
      is ready. */
  lemma HostToolAnswers(env: Env, log: seq<Probe>, tool: Tool)
    requires AllPass(log) && Genuine(env, log) && tool in {Docker, Func, Swa}
    requires Count(Tasks(log), OfTool(tool)) >= 1
    ensures HostToolReady(env, tool)
  {
    CountZero(Tasks(log), OfTool(tool));
    var i :| 0 <= i < |log| && Matches(Tasks(log)[i], OfTool(tool));
    TasksAt(log, i);
    AllPassAt(log, i);
    HostToolAt(env, log, i);
  }

  /** Where the extensions and the service tools sit in a run. */
  lemma LogSlices(tr: Trace)
    ensures var e := |tr.common|;
      var s := e + |tr.extensions| + |tr.infra|;
      && |Log(tr)| == s + |tr.services|
      && Log(tr)[e..e + |tr.extensions|] == tr.extensions
      && Log(tr)[s..s + |tr.services|] == tr.services
      && Log(tr)[..|tr.common|] == tr.common
  {
  }

  /** A runtime the service step of a run probed, when the run passed and
      answers the environment, is ready. */
  lemma RuntimeAnswers(env: Env, tr: Trace, services: seq<(string, Project.Service)>, language: string)
    requires AllPass(Log(tr)) && Genuine(env, Log(tr))
    requires IsPrefix(Tasks(tr.services), ServicePlan(services))
    requires Count(Tasks(tr.services), OfCause(Language(language))) >= 1
    ensures RuntimeFor(language).Some? && RuntimeReady(env, RuntimeFor(language).value)
  {
    var svc, log := tr.services, Log(tr);
    var o := |tr.common| + |tr.extensions| + |tr.infra|;
    LogSlices(tr);
    CountZero(Tasks(svc), OfCause(Language(language)));
    var i :| 0 <= i < |svc| && Matches(Tasks(svc)[i], OfCause(Language(language)));
    TasksAt(svc, i);
    RemainingServiceTools(services, 0, {}, {});
    assert Tasks(svc)[i] == ServicePlan(services)[i];
    assert log[o + i] == svc[i];
    AllPassAt(log, o + i);
    RuntimeAt(env, log, o + i);
  }

  // ---------------------------------------------------------------------------
  // A whole run

  /** Each probe of a run answers the environment, and the run ends at the
      first probe that fails its requirement, with that probe's error. */
  lemma GateStopsAtFirstFailure(env: Env, files: Project.Files, decode: string -> Option<Project.RawAzureYaml>,
                                t: string, err: Option<VerifyError>, tr: Trace, k: int)
    requires GateTrace(env, files, decode, t, err, tr) && Genuine(env, Log(tr))
    requires 0 <= k < |Log(tr)|
    ensures Answers(env, Log(tr)[k])
    ensures Gate(Log(tr)[k]).Some? ==> k == |Log(tr)| - 1 && err == Gate(Log(tr)[k])
  {
    GenuineAt(env, Log(tr), k);
    StopsAt(Log(tr), err, k);
  }

  /** The first three steps: azd, then git, then the login, each failing the
      run when the environment does not answer it; the run gets past them
      exactly when all three answer. */
  lemma GateCommon(env: Env, files: Project.Files, decode: string -> Option<Project.RawAzureYaml>,
                   t: string, err: Option<VerifyError>, tr: Trace)
    requires GateTrace(env, files, decode, t, err, tr) && Genuine(env, Log(tr))
    ensures var r := env.runner;
      && (r.output("azd", ["version"]).ok && !r.output("git", VersionFlag).ok ==>
            err == Some(ToolNotFound("git")) && |Log(tr)| == 2)
      && (r.output("azd", ["version"]).ok && r.output("git", VersionFlag).ok && !r.output("azd", Azd.LoginArgs).ok ==>
            err == Some(AuthFailed(Some(NotLoggedIn(CommandFailed("azd", Azd.LoginArgs))))) && |Log(tr)| == 3)
      && (|tr.common| == 3 && AllPass(tr.common) <==>
            r.output("azd", ["version"]).ok && r.output("git", VersionFlag).ok && r.output("azd", Azd.LoginArgs).ok)
  {
    LogSlices(tr);
    if |tr.common| < 3 {
      assert Log(tr) == tr.common;
    }
    CommonGatesOf(env, Log(tr), tr.common);
    CommonAnswers(env, Log(tr), tr.common, err);
  }

  /** A run that passes found every required extension ready. */
  lemma GatePassedExtensions(env: Env, files: Project.Files, decode: string -> Option<Project.RawAzureYaml>,
                             t: string, err: Option<VerifyError>, tr: Trace)
    requires GateTrace(env, files, decode, t, err, tr) && Genuine(env, Log(tr)) && err.None?
    ensures var req := Project.Load(files, decode).value.value.requiredVersions.extensions;
      forall k :: 0 <= k < |req| ==> ExtensionReady(env, req[k].0, req[k].1)
  {
    LogSlices(tr);
    ExtensionsAnswer(env, Log(tr), |tr.common|, tr.extensions, Project.Load(files, decode).value.value.requiredVersions.extensions);
  }

  /** A run for deploy or up that passes found ready every host tool some
      service needs. */
  lemma GatePassedHostTools(env: Env, files: Project.Files, decode: string -> Option<Project.RawAzureYaml>,
                            t: string, err: Option<VerifyError>, tr: Trace, tool: Tool)
    requires GateTrace(env, files, decode, t, err, tr) && Genuine(env, Log(tr)) && err.None?
    requires (t == "deploy" || t == "up") && tool in {Docker, Func, Swa}
    requires var services := Project.Load(files, decode).value.value.services; AnyNeeds(services, |services|, tool)
    ensures HostToolReady(env, tool)
  {
    GateHostToolOnce(env, files, decode, t, err, tr, tool);
    HostToolAnswers(env, Log(tr), tool);
  }

  /** A run for deploy or up that passes found ready the runtime of every
      language some service is written in. */
  lemma GatePassedRuntimes(env: Env, files: Project.Files, decode: string -> Option<Project.RawAzureYaml>,
                           t: string, err: Option<VerifyError>, tr: Trace, language: string)
    requires GateTrace(env, files, decode, t, err, tr) && Genuine(env, Log(tr)) && err.None?
    requires t == "deploy" || t == "up"
    requires var services := Project.Load(files, decode).value.value.services; AnyLanguage(services, |services|, language)
    ensures RuntimeReady(env, RuntimeFor(language).value)
  {
    var config := Project.Load(files, decode).value.value;
    GateLanguageOnce(env, files, decode, t, err, tr, language);
    assert Count(Tasks(tr.services), OfCause(Language(language))) == 1;
    assert IsPrefix(Tasks(tr.services), ServicePlan(config.services)) by {
      assert TargetTrace(config, t, err, tr.infra, tr.services);
    }
    RuntimeAnswers(env, tr, config.services, language);
  }

  /** A run that got past the extension step, whether it then passed or
      failed, found every required extension ready: the requirement it
      failed on, if any, comes later. */
  lemma GatePastExtensions(env: Env, files: Project.Files, decode: string -> Option<Project.RawAzureYaml>,
                           t: string, err: Option<VerifyError>, tr: Trace)
    requires GateTrace(env, files, decode, t, err, tr) && Genuine(env, Log(tr))
    requires tr.infra != [] || tr.services != []
    ensures Project.Load(files, decode).Some? && Project.Load(files, decode).value.Ok?
    ensures var req := Project.Load(files, decode).value.value.requiredVersions.extensions;
      forall k :: 0 <= k < |req| ==> ExtensionReady(env, req[k].0, req[k].1)
  {
    LogSlices(tr);
    ExtensionsBefore(env, Log(tr), err, |tr.common|, tr.extensions,
                     Project.Load(files, decode).value.value.requiredVersions.extensions);
  }

  /** A provision or up run that got past the infrastructure step found its
      tool ready: the requirement it failed on, if any, is a service tool. */
  lemma GatePastInfra(env: Env, files: Project.Files, decode: string -> Option<Project.RawAzureYaml>,
                      t: string, err: Option<VerifyError>, tr: Trace)
    requires GateTrace(env, files, decode, t, err, tr) && Genuine(env, Log(tr))
    requires tr.services != [] && (t == "provision" || t == "up")
    ensures Project.Load(files, decode).Some? && Project.Load(files, decode).value.Ok?
    ensures var tool := InfraTool(Project.Load(files, decode).value.value.infra.provider);
      tool.Some? ==> InfraReady(env, tool.value)
  {
    var config := Project.Load(files, decode).value.value;
    var log, o := Log(tr), |tr.common| + |tr.extensions|;
    if InfraTool(config.infra.provider).Some? {
      LogSlices(tr);
      assert log[o] == tr.infra[0];
      StopsAt(log, err, o);
      InfraAt(env, log, o);
    }
  }
}
