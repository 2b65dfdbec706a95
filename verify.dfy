/**
  The `verify` command of internal/cmd/verify.go: the gate azd runs before
  `up`, `provision` and `deploy`. It may be bypassed wholesale or per
  target through AZD_DOCTOR_SKIP_VERIFY, infers its target from
  AZD_HOOK_NAME, and then probes a fixed sequence of tools, stopping at the
  first probe that fails its requirement. The two environment variables and
  the working directory are parameters; the trace of probes is returned.
 */
module Verify {
  import opened Wrappers
  import opened Text
  import opened Checks
  import Azd
  import Project
  import opened Tools

  /** Why verification failed. */
  datatype VerifyError =
    | InvalidTarget(target: string)
    | ToolNotFound(name: string)
    | CheckFailed(name: string, cause: Failure)
    | DaemonDown(name: string)
    | AuthFailed(loginError: Option<Failure>)
    | NoProjectFile(target: string)
    | LoadFailed(loadError: Project.LoadError)

  /** Skipped and Passed both return no error; they differ in the message. */
  datatype Outcome = Skipped | Passed | Failed(error: VerifyError)

  // ---------------------------------------------------------------------------
  // requireCheck

  /** requireCheck: a missing tool is reported first, then an error the probe
      recorded, then a daemon that is not running; otherwise the tool passes. */
  function RequireCheck(res: CheckResult): (e: Option<VerifyError>)
    ensures e.None? <==> res.installed && res.error.None? && (res.hasDaemon ==> res.running)
    ensures !res.installed ==> e == Some(ToolNotFound(res.name))
    ensures res.installed && res.error.Some? ==> e == Some(CheckFailed(res.name, res.error.value))
    ensures res.installed && res.error.None? && res.hasDaemon && !res.running ==> e == Some(DaemonDown(res.name))
  {
    if !res.installed then Some(ToolNotFound(res.name))
    else if res.error.Some? then Some(CheckFailed(res.name, res.error.value))
    else if res.hasDaemon && !res.running then Some(DaemonDown(res.name))
    else None
  }

  /** The requirement a probe of the trace must meet: the login probe has its
      own test, every other probe goes through requireCheck. */
  function Gate(p: Probe): (e: Option<VerifyError>)
    ensures p.tool != AzdLogin ==> e == RequireCheck(p.result)
    ensures p.tool == AzdLogin ==> (e.None? <==> p.result.installed && p.result.error.None?)
    ensures e.Some? && p.tool == AzdLogin ==> e == Some(AuthFailed(p.result.error))
  {
    if p.tool == AzdLogin then
      if !p.result.installed || p.result.error.Some? then Some(AuthFailed(p.result.error)) else None
    else
      RequireCheck(p.result)
  }

  /** A tool probed with CheckTool passes exactly when its command answers,
      and is otherwise reported as not found under its own name. */
  lemma RequireCheckTool(r: Runner, name: string, args: seq<string>)
    ensures RequireCheck(CheckTool(r, name, args).result) ==
      if r.output(name, args).ok then None else Some(ToolNotFound(name))
  {
  }

  /** The login gate passes exactly when `azd auth login --check-status`
      succeeds; otherwise it fails with the login error. */
  lemma LoginGate(r: Runner)
    ensures var p := Azd.CheckAzdLogin(r);
      Gate(Probe(AzdLogin, Step, p.result, p.calls)) ==
        if r.output("azd", Azd.LoginArgs).ok then None
        else Some(AuthFailed(Some(NotLoggedIn(CommandFailed("azd", Azd.LoginArgs)))))
  {
  }

  /** A probe that records an error whenever its daemon is down, as
      CheckDockerWithOS does, is never reported by requireCheck's daemon
      branch: the recorded error takes precedence. */
  lemma DaemonBranchShadowed(res: CheckResult)
    requires res.hasDaemon && !res.running ==> res.error.Some?
    ensures RequireCheck(res).None? || !RequireCheck(res).value.DaemonDown?
  {
  }

  /** Every probe of the trace passed its requirement. */
  predicate AllPass(log: seq<Probe>)
    decreases |log|
  {
    log == [] || (AllPass(log[..|log| - 1]) && Gate(log[|log| - 1]).None?)
  }

  /** A trace of a fail-fast walk: with no error every probe passed; with an
      error the walk stopped at the last probe, which failed with that error,
      and every probe before it passed. */
  predicate Chain(log: seq<Probe>, err: Option<VerifyError>) {
    if err.None? then AllPass(log)
    else log != [] && AllPass(log[..|log| - 1]) && Gate(log[|log| - 1]) == err
  }

  lemma AllPassSnoc(log: seq<Probe>, p: Probe)
    ensures AllPass(log + [p]) <==> AllPass(log) && Gate(p).None?
  {
    assert (log + [p])[..|log|] == log;
  }

  lemma {:induction false} AllPassAppend(a: seq<Probe>, b: seq<Probe>)
    ensures AllPass(a + b) <==> AllPass(a) && AllPass(b)
    decreases |b|
  {
    if b == [] {
      assert a + b == a;
    } else {
      var init := b[..|b| - 1];
      assert a + b == (a + init) + [b[|b| - 1]];
      AllPassSnoc(a + init, b[|b| - 1]);
      AllPassAppend(a, init);
    }
  }

  /** Each probe of a trace that passes passed. */
  lemma {:induction false} AllPassAt(log: seq<Probe>, k: int)
    requires AllPass(log) && 0 <= k < |log|
    ensures Gate(log[k]).None?
    decreases |log|
  {
    if k < |log| - 1 {
      AllPassAt(log[..|log| - 1], k);
    }
  }

  lemma ChainAppend(a: seq<Probe>, b: seq<Probe>, err: Option<VerifyError>)
    requires Chain(a, None) && Chain(b, err)
    ensures Chain(a + b, err)
  {
    if err.None? {
      AllPassAppend(a, b);
    } else {
      assert (a + b)[..|a + b| - 1] == a + b[..|b| - 1];
      AllPassAppend(a, b[..|b| - 1]);
    }
  }

  // ---------------------------------------------------------------------------
  // Bypass and target

  /** The values of AZD_DOCTOR_SKIP_VERIFY that skip every target. */
  predicate IsGlobalSkip(skip: string) {
    skip == "true" || skip == "1" || skip == "all"
  }

  /** contains: some comma-separated part of the list, with surrounding white
      space trimmed, is exactly the target. */
  predicate Listed(list: string, target: string) {
    exists k :: 0 <= k < |Split(list, ',')| && TrimSpace(Split(list, ',')[k]) == target
  }

  /** contains(s, substr) in verify.go: a loop over the comma-separated parts. */
  method Contains(s: string, substr: string) returns (b: bool)
    ensures b <==> Listed(s, substr)
  {
    var parts := Split(s, ',');
    var i := 0;
    while i < |parts| && TrimSpace(parts[i]) != substr
      invariant 0 <= i <= |parts|
      invariant forall k :: 0 <= k < i ==> TrimSpace(parts[k]) != substr
    {
      i := i + 1;
    }
    b := i < |parts|;
  }

  /** For a list written as names joined by commas, a name is listed exactly
      when it is one of the names: membership, not substring search. */
  lemma ListedNames(names: seq<string>, target: string)
    requires |names| >= 1 && SepFree(names, ',')
    requires forall k :: 0 <= k < |names| ==> TrimSpace(names[k]) == names[k]
    ensures Listed(Join(names, ','), target) <==> target in names
  {
    SplitJoin(names, ',');
  }

  /** The target the gate verifies: the hooks predeploy, preprovision and
      preup impose deploy, provision and up whatever target was given;
      otherwise the given target, with an empty one meaning up. */
  function EffectiveTarget(target: string, hookName: string): (t: string)
    ensures t != ""
    ensures hookName == "predeploy" ==> t == "deploy"
    ensures hookName == "preprovision" ==> t == "provision"
    ensures hookName == "preup" ==> t == "up"
    ensures hookName !in {"predeploy", "preprovision", "preup"} ==> t == if target == "" then "up" else target
  {
    if hookName == "predeploy" then "deploy"
    else if hookName == "preprovision" then "provision"
    else if hookName == "preup" then "up"
    else if target == "" then "up"
    else target
  }

  predicate ValidTarget(t: string) {
    t == "up" || t == "provision" || t == "deploy"
  }

  /** The gate is skipped: globally, or because the target is listed. */
  predicate Bypassed(skip: string, t: string) {
    skip != "" && (IsGlobalSkip(skip) || Listed(skip, t))
  }

  // ---------------------------------------------------------------------------
  // The order of the checks

  /** The step of the sequence a tool belongs to: azd, git, auth,
      extensions, infrastructure, services. Tools the gate never probes come
      last. */
  function Phase(tool: Tool): (n: nat)
    ensures tool == AzdVersion <==> n == 0
    ensures tool == Git <==> n == 1
    ensures tool == AzdLogin <==> n == 2
    ensures tool.ExtensionTool? <==> n == 3
    ensures tool in {Bicep, Terraform} <==> n == 4
    ensures tool in {Node, Python, DotNet, Docker, Func, Swa} <==> n == 5
    ensures n <= 6
  {
    match tool
    case AzdVersion => 0
    case Git => 1
    case AzdLogin => 2
    case ExtensionTool(_, _) => 3
    case Bicep => 4
    case Terraform => 4
    case Node => 5
    case Python => 5
    case DotNet => 5
    case Docker => 5
    case Func => 5
    case Swa => 5
    case _ => 6
  }

  /** No probe of a later step precedes a probe of an earlier one. */
  predicate Ordered(log: seq<Probe>) {
    forall i, j :: 0 <= i < j < |log| ==> Phase(log[i].tool) <= Phase(log[j].tool)
  }

  predicate InPhase(log: seq<Probe>, phase: nat) {
    forall k :: 0 <= k < |log| ==> Phase(log[k].tool) == phase
  }

  lemma OrderedAppend(a: seq<Probe>, b: seq<Probe>, phase: nat)
    requires Ordered(a) && InPhase(b, phase)
    requires forall k :: 0 <= k < |a| ==> Phase(a[k].tool) <= phase
    ensures Ordered(a + b)
  {
    assert forall k :: 0 <= k < |a| ==> (a + b)[k] == a[k];
    assert forall k :: |a| <= k < |a + b| ==> (a + b)[k] == b[k - |a|];
  }

  // ---------------------------------------------------------------------------
  // The walks

  /** The required-extensions step: each (id, range) pair in map order, until
      one fails. */
  method VerifyExtensions(env: Env, required: seq<(string, string)>) returns (err: Option<VerifyError>, log: seq<Probe>)
    ensures Chain(log, err) && Genuine(env, log)
    ensures |log| <= |required| && (err.None? ==> |log| == |required|)
    ensures forall k :: 0 <= k < |log| ==> log[k].tool == ExtensionTool(required[k].0, required[k].1)
  {
    log := [];
    var i := 0;
    while i < |required|
      invariant 0 <= i <= |required| && |log| == i
      invariant forall k :: 0 <= k < i ==> log[k].tool == ExtensionTool(required[k].0, required[k].1)
      invariant AllPass(log) && Genuine(env, log)
    {
      var (name, version) := required[i];
      var prev := log;
      var p;
      p, log := PerformOnto(env, ExtensionTool(name, version), Step, log);
      AllPassSnoc(prev, p);
      var e := RequireCheck(p.result);
      if e.Some? {
        assert log[..|log| - 1] == prev;
        return e, log;
      }
      i := i + 1;
    }
    return None, log;
  }

  /** The infrastructure tool a provider needs: bicep for an empty or
      "bicep" provider, terraform for "terraform", none for any other. */
  function InfraTool(provider: string): (t: Option<Tool>)
    ensures t.Some? ==> Phase(t.value) == 4
    ensures t == Some(Bicep) <==> provider == "" || provider == "bicep"
    ensures t == Some(Terraform) <==> provider == "terraform"
  {
    if provider == "" || provider == "bicep" then Some(Bicep)
    else if provider == "terraform" then Some(Terraform)
    else None
  }

  /** The infrastructure step: the provider's tool, required, if it has one. */
  method VerifyInfra(env: Env, provider: string) returns (err: Option<VerifyError>, log: seq<Probe>)
    ensures Chain(log, err) && Genuine(env, log)
    ensures |log| <= 1 && (log == [] <==> InfraTool(provider).None?)
    ensures forall k :: 0 <= k < |log| ==> Some(log[k].tool) == InfraTool(provider)
  {
    if provider == "" || provider == "bicep" {
      var p;
      p, log := PerformOnto(env, Bicep, Step, []);
      Single(p);
      return RequireCheck(p.result), log;
    } else if provider == "terraform" {
      var p;
      p, log := PerformOnto(env, Terraform, Step, []);
      Single(p);
      return RequireCheck(p.result), log;
    }
    return None, [];
  }

  lemma PrefixExtend(a: seq<Task>, b: seq<Task>, c: seq<Task>)
    requires IsPrefix(a, b)
    ensures IsPrefix(a, b + c)
  {
    assert (b + c)[..|a|] == b[..|a|];
  }

  lemma PrefixCat(a: seq<Task>, b: seq<Task>, c: seq<Task>)
    requires IsPrefix(b, c)
    ensures IsPrefix(a + b, a + c)
  {
    assert (a + c)[..|a + b|] == a + c[..|b|];
  }

  /** Appending a trace to one whose probes all passed. */
  lemma Extend(log: seq<Probe>, ps: seq<Probe>, err: Option<VerifyError>)
    requires Chain(log, None) && Chain(ps, err)
    ensures Chain(log + ps, err)
    ensures Tasks(log + ps) == Tasks(log) + Tasks(ps)
  {
    ChainAppend(log, ps, err);
    TasksAppend(log, ps);
  }

  /** The trace of one probe, required with requireCheck. */
  lemma Single(p: Probe)
    requires p.tool != AzdLogin
    ensures Chain([p], RequireCheck(p.result))
    ensures Tasks([p]) == [Task(p.tool, p.cause)]
  {
    assert [p][..0] == [];
  }

  /** The runtime block of the service loop: a language not seen before is
      marked seen, and its runtime is required if it has one. */
  method RequireRuntime(env: Env, svc: Project.Service, langs: set<string>)
    returns (err: Option<VerifyError>, ps: seq<Probe>, langs': set<string>)
    ensures Tasks(ps) == LanguageVisit(svc, langs).0
    ensures Chain(ps, err) && Genuine(env, ps)
    ensures err.None? ==> langs' == LanguageVisit(svc, langs).1
  {
    ps, langs', err := [], langs, None;
    if svc.language != "" && svc.language !in langs' {
      var runtime := RuntimeFor(svc.language);
      if runtime.Some? {
        var p, q := PerformOnto(env, runtime.value, Language(svc.language), []);
        if p.result.name != "" {
          Single(p);
          ps := q;
          err := RequireCheck(p.result);
          if err.Some? {
            return;
          }
        }
      }
      langs' := langs' + {svc.language};
    }
  }

  /** One host-tool block of the service loop: the tool is required when the
      service needs it and it was not required before. */
  method RequireHostTool(env: Env, svc: Project.Service, tool: Tool, tools: set<string>, log: seq<Probe>)
    returns (err: Option<VerifyError>, log': seq<Probe>, tools': set<string>)
    requires tool in {Docker, Func, Swa}
    requires AllPass(log) && Genuine(env, log)
    ensures Tasks(log') == Tasks(log) + HostVisit(svc, tool, tools).0
    ensures Chain(log', err) && Genuine(env, log')
    ensures err.None? ==> tools' == HostVisit(svc, tool, tools).1
  {
    log', tools', err := log, tools, None;
    if Needs(svc, tool) && ToolKey(tool) !in tools' {
      err, log' := RequireStep(env, tool, log);
      if err.Some? {
        return;
      }
      tools' := tools' + {ToolKey(tool)};
    }
  }

  /** Probes a tool of a fixed step after probes that all passed, and
      requires it. */
  method RequireStep(env: Env, tool: Tool, log: seq<Probe>) returns (err: Option<VerifyError>, log': seq<Probe>)
    requires tool != AzdLogin && AllPass(log) && Genuine(env, log)
    ensures Tasks(log') == Tasks(log) + [Task(tool, Step)]
    ensures Chain(log', err) && Genuine(env, log')
  {
    var p;
    p, log' := PerformOnto(env, tool, Step, log);
    TasksSnoc(log, p);
    AllPassSnoc(log, p);
    err := RequireCheck(p.result);
    if err.Some? {
      assert log'[..|log'| - 1] == log;
    }
  }

  /** The host-tool blocks of one pass: docker, func and swa, as HostVisits
      plans them, up to the first failure. */
  method RequireHostTools(env: Env, svc: Project.Service, tools: set<string>)
    returns (err: Option<VerifyError>, ps: seq<Probe>, tools': set<string>)
    ensures Chain(ps, err) && Genuine(env, ps)
    ensures err.None? ==> Tasks(ps) == HostVisits(svc, tools).0 && tools' == HostVisits(svc, tools).1
    ensures err.Some? ==> IsPrefix(Tasks(ps), HostVisits(svc, tools).0)
  {
    ghost var d := HostVisit(svc, Docker, tools);
    ghost var f := HostVisit(svc, Func, d.1);
    ghost var s := HostVisit(svc, Swa, f.1).0;
    err, ps, tools' := RequireHostTool(env, svc, Docker, tools, []);
    if err.Some? {
      PrefixExtend(d.0, d.0, f.0);
      PrefixExtend(d.0, d.0 + f.0, s);
      return;
    }
    err, ps, tools' := RequireHostTool(env, svc, Func, tools', ps);
    assert Tasks(ps) == d.0 + f.0;
    if err.Some? {
      PrefixExtend(d.0 + f.0, d.0 + f.0, s);
      return;
    }
    err, ps, tools' := RequireHostTool(env, svc, Swa, tools', ps);
  }

  /** One pass of the service loop: what it probes is what Visit plans, up to
      the first failure. */
  method VisitService(env: Env, svc: Project.Service, langs: set<string>, tools: set<string>)
    returns (err: Option<VerifyError>, ps: seq<Probe>, langs': set<string>, tools': set<string>)
    ensures Chain(ps, err) && Genuine(env, ps)
    ensures err.None? ==> var v := Visit(svc, langs, tools);
      Tasks(ps) == v.0 && langs' == v.1 && tools' == v.2
    ensures err.Some? ==> IsPrefix(Tasks(ps), Visit(svc, langs, tools).0)
  {
    ghost var l := LanguageVisit(svc, langs).0;
    ghost var h := HostVisits(svc, tools).0;
    tools' := tools;
    err, ps, langs' := RequireRuntime(env, svc, langs);
    if err.Some? {
      PrefixExtend(l, l, h);
      return;
    }
    var q: seq<Probe>;
    err, q, tools' := RequireHostTools(env, svc, tools);
    Extend(ps, q, err);
    GenuineAppend(env, ps, q);
    ps := ps + q;
    if err.Some? {
      PrefixCat(l, Tasks(q), h);
    }
  }

  /** After a pass that did what Visit plans, the rest of the plan is what
      remains from the next service. */
  lemma PlanStep(services: seq<(string, Project.Service)>, i: int, langs: set<string>, tools: set<string>, done: seq<Task>)
    requires 0 <= i < |services|
    requires done + Remaining(services, i, langs, tools) == ServicePlan(services)
    ensures var v := Visit(services[i].1, langs, tools);
      (done + v.0) + Remaining(services, i + 1, v.1, v.2) == ServicePlan(services)
  {
    var v := Visit(services[i].1, langs, tools);
    assert Remaining(services, i, langs, tools) == v.0 + Remaining(services, i + 1, v.1, v.2);
  }

  /** A pass that stopped early leaves a prefix of the plan. */
  lemma PlanStop(services: seq<(string, Project.Service)>, i: int, langs: set<string>, tools: set<string>, done: seq<Task>, part: seq<Task>)
    requires 0 <= i < |services|
    requires done + Remaining(services, i, langs, tools) == ServicePlan(services)
    requires IsPrefix(part, Visit(services[i].1, langs, tools).0)
    ensures IsPrefix(done + part, ServicePlan(services))
  {
    var v := Visit(services[i].1, langs, tools);
    var rest := Remaining(services, i + 1, v.1, v.2);
    assert Remaining(services, i, langs, tools) == v.0 + rest;
    PrefixExtend(part, v.0, rest);
    PrefixCat(done, part, v.0 + rest);
  }

  /** The service step: the services in map order, each with its runtime and
      host tools as ServicePlan lays out, until a probe fails. */
  method VerifyServices(env: Env, services: seq<(string, Project.Service)>) returns (err: Option<VerifyError>, log: seq<Probe>)
    ensures Chain(log, err) && Genuine(env, log)
    ensures err.None? ==> Tasks(log) == ServicePlan(services)
    ensures err.Some? ==> IsPrefix(Tasks(log), ServicePlan(services))
  {
    var checkedLangs: set<string> := {};
    var checkedTools: set<string> := {};
    log := [];
    var i := 0;
    while i < |services|
      invariant 0 <= i <= |services|
      invariant Tasks(log) + Remaining(services, i, checkedLangs, checkedTools) == ServicePlan(services)
      invariant AllPass(log) && Genuine(env, log)
    {
      var ps, langs', tools';
      err, ps, langs', tools' := VisitService(env, services[i].1, checkedLangs, checkedTools);
      Extend(log, ps, err);
      GenuineAppend(env, log, ps);
      if err.Some? {
        PlanStop(services, i, checkedLangs, checkedTools, Tasks(log), Tasks(ps));
        log := log + ps;
        return;
      }
      PlanStep(services, i, checkedLangs, checkedTools, Tasks(log));
      log := log + ps;
      checkedLangs, checkedTools := langs', tools';
      i := i + 1;
    }
    return None, log;
  }

  // ---------------------------------------------------------------------------
  // The whole gate

  /** The error a finished step reports, if any. */
  function ErrorOf(o: Outcome): (e: Option<VerifyError>)
    ensures e.Some? <==> o.Failed?
  {
    if o.Failed? then Some(o.error) else None
  }

  /** The first three probes: azd, git and the login, each required, the
      first one failing exactly when azd does not answer. */
  predicate CommonTrace(env: Env, err: Option<VerifyError>, log: seq<Probe>) {
    && Chain(log, err) && 1 <= |log| <= 3 && (err.None? ==> |log| == 3)
    && log[0].tool == AzdVersion && (|log| >= 2 ==> log[1].tool == Git) && (|log| == 3 ==> log[2].tool == AzdLogin)
    && (err == Some(ToolNotFound("azd")) && |log| == 1 <==> !env.runner.output("azd", ["version"]).ok)
  }

  method VerifyCommon(env: Env) returns (err: Option<VerifyError>, log: seq<Probe>)
    ensures CommonTrace(env, err, log) && Genuine(env, log)
  {
    var p := Perform(env, AzdVersion, Step);
    RequireCheckTool(env.runner, "azd", ["version"]);
    Single(p);
    log := [p];
    err := RequireCheck(p.result);
    if err.Some? {
      return;
    }
    p := Perform(env, Git, Step);
    Single(p);
    Extend(log, [p], RequireCheck(p.result));
    GenuineAppend(env, log, [p]);
    log := log + [p];
    err := RequireCheck(p.result);
    if err.Some? {
      return;
    }
    p := Perform(env, AzdLogin, Step);
    AllPassSnoc(log, p);
    GenuineAppend(env, log, [p]);
    log := log + [p];
    err := Gate(p);
    if err.Some? {
      assert log[..2] == log[..|log| - 1];
    }
  }

  /** Every probe of a segment of the trace belongs to one step. */
  lemma PlanInPhase(svc: seq<Probe>, services: seq<(string, Project.Service)>)
    requires IsPrefix(Tasks(svc), ServicePlan(services))
    ensures InPhase(svc, 5)
  {
    RemainingServiceTools(services, 0, {}, {});
    forall k | 0 <= k < |svc|
      ensures Phase(svc[k].tool) == 5
    {
      TasksAt(svc, k);
      assert Tasks(svc)[k] == ServicePlan(services)[k];
    }
  }

  /** What the target-dependent steps probe: the infrastructure tool for
      provision and up, and the service walk for deploy and up. The
      infrastructure step is complete when the gate passes or the service
      walk began; the walk is complete when the gate passes. */
  predicate TargetTrace(config: Project.AzureYaml, t: string, err: Option<VerifyError>,
                        infra: seq<Probe>, svc: seq<Probe>)
  {
    && |infra| <= 1
    && (forall k :: 0 <= k < |infra| ==> Some(infra[k].tool) == InfraTool(config.infra.provider))
    && (t !in {"provision", "up"} ==> infra == [])
    && ((err.None? || svc != []) && t in {"provision", "up"} ==> (infra == [] <==> InfraTool(config.infra.provider).None?))
    && (t !in {"deploy", "up"} ==> svc == [])
    && IsPrefix(Tasks(svc), ServicePlan(config.services)) && InPhase(svc, 5)
    && (err.None? && t in {"deploy", "up"} ==> Tasks(svc) == ServicePlan(config.services))
  }

  /** What the extension step probes: the required extensions in map order,
      all of them when the gate passes or a later step began. */
  predicate ExtensionTrace(req: seq<(string, string)>, err: Option<VerifyError>, ext: seq<Probe>, later: bool) {
    && |ext| <= |req|
    && (forall k :: 0 <= k < |ext| ==> ext[k].tool == ExtensionTool(req[k].0, req[k].1))
    && (err.None? || later ==> |ext| == |req|)
  }

  /** The target-dependent steps: the infrastructure tool for provision and
      up, then the service tools for deploy and up. */
  method VerifyTargetTools(env: Env, config: Project.AzureYaml, t: string)
    returns (err: Option<VerifyError>, infra: seq<Probe>, svc: seq<Probe>)
    ensures Chain(infra + svc, err) && Genuine(env, infra) && Genuine(env, svc)
    ensures TargetTrace(config, t, err, infra, svc)
  {
    infra, svc, err := [], [], None;
    if t == "provision" || t == "up" {
      err, infra := VerifyInfra(env, config.infra.provider);
    }
    if err.None? && (t == "deploy" || t == "up") {
      err, svc := VerifyServices(env, config.services);
      PlanInPhase(svc, config.services);
      Extend(infra, svc, err);
    }
    assert svc == [] ==> infra + svc == infra;
  }

  lemma Regroup(a: seq<Probe>, b: seq<Probe>, c: seq<Probe>)
    ensures a + b + c == a + (b + c)
  {
  }

  /** The steps that follow a successful load: the required extensions, then
      the target-dependent tools. */
  method VerifySteps(env: Env, config: Project.AzureYaml, t: string)
    returns (err: Option<VerifyError>, ext: seq<Probe>, infra: seq<Probe>, svc: seq<Probe>)
    ensures Chain(ext + (infra + svc), err) && Genuine(env, ext) && Genuine(env, infra) && Genuine(env, svc)
    ensures ExtensionTrace(config.requiredVersions.extensions, err, ext, infra != [] || svc != [])
    ensures TargetTrace(config, t, err, infra, svc)
  {
    infra, svc := [], [];
    err, ext := VerifyExtensions(env, config.requiredVersions.extensions);
    if err.None? {
      err, infra, svc := VerifyTargetTools(env, config, t);
      Extend(ext, infra + svc, err);
    } else {
      assert ext + (infra + svc) == ext;
    }
  }

  /** The trace of one run of the gate, step by step: azd, git and the login;
      the required extensions; the infrastructure tool; the service tools. */
  datatype Trace = Trace(common: seq<Probe>, extensions: seq<Probe>, infra: seq<Probe>, services: seq<Probe>)

  /** All the probes of a run, in the order they ran. */
  function Log(tr: Trace): seq<Probe> {
    tr.common + (tr.extensions + (tr.infra + tr.services))
  }

  /** How a run ends: at the first probe that fails its requirement, or, for
      an error about the project file, right after probes that all passed. */
  predicate Stopped(log: seq<Probe>, err: Option<VerifyError>) {
    if err.Some? && (err.value.NoProjectFile? || err.value.LoadFailed?) then AllPass(log) else Chain(log, err)
  }

  /** What a run of the gate for the target t probes, and how it ends. */
  predicate GateTrace(env: Env, files: Project.Files, decode: string -> Option<Project.RawAzureYaml>,
                      t: string, err: Option<VerifyError>, tr: Trace)
  {
    var passed := |tr.common| == 3 && AllPass(tr.common);
    var load := Project.Load(files, decode);
    && Stopped(Log(tr), err)
    && 1 <= |tr.common| <= 3 && tr.common[0].tool == AzdVersion
    && (|tr.common| < 3 ==> tr.extensions == [] && tr.infra == [] && tr.services == [])
    && (|tr.common| >= 2 ==> tr.common[1].tool == Git)
    && (|tr.common| == 3 ==> tr.common[2].tool == AzdLogin)
    && (err == Some(ToolNotFound("azd")) && |Log(tr)| == 1 <==> !env.runner.output("azd", ["version"]).ok)
    && (err == Some(NoProjectFile(t)) <==> passed && load.None?)
    && (err.Some? && err.value.NoProjectFile? ==> err.value.target == t)
    && (err.Some? && err.value.LoadFailed? ==> passed && load == Some(Err(err.value.loadError)))
    && (passed && load.Some? && load.value.Err? ==> err == Some(LoadFailed(load.value.error)))
    && (err.None? ==> passed && load.Some? && load.value.Ok?)
    && match load
       case Some(Ok(config)) =>
         ExtensionTrace(config.requiredVersions.extensions, err, tr.extensions, tr.infra != [] || tr.services != [])
         && TargetTrace(config, t, err, tr.infra, tr.services)
       case _ => tr.extensions == [] && tr.infra == [] && tr.services == []
  }

  /** What the steps from the project file on probe, and how they end. */
  predicate ProjectTrace(files: Project.Files, decode: string -> Option<Project.RawAzureYaml>, t: string,
                         err: Option<VerifyError>, ext: seq<Probe>, infra: seq<Probe>, svc: seq<Probe>)
  {
    match Project.Load(files, decode)
    case None => err == Some(NoProjectFile(t)) && ext == [] && infra == [] && svc == []
    case Some(Err(e)) => err == Some(LoadFailed(e)) && ext == [] && infra == [] && svc == []
    case Some(Ok(config)) =>
      && Chain(ext + (infra + svc), err)
      && ExtensionTrace(config.requiredVersions.extensions, err, ext, infra != [] || svc != [])
      && TargetTrace(config, t, err, infra, svc)
  }

  /** The project file, azure.yaml or else azure.yml, must exist and load;
      then the steps it calls for run. */
  method VerifyProject(env: Env, files: Project.Files, decode: string -> Option<Project.RawAzureYaml>, t: string)
    returns (err: Option<VerifyError>, ext: seq<Probe>, infra: seq<Probe>, svc: seq<Probe>)
    ensures ProjectTrace(files, decode, t, err, ext, infra, svc)
    ensures Genuine(env, ext) && Genuine(env, infra) && Genuine(env, svc)
  {
    ext, infra, svc := [], [], [];
    var path := Project.ProjectFile(files);
    if path.None? {
      err := Some(NoProjectFile(t));
    } else {
      var loaded := Project.LoadProjectConfig(files, decode, path.value);
      if loaded.Err? {
        err := Some(LoadFailed(loaded.error));
      } else {
        err, ext, infra, svc := VerifySteps(env, loaded.value, t);
      }
    }
  }

  lemma CommonOnly(common: seq<Probe>)
    ensures Log(Trace(common, [], [], [])) == common
  {
  }

  /** A trace whose steps are genuine is genuine. */
  lemma GenuineLog(env: Env, tr: Trace)
    requires Genuine(env, tr.common) && Genuine(env, tr.extensions) && Genuine(env, tr.infra) && Genuine(env, tr.services)
    ensures Genuine(env, Log(tr))
  {
    GenuineAppend(env, tr.infra, tr.services);
    GenuineAppend(env, tr.extensions, tr.infra + tr.services);
    GenuineAppend(env, tr.common, tr.extensions + (tr.infra + tr.services));
  }

  /** A run that stopped at azd, git or the login. */
  lemma AssembleStopped(env: Env, files: Project.Files, decode: string -> Option<Project.RawAzureYaml>, t: string,
                        err: Option<VerifyError>, common: seq<Probe>)
    requires CommonTrace(env, err, common) && err.Some?
    ensures GateTrace(env, files, decode, t, err, Trace(common, [], [], []))
  {
    CommonOnly(common);
  }

  /** A run that stopped at the project file. */
  lemma AssembleUnloaded(env: Env, files: Project.Files, decode: string -> Option<Project.RawAzureYaml>, t: string,
                         err: Option<VerifyError>, common: seq<Probe>)
    requires CommonTrace(env, None, common)
    requires Project.Load(files, decode).None? || Project.Load(files, decode).value.Err?
    requires ProjectTrace(files, decode, t, err, [], [], [])
    ensures GateTrace(env, files, decode, t, err, Trace(common, [], [], []))
  {
    CommonOnly(common);
  }

  /** A run that loaded the project file. */
  lemma AssembleLoaded(env: Env, files: Project.Files, decode: string -> Option<Project.RawAzureYaml>, t: string,
                       err: Option<VerifyError>, tr: Trace)
    requires CommonTrace(env, None, tr.common)
    requires Project.Load(files, decode).Some? && Project.Load(files, decode).value.Ok?
    requires ProjectTrace(files, decode, t, err, tr.extensions, tr.infra, tr.services)
    ensures GateTrace(env, files, decode, t, err, tr)
  {
    Extend(tr.common, tr.extensions + (tr.infra + tr.services), err);
  }

  /** The gate once the target is known and valid: azd, git, the login, the
      project file, then the steps the descriptor calls for. */
  method VerifyTarget(env: Env, files: Project.Files, decode: string -> Option<Project.RawAzureYaml>, t: string)
    returns (err: Option<VerifyError>, tr: Trace)
    ensures GateTrace(env, files, decode, t, err, tr) && Genuine(env, Log(tr))
  {
    var first, common := VerifyCommon(env);
    var ext, infra, svc := [], [], [];
    err := first;
    if first.None? {
      err, ext, infra, svc := VerifyProject(env, files, decode, t);
    }
    tr := Trace(common, ext, infra, svc);
    GenuineLog(env, tr);
    if first.Some? {
      AssembleStopped(env, files, decode, t, err, common);
    } else if Project.Load(files, decode).Some? && Project.Load(files, decode).value.Ok? {
      AssembleLoaded(env, files, decode, t, err, tr);
    } else {
      AssembleUnloaded(env, files, decode, t, err, common);
    }
  }

  /** The gate reports no error of its own about the target. */
  lemma StoppedByProbeOrFile(log: seq<Probe>, err: Option<VerifyError>)
    requires Stopped(log, err)
    ensures err.Some? ==> !err.value.InvalidTarget?
  {
  }

  /** The opening of RunVerify: the bypass variable is consulted first for a
      global skip, then the hook name fixes the target, an empty target
      means up, and a listed target is skipped. */
  method ResolveTarget(target: string, skip: string, hookName: string) returns (t: string, skipped: bool)
    ensures skipped <==> Bypassed(skip, EffectiveTarget(target, hookName))
    ensures !skipped ==> t == EffectiveTarget(target, hookName)
  {
    t := target;
    skipped := skip != "" && (skip == "true" || skip == "1" || skip == "all");
    if !skipped {
      if hookName != "" {
        if hookName == "predeploy" {
          t := "deploy";
        } else if hookName == "preprovision" {
          t := "provision";
        } else if hookName == "preup" {
          t := "up";
        }
      }
      if t == "" {
        t := "up";
      }
      if skip != "" {
        skipped := Contains(skip, t);
      }
    }
  }

  /** RunVerify: a bypassed target is skipped, an unknown one is rejected,
      and only then do the probes run. */
  method RunVerify(env: Env, files: Project.Files, decode: string -> Option<Project.RawAzureYaml>,
                   target: string, skip: string, hookName: string)
    returns (outcome: Outcome, tr: Trace)
    ensures var t := EffectiveTarget(target, hookName);
      && (outcome.Skipped? <==> Bypassed(skip, t))
      && (outcome == Failed(InvalidTarget(t)) <==> !Bypassed(skip, t) && !ValidTarget(t))
      && (outcome.Skipped? || !ValidTarget(t) ==> Log(tr) == [])
      && (!Bypassed(skip, t) && ValidTarget(t) ==> GateTrace(env, files, decode, t, ErrorOf(outcome), tr))
      && Genuine(env, Log(tr))
  {
    tr := Trace([], [], [], []);
    var t, skipped := ResolveTarget(target, skip, hookName);
    if skipped {
      outcome := Skipped;
    } else if t != "up" && t != "provision" && t != "deploy" {
      outcome := Failed(InvalidTarget(t));
    } else {
      var err;
      err, tr := VerifyTarget(env, files, decode, t);
      StoppedByProbeOrFile(Log(tr), err);
      outcome := if err.None? then Passed else Failed(err.value);
      assert ErrorOf(outcome) == err;
    }
  }

  // ---------------------------------------------------------------------------
  // What a run of the gate promises

  /** Each step probes only tools of its own phase. */
  lemma GatePhases(env: Env, files: Project.Files, decode: string -> Option<Project.RawAzureYaml>,
                   t: string, err: Option<VerifyError>, tr: Trace)
    requires GateTrace(env, files, decode, t, err, tr)
    ensures forall k :: 0 <= k < |tr.common| ==> Phase(tr.common[k].tool) == k
    ensures InPhase(tr.extensions, 3) && InPhase(tr.infra, 4) && InPhase(tr.services, 5)
  {
    forall k | 0 <= k < |tr.common|
      ensures Phase(tr.common[k].tool) == k
    {
      if k == 0 {
        assert tr.common[k].tool == AzdVersion;
      } else if k == 1 {
        assert tr.common[k].tool == Git;
      } else {
        assert k == 2 && |tr.common| == 3;
      }
    }
    match Project.Load(files, decode)
    case Some(Ok(config)) =>
      assert forall k :: 0 <= k < |tr.infra| ==> Some(tr.infra[k].tool) == InfraTool(config.infra.provider);
    case _ =>
  }

  /** Segments of ascending phases, concatenated, are in phase order. */
  lemma OrderedSegments(common: seq<Probe>, ext: seq<Probe>, infra: seq<Probe>, svc: seq<Probe>)
    requires |common| <= 3 && forall k :: 0 <= k < |common| ==> Phase(common[k].tool) == k
    requires InPhase(ext, 3) && InPhase(infra, 4) && InPhase(svc, 5)
    ensures Ordered(common + (ext + (infra + svc)))
  {
    var tail := infra + svc;
    var rest := ext + tail;
    var log := common + rest;
    var c := |common|;
    var e := c + |ext|;
    var f := e + |infra|;
    forall k | 0 <= k < |log|
      ensures Phase(log[k].tool) == if k < c then k else if k < e then 3 else if k < f then 4 else 5
    {
      if k < c {
        assert log[k] == common[k];
      } else {
        assert log[k] == rest[k - c];
        if k < e {
          assert rest[k - c] == ext[k - c];
        } else {
          assert rest[k - c] == tail[k - e];
          if k < f {
            assert tail[k - e] == infra[k - e];
          } else {
            assert tail[k - e] == svc[k - f];
          }
        }
      }
    }
  }

  /** The gate probes in step order: azd, git, the login, the extensions,
      the infrastructure tool, the service tools. */
  lemma GateOrdered(env: Env, files: Project.Files, decode: string -> Option<Project.RawAzureYaml>,
                    t: string, err: Option<VerifyError>, tr: Trace)
    requires GateTrace(env, files, decode, t, err, tr)
    ensures Ordered(Log(tr))
  {
    GatePhases(env, files, decode, t, err, tr);
    OrderedSegments(tr.common, tr.extensions, tr.infra, tr.services);
  }

  /** A trace with no probe of the service phase counts no service tool. */
  lemma NoServiceTool(log: seq<Probe>, tool: Tool)
    requires Phase(tool) == 5
    requires forall k :: 0 <= k < |log| ==> Phase(log[k].tool) < 5
    ensures Count(Tasks(log), OfTool(tool)) == 0
  {
    forall i | 0 <= i < |Tasks(log)|
      ensures !Matches(Tasks(log)[i], OfTool(tool))
    {
      TasksAt(log, i);
    }
    CountZero(Tasks(log), OfTool(tool));
  }

  /** Only the last of four segments can hold a service tool. */
  lemma CountSegments(common: seq<Probe>, ext: seq<Probe>, infra: seq<Probe>, svc: seq<Probe>, tool: Tool)
    requires Phase(tool) == 5
    requires |common| <= 3 && forall k :: 0 <= k < |common| ==> Phase(common[k].tool) == k
    requires InPhase(ext, 3) && InPhase(infra, 4)
    ensures Count(Tasks(common + (ext + (infra + svc))), OfTool(tool)) == Count(Tasks(svc), OfTool(tool))
  {
    var key := OfTool(tool);
    NoServiceTool(common, tool);
    NoServiceTool(ext, tool);
    NoServiceTool(infra, tool);
    TasksAppend(infra, svc);
    CountAppend(Tasks(infra), Tasks(svc), key);
    TasksAppend(ext, infra + svc);
    CountAppend(Tasks(ext), Tasks(infra + svc), key);
    TasksAppend(common, ext + (infra + svc));
    CountAppend(Tasks(common), Tasks(ext + (infra + svc)), key);
  }

  /** The target-dependent steps probe a host tool at most once, never for
      provision, and, when they pass for deploy or up, exactly when some
      service needs it. */
  lemma TargetHostToolOnce(config: Project.AzureYaml, t: string, err: Option<VerifyError>,
                           infra: seq<Probe>, svc: seq<Probe>, tool: Tool)
    requires TargetTrace(config, t, err, infra, svc) && tool in {Docker, Func, Swa}
    ensures Count(Tasks(svc), OfTool(tool)) <= 1
    ensures t == "provision" ==> Count(Tasks(svc), OfTool(tool)) == 0
    ensures err.None? && (t == "deploy" || t == "up") ==>
      Count(Tasks(svc), OfTool(tool)) == if AnyNeeds(config.services, |config.services|, tool) then 1 else 0
  {
    CountPrefix(Tasks(svc), ServicePlan(config.services), OfTool(tool));
    ServicePlanHostOnce(config.services, tool);
  }

  /** The gate probes docker, func and swa at most once each, never for
      provision, and, when it passes for deploy or up, exactly when some
      service needs the tool. */
  lemma GateHostToolOnce(env: Env, files: Project.Files, decode: string -> Option<Project.RawAzureYaml>,
                         t: string, err: Option<VerifyError>, tr: Trace, tool: Tool)
    requires GateTrace(env, files, decode, t, err, tr)
    requires tool in {Docker, Func, Swa}
    ensures Count(Tasks(Log(tr)), OfTool(tool)) <= 1
    ensures t == "provision" ==> Count(Tasks(Log(tr)), OfTool(tool)) == 0
    ensures err.None? && (t == "deploy" || t == "up") ==>
      var services := Project.Load(files, decode).value.value.services;
      Count(Tasks(Log(tr)), OfTool(tool)) == if AnyNeeds(services, |services|, tool) then 1 else 0
  {
    GatePhases(env, files, decode, t, err, tr);
    CountSegments(tr.common, tr.extensions, tr.infra, tr.services, tool);
    match Project.Load(files, decode)
    case Some(Ok(config)) =>
      TargetHostToolOnce(config, t, err, tr.infra, tr.services, tool);
    case _ =>
  }

  /** The service step probes a language's runtime at most once, and, when
      the gate passes for deploy or up, exactly when some service is written
      in a language that has a runtime. */
  lemma GateLanguageOnce(env: Env, files: Project.Files, decode: string -> Option<Project.RawAzureYaml>,
                         t: string, err: Option<VerifyError>, tr: Trace, language: string)
    requires GateTrace(env, files, decode, t, err, tr)
    ensures Count(Tasks(tr.services), OfCause(Language(language))) <= 1
    ensures err.None? && (t == "deploy" || t == "up") ==>
      var services := Project.Load(files, decode).value.value.services;
      Count(Tasks(tr.services), OfCause(Language(language))) == if AnyLanguage(services, |services|, language) then 1 else 0
  {
    match Project.Load(files, decode)
    case Some(Ok(config)) =>
      CountPrefix(Tasks(tr.services), ServicePlan(config.services), OfCause(Language(language)));
      ServicePlanLanguageOnce(config.services, language);
    case _ =>
  }
}
