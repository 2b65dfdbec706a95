/**
  What internal/cmd/verify.go and internal/cmd/check.go share: the tools
  they probe, the environment the probes ask, the record of one probe in
  a command's trace, the rules that decide which tool a service needs,
  and counting over a trace.
 */
module Tools {
  import opened Wrappers
  import opened Checks
  import Azd
  import SemVer
  import Project

  /** Every probe the commands run. */
  datatype Tool =
    | AzdVersion | Git | Gh | AzdLogin | AzdInit
    | ExtensionTool(id: string, range: string)
    | Bicep | Terraform
    | Docker | Node | Python | DotNet | Func | Swa
    | Bash | Pwsh

  /** Why a probe was run: a fixed step of the command, a service's
      language, or a hook's shell. */
  datatype Cause = Step | Language(language: string) | Shell(shell: string)

  /** One probe in a command's trace: the tool, why it ran, what it found and
      the runner calls it made. */
  datatype Probe = Probe(tool: Tool, cause: Cause, result: CheckResult, calls: seq<Call>)

  /** Everything the probes consult: the OS name, the command runner, the
      installed extensions, the range grammar, the answer of the bicep probe
      (CheckBicep is not part of this model) and the project service's
      answer. */
  datatype Env = Env(
    goos: string,
    runner: Runner,
    extensions: seq<Extension>,
    parseRange: string -> Option<SemVer.Range>,
    bicep: CheckResult,
    project: Azd.ProjectReply)

  /** The probes that are functions of the environment; the others (the two
      runtimes with a fallback, PowerShell and extensions) are methods. */
  function FixedProbe(env: Env, tool: Tool): (r: Option<Probed>)
    ensures r.None? <==> tool.Docker? || tool.Python? || tool.Pwsh? || tool.ExtensionTool?
  {
    match tool
    case AzdVersion => Some(Azd.CheckAzdVersion(env.runner))
    case Git => Some(CheckGit(env.runner))
    case Gh => Some(CheckGh(env.runner))
    case AzdLogin => Some(Azd.CheckAzdLogin(env.runner))
    case AzdInit => Some(Azd.CheckAzdInit(env.project))
    case Bicep => Some(Probed(env.bicep, []))
    case Terraform => Some(CheckTerraform(env.runner))
    case Node => Some(CheckNode(env.runner))
    case DotNet => Some(CheckDotNet(env.runner))
    case Func => Some(CheckAzureFunctionsCoreTools(env.runner))
    case Swa => Some(CheckSwaCli(env.runner))
    case Bash => Some(CheckBashWithOS(env.goos, env.runner))
    case _ => None
  }

  /** The probe's result and calls are what the tool's check answers in the
      environment: the fixed probes as functions of it, the runtimes with a
      fallback and the extensions as their methods promise. */
  predicate Answers(env: Env, p: Probe) {
    var probed := Probed(p.result, p.calls);
    match p.tool
    case Docker => DockerAnswer(env.runner, probed)
    case Python => PythonAnswer(env.goos, env.runner, probed)
    case Pwsh => PwshAnswer(env.goos, env.runner, probed)
    case ExtensionTool(id, range) => p.calls == [] && ExtensionAnswer(env.extensions, id, range, env.parseRange, p.result)
    case _ => probed == FixedProbe(env, p.tool).value
  }

  /** Runs the probe of one tool. */
  method Perform(env: Env, tool: Tool, cause: Cause) returns (p: Probe)
    ensures p.tool == tool && p.cause == cause && Answers(env, p)
    ensures FixedProbe(env, tool).Some? ==> Probed(p.result, p.calls) == FixedProbe(env, tool).value
    ensures tool.ExtensionTool? ==> p.calls == [] && p.result.name == "extension " + tool.id
    ensures tool.Node? || tool.Python? || tool.DotNet? ==> p.result.name != ""
  {
    var probed: Probed;
    match tool {
      case Docker =>
        probed := CheckDockerWithOS(env.goos, env.runner);
      case Python =>
        probed := CheckPythonWithOS(env.goos, env.runner);
      case Pwsh =>
        probed := CheckPwshWithOS(env.goos, env.runner);
      case ExtensionTool(id, range) =>
        var res := CheckExtension(env.extensions, id, range, env.parseRange);
        probed := Probed(res, []);
      case _ =>
        probed := FixedProbe(env, tool).value;
    }
    p := Probe(tool, cause, probed.result, probed.calls);
  }

  /** Runs a probe, promising only what it was run for. */
  method PerformTask(env: Env, tool: Tool, cause: Cause) returns (p: Probe)
    ensures p.tool == tool && p.cause == cause
  {
    p := Perform(env, tool, cause);
  }

  /** Every probe of a trace is what its tool answers in the environment. */
  predicate Genuine(env: Env, log: seq<Probe>)
    decreases |log|
  {
    log == [] || (Genuine(env, log[..|log| - 1]) && Answers(env, log[|log| - 1]))
  }

  lemma {:induction false} GenuineAppend(env: Env, a: seq<Probe>, b: seq<Probe>)
    requires Genuine(env, a) && Genuine(env, b)
    ensures Genuine(env, a + b)
    decreases |b|
  {
    if b == [] {
      assert a + b == a;
    } else {
      var init := b[..|b| - 1];
      assert (a + b)[..|a + b| - 1] == a + init;
      GenuineAppend(env, a, init);
    }
  }

  /** Each probe of a genuine trace answers the environment. */
  lemma {:induction false} GenuineAt(env: Env, log: seq<Probe>, k: int)
    requires Genuine(env, log) && 0 <= k < |log|
    ensures Answers(env, log[k])
    decreases |log|
  {
    if k < |log| - 1 {
      GenuineAt(env, log[..|log| - 1], k);
    }
  }

  /** Runs a probe and appends it to a trace. */
  method PerformOnto(env: Env, tool: Tool, cause: Cause, log: seq<Probe>) returns (p: Probe, log': seq<Probe>)
    requires Genuine(env, log)
    ensures p.tool == tool && p.cause == cause && log' == log + [p] && Genuine(env, log')
    ensures tool in {Node, Python, DotNet} ==> p.result.name != ""
  {
    p := Perform(env, tool, cause);
    log' := log + [p];
    assert log'[..|log|] == log;
  }

  // ---------------------------------------------------------------------------
  // What a service needs

  /** The runtime a language needs: js/ts node, py/python python,
      csharp/fsharp/dotnet the .NET SDK, any other language nothing. */
  function RuntimeFor(language: string): (t: Option<Tool>)
    ensures t.Some? ==> t.value in {Node, Python, DotNet} && language != ""
    ensures t == Some(Node) <==> language in {"js", "ts"}
    ensures t == Some(Python) <==> language in {"py", "python"}
    ensures t == Some(DotNet) <==> language in {"csharp", "fsharp", "dotnet"}
  {
    if language == "js" || language == "ts" then Some(Node)
    else if language == "py" || language == "python" then Some(Python)
    else if language == "csharp" || language == "fsharp" || language == "dotnet" then Some(DotNet)
    else None
  }

  /** A service is built locally into a container when it runs on Container
      Apps or AKS, does not ask for a remote build and names no prebuilt
      image. */
  predicate NeedsDocker(svc: Project.Service) {
    (svc.host == "containerapp" || svc.host == "aks") && !svc.docker.remote && svc.image == ""
  }

  /** Whether a service needs one of the host tools: docker for a local
      container build, func for a function host, swa for a static web app. */
  predicate Needs(svc: Project.Service, tool: Tool) {
    || (tool == Docker && NeedsDocker(svc))
    || (tool == Func && svc.host == "function")
    || (tool == Swa && svc.host == "staticwebapp")
  }

  /** Some of the first n services needs the host tool. */
  predicate AnyNeeds(services: seq<(string, Project.Service)>, n: int, tool: Tool)
    requires n <= |services|
  {
    exists j :: 0 <= j < n && Needs(services[j].1, tool)
  }

  /** Some of the first n services is written in a language that has a
      runtime probe. */
  predicate AnyLanguage(services: seq<(string, Project.Service)>, n: int, language: string)
    requires n <= |services|
  {
    RuntimeFor(language).Some? && exists j :: 0 <= j < n && services[j].1.language == language
  }

  /** The key of the seen-tools map the service walks keep. */
  function ToolKey(tool: Tool): (key: string)
    ensures tool == Docker ==> key == "docker"
    ensures tool == Func ==> key == "func"
    ensures tool == Swa ==> key == "swa"
    ensures key != "" <==> tool in {Docker, Func, Swa}
  {
    match tool
    case Docker => "docker"
    case Func => "func"
    case Swa => "swa"
    case _ => ""
  }

  // ---------------------------------------------------------------------------
  // Traces as tasks

  /** What a probe was run for, without its outcome. */
  datatype Task = Task(tool: Tool, cause: Cause)

  /** The tasks of a trace, in order. */
  function Tasks(log: seq<Probe>): (tasks: seq<Task>)
    ensures |tasks| == |log|
  {
    if log == [] then []
    else Tasks(log[..|log| - 1]) + [Task(log[|log| - 1].tool, log[|log| - 1].cause)]
  }

  lemma TasksSnoc(log: seq<Probe>, p: Probe)
    ensures Tasks(log + [p]) == Tasks(log) + [Task(p.tool, p.cause)]
  {
    assert (log + [p])[..|log|] == log;
  }

  lemma {:induction false} TasksAppend(a: seq<Probe>, b: seq<Probe>)
    ensures Tasks(a + b) == Tasks(a) + Tasks(b)
    decreases |b|
  {
    if b == [] {
      assert a + b == a;
    } else {
      var last := b[|b| - 1];
      assert a + b == (a + b[..|b| - 1]) + [last];
      TasksSnoc(a + b[..|b| - 1], last);
      TasksAppend(a, b[..|b| - 1]);
      TasksSnoc(b[..|b| - 1], last);
      assert b == b[..|b| - 1] + [last];
    }
  }

  /** The task of each probe of a trace is at the same position. */
  lemma {:induction false} TasksAt(log: seq<Probe>, k: int)
    requires 0 <= k < |log|
    ensures Tasks(log)[k] == Task(log[k].tool, log[k].cause)
    decreases |log|
  {
    if k < |log| - 1 {
      TasksAt(log[..|log| - 1], k);
    }
  }

  predicate IsPrefix(a: seq<Task>, b: seq<Task>) {
    |a| <= |b| && a == b[..|a|]
  }

  // ---------------------------------------------------------------------------
  // Counting

  /** What a count is about: a tool, or a cause. */
  datatype Key = OfTool(tool: Tool) | OfCause(cause: Cause)

  predicate Matches(t: Task, key: Key) {
    match key
    case OfTool(tool) => t.tool == tool
    case OfCause(cause) => t.cause == cause
  }

  /** How many tasks match the key. */
  function Count(tasks: seq<Task>, key: Key): (n: nat)
    ensures n <= |tasks|
  {
    if tasks == [] then 0
    else Count(tasks[..|tasks| - 1], key) + if Matches(tasks[|tasks| - 1], key) then 1 else 0
  }

  /** A key is counted zero times exactly when no task matches it. */
  lemma {:induction false} CountZero(tasks: seq<Task>, key: Key)
    ensures Count(tasks, key) == 0 <==> forall i :: 0 <= i < |tasks| ==> !Matches(tasks[i], key)
    decreases |tasks|
  {
    if tasks != [] {
      var rest := tasks[..|tasks| - 1];
      CountZero(rest, key);
      assert forall i :: 0 <= i < |rest| ==> rest[i] == tasks[i];
    }
  }

  /** A single task counts once when it matches. */
  lemma CountOne(t: Task, key: Key)
    ensures Count([t], key) == if Matches(t, key) then 1 else 0
  {
    assert [t][..0] == [];
  }

  /** Counting is additive over concatenation. */
  lemma {:induction false} CountAppend(a: seq<Task>, b: seq<Task>, key: Key)
    ensures Count(a + b, key) == Count(a, key) + Count(b, key)
    decreases |b|
  {
    if b == [] {
      assert a + b == a;
    } else {
      assert (a + b)[..|a + b| - 1] == a + b[..|b| - 1];
      CountAppend(a, b[..|b| - 1], key);
    }
  }

  /** A prefix counts no more than the whole. */
  lemma CountPrefix(a: seq<Task>, b: seq<Task>, key: Key)
    requires IsPrefix(a, b)
    ensures Count(a, key) <= Count(b, key)
  {
    assert b == a + b[|a|..];
    CountAppend(a, b[|a|..], key);
  }

  // ---------------------------------------------------------------------------
  // The service walk

  /** The runtime task of one service, given the languages already seen: a
      non-empty language not seen before is marked seen, and its runtime, if
      it has one, is probed. */
  function LanguageVisit(svc: Project.Service, langs: set<string>): (r: (seq<Task>, set<string>))
    ensures |r.0| <= 1 && r.1 == if svc.language == "" then langs else langs + {svc.language}
    ensures |r.0| == 1 <==> svc.language !in langs && RuntimeFor(svc.language).Some?
    ensures |r.0| == 1 ==> r.0[0] == Task(RuntimeFor(svc.language).value, Language(svc.language))
  {
    var language := svc.language;
    if language != "" && language !in langs then
      var runtime := RuntimeFor(language);
      (if runtime.Some? then [Task(runtime.value, Language(language))] else [], langs + {language})
    else ([], langs)
  }

  /** The host-tool task of one service, given the tools already probed: the
      tool is probed and marked when the service needs it and it is not
      marked yet. */
  function HostVisit(svc: Project.Service, tool: Tool, tools: set<string>): (r: (seq<Task>, set<string>))
    ensures |r.0| <= 1 && r.1 == if |r.0| == 1 then tools + {ToolKey(tool)} else tools
    ensures |r.0| == 1 <==> Needs(svc, tool) && ToolKey(tool) !in tools
    ensures |r.0| == 1 ==> r.0[0] == Task(tool, Step)
  {
    if Needs(svc, tool) && ToolKey(tool) !in tools then ([Task(tool, Step)], tools + {ToolKey(tool)}) else ([], tools)
  }

  /** The host-tool blocks of one service: docker, func and swa, with the
      probed tools afterwards. */
  function HostVisits(svc: Project.Service, tools: set<string>): (r: (seq<Task>, set<string>))
    ensures |r.0| <= 3
  {
    var d := HostVisit(svc, Docker, tools);
    var f := HostVisit(svc, Func, d.1);
    var s := HostVisit(svc, Swa, f.1);
    (d.0 + f.0 + s.0, s.1)
  }

  /** One pass of the service loop: the runtime, then the host tools; with
      the seen languages and tools afterwards. */
  function Visit(svc: Project.Service, langs: set<string>, tools: set<string>): (r: (seq<Task>, set<string>, set<string>))
    ensures |r.0| <= 4
  {
    var l := LanguageVisit(svc, langs);
    var h := HostVisits(svc, tools);
    (l.0 + h.0, l.1, h.1)
  }

  /** The tasks the walk runs from service i on, when every probe passes. */
  function Remaining(services: seq<(string, Project.Service)>, i: int, langs: set<string>, tools: set<string>): (plan: seq<Task>)
    requires 0 <= i <= |services|
    ensures i == |services| ==> plan == []
    decreases |services| - i
  {
    if i == |services| then []
    else
      var (tasks, langs', tools') := Visit(services[i].1, langs, tools);
      tasks + Remaining(services, i + 1, langs', tools')
  }

  /** The tasks of a whole walk that passes. */
  function ServicePlan(services: seq<(string, Project.Service)>): (plan: seq<Task>)
    ensures |services| == 0 ==> plan == []
  {
    Remaining(services, 0, {}, {})
  }

  /** Some service from position i on needs the host tool. */
  predicate NeededFrom(services: seq<(string, Project.Service)>, i: int, tool: Tool)
    requires 0 <= i <= |services|
  {
    exists j :: i <= j < |services| && Needs(services[j].1, tool)
  }

  /** Some service from position i on is written in the language. */
  predicate WrittenFrom(services: seq<(string, Project.Service)>, i: int, language: string)
    requires 0 <= i <= |services|
  {
    exists j :: i <= j < |services| && services[j].1.language == language
  }

  lemma HostVisitCount(svc: Project.Service, visited: Tool, tools: set<string>, tool: Tool)
    requires visited in {Docker, Func, Swa}
    ensures Count(HostVisit(svc, visited, tools).0, OfTool(tool)) ==
      if visited == tool && Needs(svc, tool) && ToolKey(tool) !in tools then 1 else 0
  {
    var r := HostVisit(svc, visited, tools);
    if |r.0| == 1 {
      assert r.0[..0] == [];
    }
  }

  /** The host-tool blocks probe a host tool once when the service needs it
      and the tool is not marked yet, and mark it. */
  lemma HostVisitsOnce(svc: Project.Service, tools: set<string>, tool: Tool)
    requires tool in {Docker, Func, Swa}
    ensures Count(HostVisits(svc, tools).0, OfTool(tool)) == if Needs(svc, tool) && ToolKey(tool) !in tools then 1 else 0
    ensures ToolKey(tool) in HostVisits(svc, tools).1 <==> ToolKey(tool) in tools || Needs(svc, tool)
  {
    var d := HostVisit(svc, Docker, tools);
    var f := HostVisit(svc, Func, d.1);
    var s := HostVisit(svc, Swa, f.1);
    CountAppend(d.0 + f.0, s.0, OfTool(tool));
    CountAppend(d.0, f.0, OfTool(tool));
    HostPiecesCount(svc, d.0, f.0, s.0, tools, d.1, f.1, tool);
    MarkedAfter(svc, tools, d.1, f.1, s.1, tool);
  }

  lemma HostPiecesCount(svc: Project.Service, d: seq<Task>, f: seq<Task>, s: seq<Task>,
                        tools: set<string>, t1: set<string>, t2: set<string>, tool: Tool)
    requires tool in {Docker, Func, Swa}
    requires d == HostVisit(svc, Docker, tools).0 && t1 == HostVisit(svc, Docker, tools).1
    requires f == HostVisit(svc, Func, t1).0 && t2 == HostVisit(svc, Func, t1).1
    requires s == HostVisit(svc, Swa, t2).0
    ensures Count(d, OfTool(tool)) + Count(f, OfTool(tool)) + Count(s, OfTool(tool)) ==
      if Needs(svc, tool) && ToolKey(tool) !in tools then 1 else 0
  {
    if tool == Docker {
      DockerPieces(svc, tools, t1, t2);
    } else if tool == Func {
      FuncPieces(svc, tools, t1, t2);
    } else {
      SwaPieces(svc, tools, t1, t2);
    }
  }

  lemma DockerPieces(svc: Project.Service, tools: set<string>, t1: set<string>, t2: set<string>)
    requires t1 == HostVisit(svc, Docker, tools).1 && t2 == HostVisit(svc, Func, t1).1
    ensures Count(HostVisit(svc, Docker, tools).0, OfTool(Docker)) == if Needs(svc, Docker) && ToolKey(Docker) !in tools then 1 else 0
    ensures Count(HostVisit(svc, Func, t1).0, OfTool(Docker)) == 0
    ensures Count(HostVisit(svc, Swa, t2).0, OfTool(Docker)) == 0
  {
    HostVisitCount(svc, Docker, tools, Docker);
    HostVisitCount(svc, Func, t1, Docker);
    HostVisitCount(svc, Swa, t2, Docker);
  }

  lemma FuncPieces(svc: Project.Service, tools: set<string>, t1: set<string>, t2: set<string>)
    requires t1 == HostVisit(svc, Docker, tools).1 && t2 == HostVisit(svc, Func, t1).1
    ensures Count(HostVisit(svc, Docker, tools).0, OfTool(Func)) == 0
    ensures Count(HostVisit(svc, Func, t1).0, OfTool(Func)) == if Needs(svc, Func) && ToolKey(Func) !in tools then 1 else 0
    ensures Count(HostVisit(svc, Swa, t2).0, OfTool(Func)) == 0
  {
    HostVisitKeeps(svc, Docker, tools, Func);
    HostVisitCount(svc, Docker, tools, Func);
    HostVisitCount(svc, Func, t1, Func);
    HostVisitCount(svc, Swa, t2, Func);
  }

  lemma SwaPieces(svc: Project.Service, tools: set<string>, t1: set<string>, t2: set<string>)
    requires t1 == HostVisit(svc, Docker, tools).1 && t2 == HostVisit(svc, Func, t1).1
    ensures Count(HostVisit(svc, Docker, tools).0, OfTool(Swa)) == 0
    ensures Count(HostVisit(svc, Func, t1).0, OfTool(Swa)) == 0
    ensures Count(HostVisit(svc, Swa, t2).0, OfTool(Swa)) == if Needs(svc, Swa) && ToolKey(Swa) !in tools then 1 else 0
  {
    HostVisitKeeps(svc, Docker, tools, Swa);
    HostVisitKeeps(svc, Func, t1, Swa);
    HostVisitCount(svc, Docker, tools, Swa);
    HostVisitCount(svc, Func, t1, Swa);
    HostVisitCount(svc, Swa, t2, Swa);
  }

  /** A host-tool block leaves the marks of the other host tools alone. */
  lemma HostVisitKeeps(svc: Project.Service, visited: Tool, tools: set<string>, tool: Tool)
    requires visited in {Docker, Func, Swa} && tool in {Docker, Func, Swa} && visited != tool
    ensures ToolKey(tool) in HostVisit(svc, visited, tools).1 <==> ToolKey(tool) in tools
  {
    DistinctKeys(visited, tool);
  }

  lemma DistinctKeys(a: Tool, b: Tool)
    requires a in {Docker, Func, Swa} && b in {Docker, Func, Swa} && a != b
    ensures ToolKey(a) != ToolKey(b)
  {
  }

  lemma MarkedAfter(svc: Project.Service, tools: set<string>, t1: set<string>, t2: set<string>, t3: set<string>, tool: Tool)
    requires tool in {Docker, Func, Swa}
    requires t1 == HostVisit(svc, Docker, tools).1
    requires t2 == HostVisit(svc, Func, t1).1
    requires t3 == HostVisit(svc, Swa, t2).1
    ensures ToolKey(tool) in t3 <==> ToolKey(tool) in tools || Needs(svc, tool)
  {
  }

  /** One pass probes a host tool once when the service needs it and the
      tool is not marked yet, and marks it. */
  lemma VisitHost(svc: Project.Service, langs: set<string>, tools: set<string>, tool: Tool)
    requires tool in {Docker, Func, Swa}
    ensures Count(Visit(svc, langs, tools).0, OfTool(tool)) == if Needs(svc, tool) && ToolKey(tool) !in tools then 1 else 0
    ensures ToolKey(tool) in Visit(svc, langs, tools).2 <==> ToolKey(tool) in tools || Needs(svc, tool)
  {
    var key := OfTool(tool);
    var l := LanguageVisit(svc, langs).0;
    CountAppend(l, HostVisits(svc, tools).0, key);
    CountZero(l, key);
    HostVisitsOnce(svc, tools, tool);
  }

  /** A host-tool block runs no runtime task. */
  lemma HostVisitLanguage(svc: Project.Service, visited: Tool, tools: set<string>, language: string)
    ensures Count(HostVisit(svc, visited, tools).0, OfCause(Language(language))) == 0
  {
    var r := HostVisit(svc, visited, tools);
    if |r.0| == 1 {
      assert r.0[..0] == [];
    }
  }

  /** One pass probes a language's runtime once when the service is written
      in it, it has a runtime and it is not seen yet, and marks it seen. */
  lemma VisitLanguage(svc: Project.Service, langs: set<string>, tools: set<string>, language: string)
    ensures Count(Visit(svc, langs, tools).0, OfCause(Language(language))) ==
      if svc.language == language && RuntimeFor(language).Some? && language !in langs then 1 else 0
    ensures RuntimeFor(language).Some? ==>
      (language in Visit(svc, langs, tools).1 <==> language in langs || svc.language == language)
  {
    var key := OfCause(Language(language));
    var l := LanguageVisit(svc, langs);
    var d := HostVisit(svc, Docker, tools);
    var f := HostVisit(svc, Func, d.1);
    var s := HostVisit(svc, Swa, f.1);
    CountAppend(l.0, d.0 + f.0 + s.0, key);
    CountAppend(d.0 + f.0, s.0, key);
    CountAppend(d.0, f.0, key);
    HostVisitLanguage(svc, Docker, tools, language);
    HostVisitLanguage(svc, Func, d.1, language);
    HostVisitLanguage(svc, Swa, f.1, language);
    if l.0 != [] {
      assert l.0[..0] == [];
    }
  }

  /** From any point of the walk, a host tool is still probed exactly once
      if it is not marked yet and a remaining service needs it, and never
      otherwise. */
  lemma {:induction false} RemainingHostOnce(services: seq<(string, Project.Service)>, i: int,
                                             langs: set<string>, tools: set<string>, tool: Tool)
    requires 0 <= i <= |services| && tool in {Docker, Func, Swa}
    ensures Count(Remaining(services, i, langs, tools), OfTool(tool)) ==
      if ToolKey(tool) !in tools && NeededFrom(services, i, tool) then 1 else 0
    decreases |services| - i
  {
    if i < |services| {
      var v := Visit(services[i].1, langs, tools);
      var rest := Remaining(services, i + 1, v.1, v.2);
      assert Remaining(services, i, langs, tools) == v.0 + rest;
      RemainingHostOnce(services, i + 1, v.1, v.2, tool);
      CountAppend(v.0, rest, OfTool(tool));
      VisitHost(services[i].1, langs, tools, tool);
      NeededStep(services, i, tool);
    }
  }

  /** From any point of the walk, a language's runtime is still probed
      exactly once if the language has a runtime, is not seen yet and a
      remaining service is written in it, and never otherwise. */
  lemma {:induction false} RemainingLanguageOnce(services: seq<(string, Project.Service)>, i: int,
                                                 langs: set<string>, tools: set<string>, language: string)
    requires 0 <= i <= |services|
    ensures Count(Remaining(services, i, langs, tools), OfCause(Language(language))) ==
      if RuntimeFor(language).Some? && language !in langs && WrittenFrom(services, i, language) then 1 else 0
    decreases |services| - i
  {
    if i < |services| {
      var v := Visit(services[i].1, langs, tools);
      var rest := Remaining(services, i + 1, v.1, v.2);
      assert Remaining(services, i, langs, tools) == v.0 + rest;
      RemainingLanguageOnce(services, i + 1, v.1, v.2, language);
      CountAppend(v.0, rest, OfCause(Language(language)));
      VisitLanguage(services[i].1, langs, tools, language);
      WrittenStep(services, i, language);
    }
  }

  lemma NeededStep(services: seq<(string, Project.Service)>, i: int, tool: Tool)
    requires 0 <= i < |services|
    ensures NeededFrom(services, i, tool) <==> Needs(services[i].1, tool) || NeededFrom(services, i + 1, tool)
  {
  }

  lemma WrittenStep(services: seq<(string, Project.Service)>, i: int, language: string)
    requires 0 <= i < |services|
    ensures WrittenFrom(services, i, language) <==> services[i].1.language == language || WrittenFrom(services, i + 1, language)
  {
  }

  /** A whole walk probes each host tool once if some service needs it, and
      never otherwise. */
  lemma ServicePlanHostOnce(services: seq<(string, Project.Service)>, tool: Tool)
    requires tool in {Docker, Func, Swa}
    ensures Count(ServicePlan(services), OfTool(tool)) == if AnyNeeds(services, |services|, tool) then 1 else 0
  {
    RemainingHostOnce(services, 0, {}, {}, tool);
  }

  /** A whole walk probes each language's runtime once if some service is
      written in it and it has a runtime, and never otherwise. */
  lemma ServicePlanLanguageOnce(services: seq<(string, Project.Service)>, language: string)
    ensures Count(ServicePlan(services), OfCause(Language(language))) == if AnyLanguage(services, |services|, language) then 1 else 0
  {
    RemainingLanguageOnce(services, 0, {}, {}, language);
  }

  /** A tool the service walks probe: a runtime or a host tool. */
  predicate ServiceTool(tool: Tool) {
    tool in {Node, Python, DotNet, Docker, Func, Swa}
  }

  /** Every task of a service walk probes a runtime or a host tool, and one
      run for a language probes that language's runtime. */
  predicate AllServiceTools(tasks: seq<Task>) {
    forall k :: 0 <= k < |tasks| ==>
      ServiceTool(tasks[k].tool) && (tasks[k].cause.Language? ==> RuntimeFor(tasks[k].cause.language) == Some(tasks[k].tool))
  }

  lemma ServiceToolsAppend(a: seq<Task>, b: seq<Task>)
    requires AllServiceTools(a) && AllServiceTools(b)
    ensures AllServiceTools(a + b)
  {
    assert forall k :: |a| <= k < |a + b| ==> (a + b)[k] == b[k - |a|];
  }

  lemma VisitServiceTools(svc: Project.Service, langs: set<string>, tools: set<string>)
    ensures AllServiceTools(Visit(svc, langs, tools).0)
  {
    var d := HostVisit(svc, Docker, tools);
    var f := HostVisit(svc, Func, d.1);
    var s := HostVisit(svc, Swa, f.1);
    ServiceToolsAppend(d.0, f.0);
    ServiceToolsAppend(d.0 + f.0, s.0);
    ServiceToolsAppend(LanguageVisit(svc, langs).0, HostVisits(svc, tools).0);
  }

  /** The service walks probe nothing but runtimes and host tools, each
      runtime for its own language. */
  lemma {:induction false} RemainingServiceTools(services: seq<(string, Project.Service)>, i: int, langs: set<string>, tools: set<string>)
    requires 0 <= i <= |services|
    ensures AllServiceTools(Remaining(services, i, langs, tools))
    decreases |services| - i
  {
    if i < |services| {
      var v := Visit(services[i].1, langs, tools);
      VisitServiceTools(services[i].1, langs, tools);
      RemainingServiceTools(services, i + 1, v.1, v.2);
      ServiceToolsAppend(v.0, Remaining(services, i + 1, v.1, v.2));
    }
  }
}
