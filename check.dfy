/**
  The advisory `check` command of internal/cmd/check.go. It probes the
  same tools as the verify gate, and the shells the hooks ask for, and
  reports each result; a failed probe never fails the command. Only a
  descriptor that cannot be loaded, or an azd client that cannot be
  created, does.

  What the command does is a sequence of events: a probe whose result is
  reported, or a note printed on its own (the project file and name, the
  infrastructure provider, an unknown shell, a skipped login). Section
  headings and colours are rendering only.
 */
module Check {
  import opened Wrappers
  import opened Checks
  import Azd
  import Project
  import opened Tools
  import Verify

  /** A line the command prints that is not the report of a probe: a
      heading and its detail. Whether it prints as a success, an info or a
      warning line (the project file is a success line, internal/cmd/check.go:89,
      the project name an info line) is presentation and is not recorded. */
  datatype Note = Note(heading: string, detail: string)

  /** One step of what the command does, before it is done: a probe to run
      and report, or a note to print. */
  datatype Item = ProbeItem(task: Task) | NoteItem(note: Note)

  /** One step as it was done: a probe with its result, or a printed note. */
  datatype Event = Reported(probe: Probe) | Shown(note: Note)

  function ItemOf(e: Event): Item {
    match e
    case Reported(p) => ProbeItem(Task(p.tool, p.cause))
    case Shown(n) => NoteItem(n)
  }

  /** The plan a sequence of events carried out. */
  function Items(out: seq<Event>): (items: seq<Item>)
    ensures |items| == |out|
  {
    if out == [] then [] else Items(out[..|out| - 1]) + [ItemOf(out[|out| - 1])]
  }

  lemma ItemsSnoc(out: seq<Event>, e: Event)
    ensures Items(out + [e]) == Items(out) + [ItemOf(e)]
  {
    assert (out + [e])[..|out|] == out;
  }

  /** The probes of a plan, in order. */
  function Probes(plan: seq<Item>): (tasks: seq<Task>)
    ensures |tasks| <= |plan|
  {
    if plan == [] then []
    else Probes(plan[..|plan| - 1]) + if plan[|plan| - 1].ProbeItem? then [plan[|plan| - 1].task] else []
  }

  lemma {:induction false} ProbesAppend(a: seq<Item>, b: seq<Item>)
    ensures Probes(a + b) == Probes(a) + Probes(b)
    decreases |b|
  {
    if b == [] {
      assert a + b == a;
    } else {
      assert (a + b)[..|a + b| - 1] == a + b[..|b| - 1];
      ProbesAppend(a, b[..|b| - 1]);
    }
  }

  /** Each task probed in turn. */
  function RunAll(tasks: seq<Task>): (plan: seq<Item>)
    ensures |plan| == |tasks|
  {
    if tasks == [] then [] else RunAll(tasks[..|tasks| - 1]) + [ProbeItem(tasks[|tasks| - 1])]
  }

  lemma {:induction false} ProbesRunAll(tasks: seq<Task>)
    ensures Probes(RunAll(tasks)) == tasks
    decreases |tasks|
  {
    if tasks != [] {
      var init := tasks[..|tasks| - 1];
      ProbesRunAll(init);
      assert RunAll(tasks)[..|tasks| - 1] == RunAll(init);
      assert tasks == init + [tasks[|tasks| - 1]];
    }
  }

  lemma {:induction false} RunAllAppend(a: seq<Task>, b: seq<Task>)
    ensures RunAll(a + b) == RunAll(a) + RunAll(b)
    decreases |b|
  {
    if b == [] {
      assert a + b == a;
    } else {
      assert (a + b)[..|a + b| - 1] == a + b[..|b| - 1];
      RunAllAppend(a, b[..|b| - 1]);
    }
  }

  /** Three stretches of probes run one after another. */
  lemma RunAllJoin(done: seq<Item>, a: seq<Task>, b: seq<Task>, c: seq<Task>)
    ensures done + RunAll(a) + RunAll(b) + RunAll(c) == done + RunAll(a + b + c)
  {
    RunAllAppend(a, b);
    RunAllAppend(a + b, c);
  }

  /** The probes of a plan that are not probes of a hook's shell. */
  function NoShell(plan: seq<Item>): (r: seq<Task>)
    ensures |r| <= |plan|
  {
    if plan == [] then []
    else
      var last := plan[|plan| - 1];
      NoShell(plan[..|plan| - 1]) + if last.ProbeItem? && !last.task.cause.Shell? then [last.task] else []
  }

  lemma {:induction false} NoShellAppend(a: seq<Item>, b: seq<Item>)
    ensures NoShell(a + b) == NoShell(a) + NoShell(b)
    decreases |b|
  {
    if b == [] {
      assert a + b == a;
    } else {
      assert (a + b)[..|a + b| - 1] == a + b[..|b| - 1];
      NoShellAppend(a, b[..|b| - 1]);
    }
  }

  lemma {:induction false} NoShellRunAll(tasks: seq<Task>)
    requires forall k :: 0 <= k < |tasks| ==> !tasks[k].cause.Shell?
    ensures NoShell(RunAll(tasks)) == tasks
    decreases |tasks|
  {
    if tasks != [] {
      var init := tasks[..|tasks| - 1];
      NoShellRunAll(init);
      assert RunAll(tasks)[..|tasks| - 1] == RunAll(init);
      assert tasks == init + [tasks[|tasks| - 1]];
    }
  }

  /** A probe of a hook's shell. */
  predicate ShellTask(t: Task) {
    t.cause.Shell? && (t.tool == Bash || t.tool == Pwsh)
  }

  /** Every probe of the plan is a shell probe. */
  predicate OnlyShells(plan: seq<Item>) {
    forall k :: 0 <= k < |plan| && plan[k].ProbeItem? ==> ShellTask(plan[k].task)
  }

  /** Every probe made for a shell is a probe of bash or PowerShell. */
  predicate ShellsAreShellTools(plan: seq<Item>) {
    forall k :: 0 <= k < |plan| && plan[k].ProbeItem? && plan[k].task.cause.Shell? ==> ShellTask(plan[k].task)
  }

  lemma {:induction false} NoShellOfShells(plan: seq<Item>)
    requires OnlyShells(plan)
    ensures NoShell(plan) == []
    decreases |plan|
  {
    if plan != [] {
      NoShellOfShells(plan[..|plan| - 1]);
    }
  }

  /** Dropping the shell probes keeps the count of any key no shell probe
      matches. */
  lemma {:induction false} CountNoShell(plan: seq<Item>, key: Key)
    requires forall k :: 0 <= k < |plan| && plan[k].ProbeItem? && plan[k].task.cause.Shell? ==> !Matches(plan[k].task, key)
    ensures Count(NoShell(plan), key) == Count(Probes(plan), key)
    decreases |plan|
  {
    if plan != [] {
      var init := plan[..|plan| - 1];
      var last := plan[|plan| - 1];
      var kept := if last.ProbeItem? && !last.task.cause.Shell? then [last.task] else [];
      var probed := if last.ProbeItem? then [last.task] else [];
      assert NoShell(plan) == NoShell(init) + kept;
      assert Probes(plan) == Probes(init) + probed;
      assert forall k :: 0 <= k < |init| ==> init[k] == plan[k];
      CountNoShell(init, key);
      CountAppend(NoShell(init), kept, key);
      CountAppend(Probes(init), probed, key);
      if last.ProbeItem? {
        CountOne(last.task, key);
      }
    }
  }

  // ---------------------------------------------------------------------------
  // printResult

  /** One printed status line: success or failure, a message and details. */
  datatype Line = Line(ok: bool, message: string, details: string)

  /** printResult: an installed tool is a success line with its version,
      followed, for a daemon-backed tool, by a daemon line that succeeds
      exactly when the daemon runs; a missing tool is one failure line. */
  function Report(res: CheckResult): (lines: seq<Line>)
    ensures 1 <= |lines| <= 2 && lines[0].message == res.name
    ensures lines[0].ok <==> res.installed
    ensures |lines| == 2 <==> res.installed && res.hasDaemon
    ensures |lines| == 2 ==> lines[1].ok == res.running
  {
    if res.installed then
      [Line(true, res.name, res.version)]
        + if res.hasDaemon then
            if res.running then [Line(true, res.name + " Daemon", "Running")]
            else [Line(false, res.name + " Daemon", "Not running")]
          else []
    else [Line(false, res.name, "Not found")]
  }

  /** printResult never looks at the recorded error. */
  lemma ReportIgnoresError(res: CheckResult, e: Option<Failure>)
    ensures Report(res.(error := e)) == Report(res)
  {
  }

  /** So a failed login, which CheckAzdLogin reports as installed with an
      error, is printed as a single success line, although the gate's
      requireCheck fails the same result. */
  lemma ReportShowsFailedLoginAsDone(r: Runner)
    requires !r.output("azd", Azd.LoginArgs).ok
    ensures Verify.RequireCheck(Azd.CheckAzdLogin(r).result).Some?
    ensures Report(Azd.CheckAzdLogin(r).result) == [Line(true, "azd auth", Azd.CheckAzdLogin(r).result.version)]
  {
  }

  /** Every line of a report is a success line. */
  predicate AllOk(lines: seq<Line>) {
    forall k :: 0 <= k < |lines| ==> lines[k].ok
  }

  /** printResult with the error taken into account: an installed tool whose
      result carries an error that a stopped daemon does not already
      explain is one failure line with what the probe found. */
  function ReportChecked(res: CheckResult): (lines: seq<Line>)
    ensures 1 <= |lines| <= 2 && lines[0].message == res.name
  {
    if res.installed && res.error.Some? && !(res.hasDaemon && !res.running) then [Line(false, res.name, res.version)]
    else Report(res)
  }

  /** The corrected report shows only success lines exactly when the gate's
      requireCheck accepts the result. */
  lemma ReportCheckedAgreesWithGate(res: CheckResult)
    ensures AllOk(ReportChecked(res)) <==> Verify.RequireCheck(res).None?
  {
  }

  /** It changes nothing for a result without an error. */
  lemma ReportCheckedKeepsClean(res: CheckResult)
    requires res.error.None?
    ensures ReportChecked(res) == Report(res)
  {
  }

  // ---------------------------------------------------------------------------
  // checkHooks

  /** The shell a hook runs under: its own, or pwsh on windows and sh
      elsewhere when it names none. */
  function ResolveShell(shell: string, goos: string): (s: string)
    ensures s != ""
    ensures shell != "" ==> s == shell
    ensures shell == "" ==> s == if goos == "windows" then "pwsh" else "sh"
  {
    if shell != "" then shell else if goos == "windows" then "pwsh" else "sh"
  }

  /** The probe a shell name calls for: sh and bash the bash probe, pwsh and
      powershell the PowerShell probe, any other name none. */
  function ShellTool(shell: string): (t: Option<Tool>)
    ensures t == Some(Bash) <==> shell == "sh" || shell == "bash"
    ensures t == Some(Pwsh) <==> shell == "pwsh" || shell == "powershell"
    ensures t.None? <==> shell !in {"sh", "bash", "pwsh", "powershell"}
  {
    if shell == "sh" || shell == "bash" then Some(Bash)
    else if shell == "pwsh" || shell == "powershell" then Some(Pwsh)
    else None
  }

  /** The first hook of a call that asks for a shell: the shell's probe, or
      an Unknown Shell note. */
  function ShellVisit(shell: string): seq<Item> {
    match ShellTool(shell)
    case Some(tool) => [ProbeItem(Task(tool, Shell(shell)))]
    case None => [NoteItem(Note("Unknown Shell", shell))]
  }

  /** What checkHooks does from the i-th hook on, given the shells this call
      has already handled. */
  function HookPlan(hooks: Project.Hooks, goos: string, i: nat, seen: set<string>): seq<Item>
    decreases |hooks| - i
  {
    if i >= |hooks| then []
    else
      var shell := ResolveShell(hooks[i].1.shell, goos);
      if shell in seen then HookPlan(hooks, goos, i + 1, seen)
      else ShellVisit(shell) + HookPlan(hooks, goos, i + 1, seen + {shell})
  }

  /** Some hook from position i on runs under the shell. */
  predicate AsksFrom(hooks: Project.Hooks, goos: string, i: nat, shell: string)
    decreases |hooks| - i
  {
    i < |hooks| && (ResolveShell(hooks[i].1.shell, goos) == shell || AsksFrom(hooks, goos, i + 1, shell))
  }

  /** checkHooks probes nothing but shells. */
  lemma {:induction false} HookPlanShells(hooks: Project.Hooks, goos: string, i: nat, seen: set<string>)
    ensures OnlyShells(HookPlan(hooks, goos, i, seen))
    decreases |hooks| - i
  {
    if i < |hooks| {
      var shell := ResolveShell(hooks[i].1.shell, goos);
      if shell in seen {
        HookPlanShells(hooks, goos, i + 1, seen);
      } else {
        var v := ShellVisit(shell);
        var rest := HookPlan(hooks, goos, i + 1, seen + {shell});
        HookPlanShells(hooks, goos, i + 1, seen + {shell});
        assert forall k :: |v| <= k < |v + rest| ==> (v + rest)[k] == rest[k - |v|];
      }
    }
  }

  /** Within one call of checkHooks a shell is probed once if it is known, a
      remaining hook runs under it and the call has not handled it yet, and
      never otherwise. */
  lemma {:induction false} HookShellOnce(hooks: Project.Hooks, goos: string, i: nat, seen: set<string>, shell: string)
    ensures Count(Probes(HookPlan(hooks, goos, i, seen)), OfCause(Shell(shell))) ==
      if ShellTool(shell).Some? && shell !in seen && AsksFrom(hooks, goos, i, shell) then 1 else 0
    decreases |hooks| - i
  {
    if i < |hooks| {
      var s := ResolveShell(hooks[i].1.shell, goos);
      if s in seen {
        HookShellOnce(hooks, goos, i + 1, seen, shell);
      } else {
        var v := ShellVisit(s);
        var rest := HookPlan(hooks, goos, i + 1, seen + {s});
        HookShellOnce(hooks, goos, i + 1, seen + {s}, shell);
        ProbesAppend(v, rest);
        CountAppend(Probes(v), Probes(rest), OfCause(Shell(shell)));
        ShellVisitCount(s, shell);
      }
    } else {
      assert !AsksFrom(hooks, goos, i, shell);
    }
  }

  /** Handling a new shell probes the counted shell once exactly when it is
      that shell and it is known. */
  lemma ShellVisitCount(s: string, shell: string)
    ensures Count(Probes(ShellVisit(s)), OfCause(Shell(shell))) ==
      if ShellTool(s).Some? && s == shell then 1 else 0
  {
    assert Probes(ShellVisit(s)) == if ShellTool(s).Some? then [Task(ShellTool(s).value, Shell(s))] else [];
    CountZero([], OfCause(Shell(shell)));
    CountZero([Task(Bash, Shell(s))], OfCause(Shell(shell)));
    CountZero([Task(Pwsh, Shell(s))], OfCause(Shell(shell)));
  }

  /** A pass of checkHooks' loop that did what HookPlan plans. */
  lemma HookStep(hooks: Project.Hooks, goos: string, i: nat, seen: set<string>, done: seq<Item>, whole: seq<Item>)
    requires i < |hooks| && done + HookPlan(hooks, goos, i, seen) == whole
    ensures var shell := ResolveShell(hooks[i].1.shell, goos);
      shell !in seen ==> done + ShellVisit(shell) + HookPlan(hooks, goos, i + 1, seen + {shell}) == whole
  {
    var shell := ResolveShell(hooks[i].1.shell, goos);
    if shell !in seen {
      var v := ShellVisit(shell);
      var rest := HookPlan(hooks, goos, i + 1, seen + {shell});
      assert done + v + rest == done + (v + rest);
    }
  }

  /** The handling of a shell the call meets for the first time: the switch
      on its name, as ShellTool decides it. */
  method CheckShell(env: Env, shell: string, out: seq<Event>) returns (out': seq<Event>)
    ensures Items(out') == Items(out) + ShellVisit(shell)
  {
    match ShellTool(shell) {
      case Some(tool) =>
        var p := PerformTask(env, tool, Shell(shell));
        ItemsSnoc(out, Reported(p));
        out' := out + [Reported(p)];
      case None =>
        ItemsSnoc(out, Shown(Note("Unknown Shell", shell)));
        out' := out + [Shown(Note("Unknown Shell", shell))];
    }
  }

  /** checkHooks: the hooks in map order, each shell handled once per call
      with a set of its own. */
  method CheckHooks(env: Env, hooks: Project.Hooks, out: seq<Event>) returns (out': seq<Event>)
    ensures Items(out') == Items(out) + HookPlan(hooks, env.goos, 0, {})
  {
    ghost var whole := Items(out) + HookPlan(hooks, env.goos, 0, {});
    var checkedShells: set<string> := {};
    out' := out;
    var i := 0;
    while i < |hooks|
      invariant 0 <= i <= |hooks|
      invariant Items(out') + HookPlan(hooks, env.goos, i, checkedShells) == whole
    {
      var shell := hooks[i].1.shell;
      if shell == "" {
        if env.goos == "windows" {
          shell := "pwsh";
        } else {
          shell := "sh";
        }
      }
      assert shell == ResolveShell(hooks[i].1.shell, env.goos);
      HookStep(hooks, env.goos, i, checkedShells, Items(out'), whole);
      if shell !in checkedShells {
        out' := CheckShell(env, shell, out');
        checkedShells := checkedShells + {shell};
      }
      i := i + 1;
    }
    assert Items(out') + [] == Items(out');
  }

  // ---------------------------------------------------------------------------
  // The service walk

  /** The hooks of a service, when it has any, checked with a shell set of
      their own. */
  function ServiceHooks(svc: Project.Service, goos: string): seq<Item> {
    if |svc.hooks| > 0 then HookPlan(svc.hooks, goos, 0, {}) else []
  }

  /** One pass of the service loop: the runtime, the service's own hooks,
      then the host tools; with the seen languages and tools afterwards. */
  function CheckVisit(svc: Project.Service, goos: string, langs: set<string>, tools: set<string>)
    : (seq<Item>, set<string>, set<string>)
  {
    var l := LanguageVisit(svc, langs);
    var h := HostVisits(svc, tools);
    (RunAll(l.0) + ServiceHooks(svc, goos) + RunAll(h.0), l.1, h.1)
  }

  /** What the service loop does from service i on. */
  function CheckRemaining(services: seq<(string, Project.Service)>, goos: string, i: nat,
                          langs: set<string>, tools: set<string>): seq<Item>
    decreases |services| - i
  {
    if i >= |services| then []
    else
      var v := CheckVisit(services[i].1, goos, langs, tools);
      v.0 + CheckRemaining(services, goos, i + 1, v.1, v.2)
  }

  function CheckServicePlan(services: seq<(string, Project.Service)>, goos: string): seq<Item> {
    CheckRemaining(services, goos, 0, {}, {})
  }

  lemma HostVisitsSteps(svc: Project.Service, tools: set<string>)
    ensures forall k :: 0 <= k < |HostVisits(svc, tools).0| ==> HostVisits(svc, tools).0[k].cause == Step
  {
    var d := HostVisit(svc, Docker, tools);
    var f := HostVisit(svc, Func, d.1);
    var s := HostVisit(svc, Swa, f.1);
    assert forall k :: 0 <= k < |d.0 + f.0 + s.0| ==> (d.0 + f.0 + s.0)[k] in d.0 + f.0 + s.0;
  }

  /** No task of the stretch was run for a shell. */
  predicate NoShellCause(tasks: seq<Task>) {
    forall k :: 0 <= k < |tasks| ==> !tasks[k].cause.Shell?
  }

  lemma {:induction false} RunAllShells(tasks: seq<Task>)
    requires NoShellCause(tasks)
    ensures ShellsAreShellTools(RunAll(tasks))
    decreases |tasks|
  {
    if tasks != [] {
      var init := tasks[..|tasks| - 1];
      RunAllShells(init);
      ShellsAppend(RunAll(init), [ProbeItem(tasks[|tasks| - 1])]);
    }
  }

  /** The shape of a pass: probes for no shell, a stretch that probes
      nothing but shells, then probes for no shell again. */
  lemma PassShape(l: seq<Task>, k: seq<Item>, h: seq<Task>)
    requires NoShellCause(l) && OnlyShells(k) && NoShellCause(h)
    ensures NoShell(RunAll(l) + k + RunAll(h)) == l + h
    ensures ShellsAreShellTools(RunAll(l) + k + RunAll(h))
  {
    NoShellOfShells(k);
    NoShellRunAll(l);
    NoShellRunAll(h);
    NoShellAppend(RunAll(l) + k, RunAll(h));
    NoShellAppend(RunAll(l), k);
    assert l + [] == l;
    RunAllShells(l);
    RunAllShells(h);
    ShellsAppend(RunAll(l), k);
    ShellsAppend(RunAll(l) + k, RunAll(h));
  }

  /** In a pass of that shape, the shell probes are the middle stretch's. */
  lemma PassShellCount(l: seq<Task>, k: seq<Item>, h: seq<Task>, shell: string)
    requires NoShellCause(l) && NoShellCause(h)
    ensures Count(Probes(RunAll(l) + k + RunAll(h)), OfCause(Shell(shell))) == Count(Probes(k), OfCause(Shell(shell)))
  {
    var key := OfCause(Shell(shell));
    ProbesAppend(RunAll(l) + k, RunAll(h));
    ProbesAppend(RunAll(l), k);
    ProbesRunAll(l);
    ProbesRunAll(h);
    CountAppend(l + Probes(k), h, key);
    CountAppend(l, Probes(k), key);
    CountZero(l, key);
    CountZero(h, key);
  }

  /** The probes of a pass other than its hooks' are made for a language or
      as a step. */
  lemma VisitCauses(svc: Project.Service, goos: string, langs: set<string>, tools: set<string>)
    ensures NoShellCause(LanguageVisit(svc, langs).0) && NoShellCause(HostVisits(svc, tools).0)
    ensures OnlyShells(ServiceHooks(svc, goos))
  {
    HostVisitsSteps(svc, tools);
    HookPlanShells(svc.hooks, goos, 0, {});
  }

  /** A pass of the advisory walk, its shell probes and notes dropped, is a
      pass of the gate's walk, and its shell probes are bash or PowerShell. */
  lemma VisitNoShell(svc: Project.Service, goos: string, langs: set<string>, tools: set<string>)
    ensures var v := CheckVisit(svc, goos, langs, tools);
      var w := Visit(svc, langs, tools);
      NoShell(v.0) == w.0 && v.1 == w.1 && v.2 == w.2 && ShellsAreShellTools(v.0)
  {
    VisitCauses(svc, goos, langs, tools);
    PassShape(LanguageVisit(svc, langs).0, ServiceHooks(svc, goos), HostVisits(svc, tools).0);
  }

  lemma ShellsAppend(a: seq<Item>, b: seq<Item>)
    requires ShellsAreShellTools(a) && ShellsAreShellTools(b)
    ensures ShellsAreShellTools(a + b)
  {
    assert forall k :: |a| <= k < |a + b| ==> (a + b)[k] == b[k - |a|];
  }

  /** The advisory walk, its shell probes and notes dropped, runs exactly
      the gate's walk from any point; the shell probes it adds are bash or
      PowerShell. */
  lemma {:induction false} CheckRemainingNoShell(services: seq<(string, Project.Service)>, goos: string, i: nat,
                                                 langs: set<string>, tools: set<string>)
    requires i <= |services|
    ensures NoShell(CheckRemaining(services, goos, i, langs, tools)) == Remaining(services, i, langs, tools)
    ensures ShellsAreShellTools(CheckRemaining(services, goos, i, langs, tools))
    decreases |services| - i
  {
    if i < |services| {
      var v := CheckVisit(services[i].1, goos, langs, tools);
      VisitNoShell(services[i].1, goos, langs, tools);
      CheckRemainingNoShell(services, goos, i + 1, v.1, v.2);
      NoShellAppend(v.0, CheckRemaining(services, goos, i + 1, v.1, v.2));
      ShellsAppend(v.0, CheckRemaining(services, goos, i + 1, v.1, v.2));
    }
  }

  /** The advisory walk probes the same runtimes and host tools as the
      verify gate's walk, in the same order, with the hooks' shells in
      between. */
  lemma CheckPlanMatchesGate(services: seq<(string, Project.Service)>, goos: string)
    ensures NoShell(CheckServicePlan(services, goos)) == ServicePlan(services)
    ensures ShellsAreShellTools(CheckServicePlan(services, goos))
  {
    CheckRemainingNoShell(services, goos, 0, {}, {});
  }

  /** Each service checks its hooks' shells afresh: a shell is probed in a
      pass exactly when the service has a hook under it and it is known,
      whatever earlier services or the project probed. */
  lemma VisitShellOnce(svc: Project.Service, goos: string, langs: set<string>, tools: set<string>, shell: string)
    ensures Count(Probes(CheckVisit(svc, goos, langs, tools).0), OfCause(Shell(shell))) ==
      if ShellTool(shell).Some? && AsksFrom(svc.hooks, goos, 0, shell) then 1 else 0
  {
    VisitCauses(svc, goos, langs, tools);
    PassShellCount(LanguageVisit(svc, langs).0, ServiceHooks(svc, goos), HostVisits(svc, tools).0, shell);
    HookShellOnce(svc.hooks, goos, 0, {}, shell);
    if |svc.hooks| == 0 {
      assert !AsksFrom(svc.hooks, goos, 0, shell);
      CountZero([], OfCause(Shell(shell)));
    }
  }

  /** The runtime block of a pass: a language not seen yet is marked, and
      its runtime, if it has one, probed and reported. */
  method CheckRuntime(env: Env, svc: Project.Service, langs: set<string>, out: seq<Event>)
    returns (out': seq<Event>, langs': set<string>)
    ensures Items(out') == Items(out) + RunAll(LanguageVisit(svc, langs).0)
    ensures langs' == LanguageVisit(svc, langs).1
  {
    out', langs' := out, langs;
    if svc.language != "" && svc.language !in langs' {
      var runtime := RuntimeFor(svc.language);
      if runtime.Some? {
        var p := PerformTask(env, runtime.value, Language(svc.language));
        ItemsSnoc(out', Reported(p));
        out' := out' + [Reported(p)];
      }
      langs' := langs' + {svc.language};
    }
    assert Items(out) + [] == Items(out);
  }

  /** One host-tool block of a pass: the tool is probed when the service
      needs it and it was not probed before. */
  method CheckHostTool(env: Env, svc: Project.Service, tool: Tool, tools: set<string>, out: seq<Event>)
    returns (out': seq<Event>, tools': set<string>)
    ensures Items(out') == Items(out) + RunAll(HostVisit(svc, tool, tools).0)
    ensures tools' == HostVisit(svc, tool, tools).1
  {
    out', tools' := out, tools;
    if Needs(svc, tool) && ToolKey(tool) !in tools' {
      var p := PerformTask(env, tool, Step);
      ItemsSnoc(out', Reported(p));
      out' := out' + [Reported(p)];
      tools' := tools' + {ToolKey(tool)};
    }
    assert Items(out) + [] == Items(out);
  }

  /** The host-tool blocks of a pass: docker, func and swa. */
  method CheckHostTools(env: Env, svc: Project.Service, tools: set<string>, out: seq<Event>)
    returns (out': seq<Event>, tools': set<string>)
    ensures Items(out') == Items(out) + RunAll(HostVisits(svc, tools).0)
    ensures tools' == HostVisits(svc, tools).1
  {
    ghost var d := HostVisit(svc, Docker, tools);
    ghost var f := HostVisit(svc, Func, d.1);
    ghost var s := HostVisit(svc, Swa, f.1);
    out', tools' := CheckHostTool(env, svc, Docker, tools, out);
    out', tools' := CheckHostTool(env, svc, Func, tools', out');
    out', tools' := CheckHostTool(env, svc, Swa, tools', out');
    RunAllJoin(Items(out), d.0, f.0, s.0);
  }

  /** One pass of the service loop. */
  method CheckService(env: Env, svc: Project.Service, langs: set<string>, tools: set<string>, out: seq<Event>)
    returns (out': seq<Event>, langs': set<string>, tools': set<string>)
    ensures var v := CheckVisit(svc, env.goos, langs, tools);
      Items(out') == Items(out) + v.0 && langs' == v.1 && tools' == v.2
  {
    ghost var runtime := RunAll(LanguageVisit(svc, langs).0);
    ghost var hooks := ServiceHooks(svc, env.goos);
    ghost var hosts := RunAll(HostVisits(svc, tools).0);
    out', langs' := CheckRuntime(env, svc, langs, out);
    if |svc.hooks| > 0 {
      out' := CheckHooks(env, svc.hooks, out');
    } else {
      assert Items(out') + hooks == Items(out');
    }
    assert Items(out') == Items(out) + runtime + hooks;
    out', tools' := CheckHostTools(env, svc, tools, out');
    Regroup(Items(out), runtime, hooks, hosts);
  }

  lemma Regroup(done: seq<Item>, a: seq<Item>, b: seq<Item>, c: seq<Item>)
    ensures done + a + b + c == done + (a + b + c)
  {
  }

  /** A pass of the service loop that did what CheckRemaining plans. */
  lemma ServiceStep(services: seq<(string, Project.Service)>, goos: string, i: nat,
                    langs: set<string>, tools: set<string>, done: seq<Item>, whole: seq<Item>,
                    done': seq<Item>, langs': set<string>, tools': set<string>)
    requires i < |services| && done + CheckRemaining(services, goos, i, langs, tools) == whole
    requires var v := CheckVisit(services[i].1, goos, langs, tools);
      done' == done + v.0 && langs' == v.1 && tools' == v.2
    ensures done' + CheckRemaining(services, goos, i + 1, langs', tools') == whole
  {
    var v := CheckVisit(services[i].1, goos, langs, tools);
    var rest := CheckRemaining(services, goos, i + 1, v.1, v.2);
    assert CheckRemaining(services, goos, i, langs, tools) == v.0 + rest;
    Associate(done, v.0, rest);
  }

  lemma Associate<T>(a: seq<T>, b: seq<T>, c: seq<T>)
    ensures a + b + c == a + (b + c)
  {
  }

  /** The service loop, in map order, with the seen languages and probed
      tools shared by all services. */
  method CheckServices(env: Env, services: seq<(string, Project.Service)>, out: seq<Event>)
    returns (out': seq<Event>)
    ensures Items(out') == Items(out) + CheckServicePlan(services, env.goos)
  {
    ghost var whole := Items(out) + CheckServicePlan(services, env.goos);
    var checkedLangs: set<string> := {};
    var checkedTools: set<string> := {};
    out' := out;
    var i := 0;
    while i < |services|
      invariant 0 <= i <= |services|
      invariant Items(out') + CheckRemaining(services, env.goos, i, checkedLangs, checkedTools) == whole
    {
      ghost var done, langs, tools := Items(out'), checkedLangs, checkedTools;
      out', checkedLangs, checkedTools := CheckService(env, services[i].1, checkedLangs, checkedTools, out');
      ServiceStep(services, env.goos, i, langs, tools, done, whole, Items(out'), checkedLangs, checkedTools);
      i := i + 1;
    }
    assert Items(out') + [] == Items(out');
  }

  // ---------------------------------------------------------------------------
  // The command

  /** The azd block both branches start with. */
  const AzdTools: seq<Tool> := [AzdVersion, Git, Gh]

  /** The common dependencies probed when there is no project. */
  const GenericTools: seq<Tool> := [Docker, Node, Python, DotNet, Bash, Pwsh, Func]

  /** Each tool probed in turn as a fixed step. */
  function StepPlan(tools: seq<Tool>): (plan: seq<Item>)
    ensures |plan| == |tools|
  {
    if tools == [] then [] else StepPlan(tools[..|tools| - 1]) + [ProbeItem(Task(tools[|tools| - 1], Step))]
  }

  /** Probes each tool in turn and reports it. The source writes these runs
      out as consecutive `printResult` calls; the model takes their tools as
      a list, so one loop stands for each such block. */
  method ProbeSteps(env: Env, tools: seq<Tool>, out: seq<Event>) returns (out': seq<Event>)
    ensures Items(out') == Items(out) + StepPlan(tools)
  {
    out' := out;
    var i := 0;
    while i < |tools|
      invariant 0 <= i <= |tools|
      invariant Items(out') == Items(out) + StepPlan(tools[..i])
    {
      var p := PerformTask(env, tools[i], Step);
      ItemsSnoc(out', Reported(p));
      out' := out' + [Reported(p)];
      assert tools[..i + 1][..i] == tools[..i];
      i := i + 1;
    }
    assert tools[..i] == tools;
  }

  /** The probe of each required extension, in map order. */
  function ExtensionTools(required: seq<(string, string)>): (tools: seq<Tool>)
    ensures |tools| == |required|
    ensures forall k :: 0 <= k < |required| ==> tools[k] == ExtensionTool(required[k].0, required[k].1)
  {
    seq(|required|, k requires 0 <= k < |required| => ExtensionTool(required[k].0, required[k].1))
  }

  /** The infra block: a terraform provider is probed; any other is only
      noted, an empty one as bicep. */
  function InfraPlan(provider: string): (plan: seq<Item>)
    ensures Probes(plan) == if provider == "terraform" then [Task(Terraform, Step)] else []
    ensures provider != "terraform" ==> plan == [NoteItem(Note("Provider", if provider == "" then "bicep" else provider))]
  {
    if provider == "terraform" then [ProbeItem(Task(Terraform, Step))]
    else [NoteItem(Note("Provider", if provider == "" then "bicep" else provider))]
  }

  /** The login block: skipped with a note, or the login probe. */
  function AuthPlan(skipAuth: bool): (plan: seq<Item>)
    ensures |plan| == 1
    ensures Probes(plan) == if skipAuth then [] else [Task(AzdLogin, Step)]
  {
    if skipAuth then [NoteItem(Note("Azd Auth", "Skipped"))] else [ProbeItem(Task(AzdLogin, Step))]
  }

  /** What the command does when there is no descriptor. */
  function NoProjectPlan(skipAuth: bool): seq<Item> {
    StepPlan(AzdTools)
      + [NoteItem(Note("Project File", "Not found (azure.yaml/azure.yml)")), NoteItem(Note("Project Name", "Unknown"))]
      + StepPlan(GenericTools)
      + AuthPlan(skipAuth)
  }

  /** The project's hooks, when it has any. */
  function ProjectHooks(hooks: Project.Hooks, goos: string): seq<Item> {
    if |hooks| > 0 then HookPlan(hooks, goos, 0, {}) else []
  }

  /** What the command does with a loaded descriptor before the infra
      block: the azd tools, the descriptor's path and name, the project
      probe, the project's hooks and the required extensions. */
  function ProjectHead(config: Project.AzureYaml, path: string, goos: string): seq<Item> {
    StepPlan(AzdTools)
      + [NoteItem(Note("Project File", path)), NoteItem(Note("Project Name", config.name))]
      + StepPlan([AzdInit])
      + ProjectHooks(config.hooks, goos)
      + StepPlan(ExtensionTools(config.requiredVersions.extensions))
  }

  /** What the command does with a loaded descriptor. */
  function ProjectPlan(config: Project.AzureYaml, path: string, goos: string, skipAuth: bool): seq<Item> {
    ProjectHead(config, path, goos)
      + InfraPlan(config.infra.provider)
      + CheckServicePlan(config.services, goos)
      + AuthPlan(skipAuth)
  }

  /** Why the command fails: the descriptor could not be loaded, or the azd
      client could not be created. */
  datatype CheckError = LoadFailed(loadError: Project.LoadError) | ClientFailed

  /** Prints a note. */
  method Show(note: Note, out: seq<Event>) returns (out': seq<Event>)
    ensures Items(out') == Items(out) + [NoteItem(note)]
  {
    ItemsSnoc(out, Shown(note));
    out' := out + [Shown(note)];
  }

  /** The check command's RunE. The descriptor is looked up and loaded as the
      verify gate does; clientOk says whether the azd client could be created.
      Whatever the probes find, only the loader or the client fails the
      command. */
  method RunCheck(env: Env, files: Project.Files, decode: string -> Option<Project.RawAzureYaml>,
                  skipAuth: bool, clientOk: bool)
    returns (err: Option<CheckError>, out: seq<Event>)
    ensures var load := Project.Load(files, decode);
      err.None? <==> load.None? || (load.value.Ok? && clientOk)
    ensures var load := Project.Load(files, decode);
      load.None? ==> Items(out) == NoProjectPlan(skipAuth)
    ensures var load := Project.Load(files, decode);
      load.Some? && load.value.Err? ==> err == Some(LoadFailed(load.value.error)) && out == []
    ensures var load := Project.Load(files, decode);
      load.Some? && load.value.Ok? && !clientOk ==> err == Some(ClientFailed) && out == []
    ensures var load := Project.Load(files, decode);
      load.Some? && load.value.Ok? && clientOk ==>
        Items(out) == ProjectPlan(load.value.value, Project.ProjectFile(files).value, env.goos, skipAuth)
  {
    var path := Project.ProjectFile(files);
    if path.None? {
      out := CheckNoProject(env, skipAuth);
      err := None;
      return;
    }
    var loaded := Project.LoadProjectConfig(files, decode, path.value);
    if loaded.Err? {
      return Some(LoadFailed(loaded.error)), [];
    }
    if !clientOk {
      return Some(ClientFailed), [];
    }
    out := CheckProject(env, loaded.value, path.value, skipAuth);
    err := None;
  }

  /** The branch without a descriptor: the azd block, the two notes, the
      generic tools and the login block. */
  method CheckNoProject(env: Env, skipAuth: bool) returns (out: seq<Event>)
    ensures Items(out) == NoProjectPlan(skipAuth)
  {
    var m := Note("Project File", "Not found (azure.yaml/azure.yml)");
    var n := Note("Project Name", "Unknown");
    out := ProbeSteps(env, AzdTools, []);
    assert [] + StepPlan(AzdTools) == StepPlan(AzdTools);
    out := Show(m, out);
    out := Show(n, out);
    assert Items(out) == StepPlan(AzdTools) + [NoteItem(m), NoteItem(n)];
    out := ProbeSteps(env, GenericTools, out);
    out := CheckAuth(env, skipAuth, out);
  }

  /** The login block. */
  method CheckAuth(env: Env, skipAuth: bool, out: seq<Event>) returns (out': seq<Event>)
    ensures Items(out') == Items(out) + AuthPlan(skipAuth)
  {
    if skipAuth {
      out' := Show(Note("Azd Auth", "Skipped"), out);
    } else {
      out' := ProbeSteps(env, [AzdLogin], out);
      assert StepPlan([AzdLogin]) == AuthPlan(skipAuth);
    }
  }

  /** The infra block. */
  method CheckInfra(env: Env, provider: string, out: seq<Event>) returns (out': seq<Event>)
    ensures Items(out') == Items(out) + InfraPlan(provider)
  {
    if provider == "terraform" {
      out' := ProbeSteps(env, [Terraform], out);
      assert StepPlan([Terraform]) == InfraPlan(provider);
    } else {
      var shown := provider;
      if shown == "" {
        shown := "bicep";
      }
      out' := Show(Note("Provider", shown), out);
    }
  }

  /** The branch with a loaded descriptor and a client, up to the infra
      block. */
  method CheckProjectHead(env: Env, config: Project.AzureYaml, path: string)
    returns (out: seq<Event>)
    ensures Items(out) == ProjectHead(config, path, env.goos)
  {
    var m := Note("Project File", path);
    var n := Note("Project Name", config.name);
    out := ProbeSteps(env, AzdTools, []);
    assert [] + StepPlan(AzdTools) == StepPlan(AzdTools);
    out := Show(m, out);
    out := Show(n, out);
    assert Items(out) == StepPlan(AzdTools) + [NoteItem(m), NoteItem(n)];
    out := ProbeSteps(env, [AzdInit], out);
    out := CheckProjectHooks(env, config.hooks, out);
    out := CheckExtensions(env, config.requiredVersions.extensions, out);
  }

  /** The project hooks block. */
  method CheckProjectHooks(env: Env, hooks: Project.Hooks, out: seq<Event>) returns (out': seq<Event>)
    ensures Items(out') == Items(out) + ProjectHooks(hooks, env.goos)
  {
    out' := out;
    if |hooks| > 0 {
      out' := CheckHooks(env, hooks, out');
    } else {
      assert Items(out') + [] == Items(out');
    }
  }

  /** The extensions block: each required extension probed in map order. */
  method CheckExtensions(env: Env, required: seq<(string, string)>, out: seq<Event>) returns (out': seq<Event>)
    ensures Items(out') == Items(out) + StepPlan(ExtensionTools(required))
  {
    out' := out;
    if |required| > 0 {
      out' := ProbeSteps(env, ExtensionTools(required), out');
    } else {
      assert StepPlan(ExtensionTools(required)) == [];
      assert Items(out') + [] == Items(out');
    }
  }

  /** The branch with a loaded descriptor and a client, after loading. */
  method CheckProject(env: Env, config: Project.AzureYaml, path: string, skipAuth: bool)
    returns (out: seq<Event>)
    ensures Items(out) == ProjectPlan(config, path, env.goos, skipAuth)
  {
    out := CheckProjectHead(env, config, path);
    out := CheckInfra(env, config.infra.provider, out);
    out := CheckServices(env, config.services, out);
    out := CheckAuth(env, skipAuth, out);
  }

  // ---------------------------------------------------------------------------
  // What the whole command probes

  /** The tasks of probing each tool in turn as a fixed step. */
  function Steps(tools: seq<Tool>): (tasks: seq<Task>)
    ensures |tasks| == |tools|
  {
    seq(|tools|, k requires 0 <= k < |tools| => Task(tools[k], Step))
  }

  lemma {:induction false} ProbesStepPlan(tools: seq<Tool>)
    ensures Probes(StepPlan(tools)) == Steps(tools)
    decreases |tools|
  {
    if tools != [] {
      var init := tools[..|tools| - 1];
      ProbesStepPlan(init);
      assert StepPlan(tools)[..|tools| - 1] == StepPlan(init);
    }
  }

  lemma StepsAppend(a: seq<Tool>, b: seq<Tool>)
    ensures Steps(a + b) == Steps(a) + Steps(b)
  {
  }

  /** The probes of four stretches run one after another. */
  lemma ProbesJoin(a: seq<Item>, b: seq<Item>, c: seq<Item>, d: seq<Item>)
    ensures Probes(a + b + c + d) == Probes(a) + Probes(b) + Probes(c) + Probes(d)
  {
    ProbesAppend(a + b + c, d);
    ProbesAppend(a + b, c);
    ProbesAppend(a, b);
  }

  /** Two notes probe nothing. */
  lemma NotesProbeNothing(m: Note, n: Note)
    ensures Probes([NoteItem(m), NoteItem(n)]) == []
  {
    assert [NoteItem(m), NoteItem(n)][..1] == [NoteItem(m)];
  }

  /** Without a descriptor the command probes azd, git, gh, docker, node,
      python, dotnet, bash, pwsh and func, then the login unless it is
      skipped, and nothing else. */
  lemma NoProjectProbes(skipAuth: bool)
    ensures Probes(NoProjectPlan(skipAuth)) ==
      Steps([AzdVersion, Git, Gh, Docker, Node, Python, DotNet, Bash, Pwsh, Func] + if skipAuth then [] else [AzdLogin])
  {
    var m := Note("Project File", "Not found (azure.yaml/azure.yml)");
    var n := Note("Project Name", "Unknown");
    var auth := if skipAuth then [] else [AzdLogin];
    ProbesJoin(StepPlan(AzdTools), [NoteItem(m), NoteItem(n)], StepPlan(GenericTools), AuthPlan(skipAuth));
    NotesProbeNothing(m, n);
    ProbesStepPlan(AzdTools);
    ProbesStepPlan(GenericTools);
    assert Probes(AuthPlan(skipAuth)) == Steps(auth);
    StepsJoin(AzdTools, GenericTools, auth);
    assert AzdTools + GenericTools == [AzdVersion, Git, Gh, Docker, Node, Python, DotNet, Bash, Pwsh, Func];
  }

  /** Without a descriptor, a skipped login is the last thing reported. */
  lemma NoProjectSkippedLast(skipAuth: bool)
    requires skipAuth
    ensures NoProjectPlan(skipAuth)[|NoProjectPlan(skipAuth)| - 1] == NoteItem(Note("Azd Auth", "Skipped"))
  {
    var head := StepPlan(AzdTools)
      + [NoteItem(Note("Project File", "Not found (azure.yaml/azure.yml)")), NoteItem(Note("Project Name", "Unknown"))]
      + StepPlan(GenericTools);
    assert NoProjectPlan(skipAuth) == head + [NoteItem(Note("Azd Auth", "Skipped"))];
  }

  lemma StepsJoin(a: seq<Tool>, b: seq<Tool>, c: seq<Tool>)
    ensures Steps(a) + [] + Steps(b) + Steps(c) == Steps(a + b + c)
  {
  }

  /** Counting over four stretches run one after another. */
  lemma CountJoin(a: seq<Item>, b: seq<Item>, c: seq<Item>, d: seq<Item>, key: Key)
    ensures Count(Probes(a + b + c + d), key) == Count(Probes(a), key) + Count(Probes(b), key) + Count(Probes(c), key) + Count(Probes(d), key)
  {
    ProbesJoin(a, b, c, d);
    CountAppend(Probes(a) + Probes(b) + Probes(c), Probes(d), key);
    CountAppend(Probes(a) + Probes(b), Probes(c), key);
    CountAppend(Probes(a), Probes(b), key);
  }

  /** A key only the service walk can match: a host tool, or a language. */
  predicate ServiceKey(key: Key) {
    (key.OfTool? && HostTool(key.tool)) || (key.OfCause? && key.cause.Language?)
  }

  /** A tool a service's host calls for. */
  predicate HostTool(tool: Tool) {
    tool.Docker? || tool.Func? || tool.Swa?
  }

  lemma StepsUnmatched(tools: seq<Tool>, key: Key)
    requires ServiceKey(key)
    requires forall k :: 0 <= k < |tools| ==> !HostTool(tools[k])
    ensures Count(Probes(StepPlan(tools)), key) == 0
  {
    ProbesStepPlan(tools);
    CountZero(Steps(tools), key);
  }

  /** A service key matches no shell probe. */
  lemma ShellMisses(t: Task, key: Key)
    requires ServiceKey(key) && ShellTask(t)
    ensures !Matches(t, key)
  {
  }

  lemma {:induction false} ShellsUnmatched(plan: seq<Item>, key: Key)
    requires ServiceKey(key) && OnlyShells(plan)
    ensures Count(Probes(plan), key) == 0
    decreases |plan|
  {
    if plan != [] {
      var init := plan[..|plan| - 1];
      var last := plan[|plan| - 1];
      assert OnlyShells(init) by {
        forall k | 0 <= k < |init| && init[k].ProbeItem?
          ensures ShellTask(init[k].task)
        {
          assert init[k] == plan[k];
        }
      }
      ShellsUnmatched(init, key);
      var tail := if last.ProbeItem? then [last.task] else [];
      if last.ProbeItem? {
        ShellMisses(last.task, key);
      }
      CountZero(tail, key);
      CountAppend(Probes(init), tail, key);
    }
  }

  /** A service key matches none of the shell probes a plan adds. */
  lemma ShellsMiss(plan: seq<Item>, key: Key)
    requires ServiceKey(key) && ShellsAreShellTools(plan)
    ensures forall k :: 0 <= k < |plan| && plan[k].ProbeItem? && plan[k].task.cause.Shell? ==> !Matches(plan[k].task, key)
  {
    forall k | 0 <= k < |plan| && plan[k].ProbeItem? && plan[k].task.cause.Shell?
      ensures !Matches(plan[k].task, key)
    {
      ShellMisses(plan[k].task, key);
    }
  }

  /** Five stretches none of which counts the key. */
  lemma QuietJoin(a: seq<Item>, b: seq<Item>, c: seq<Item>, d: seq<Item>, e: seq<Item>, key: Key)
    requires Count(Probes(a), key) == 0 && Count(Probes(b), key) == 0 && Count(Probes(c), key) == 0
    requires Count(Probes(d), key) == 0 && Count(Probes(e), key) == 0
    ensures Count(Probes(a + b + c + d + e), key) == 0
  {
    CountJoin(a + b, c, d, e, key);
    CountJoin(a, b, [], [], key);
    assert a + b + [] + [] == a + b;
  }

  lemma NotesUnmatched(m: Note, n: Note, key: Key)
    ensures Count(Probes([NoteItem(m), NoteItem(n)]), key) == 0
  {
    NotesProbeNothing(m, n);
  }

  lemma ProjectHooksUnmatched(hooks: Project.Hooks, goos: string, key: Key)
    requires ServiceKey(key)
    ensures Count(Probes(ProjectHooks(hooks, goos)), key) == 0
  {
    HookPlanShells(hooks, goos, 0, {});
    ShellsUnmatched(ProjectHooks(hooks, goos), key);
  }

  lemma ExtensionsUnmatched(required: seq<(string, string)>, key: Key)
    requires ServiceKey(key)
    ensures Count(Probes(StepPlan(ExtensionTools(required))), key) == 0
  {
    StepsUnmatched(ExtensionTools(required), key);
  }

  lemma FixedStepsUnmatched(key: Key)
    requires ServiceKey(key)
    ensures Count(Probes(StepPlan(AzdTools)), key) == 0
    ensures Count(Probes(StepPlan([AzdInit])), key) == 0
  {
    StepsUnmatched(AzdTools, key);
    StepsUnmatched([AzdInit], key);
  }

  /** Before the infra block the command probes no host tool and no
      runtime. */
  lemma HeadUnmatched(config: Project.AzureYaml, path: string, goos: string, key: Key)
    requires ServiceKey(key)
    ensures Count(Probes(ProjectHead(config, path, goos)), key) == 0
  {
    FixedStepsUnmatched(key);
    NotesUnmatched(Note("Project File", path), Note("Project Name", config.name), key);
    ProjectHooksUnmatched(config.hooks, goos, key);
    ExtensionsUnmatched(config.requiredVersions.extensions, key);
    QuietJoin(StepPlan(AzdTools), [NoteItem(Note("Project File", path)), NoteItem(Note("Project Name", config.name))],
              StepPlan([AzdInit]), ProjectHooks(config.hooks, goos),
              StepPlan(ExtensionTools(config.requiredVersions.extensions)), key);
  }

  /** The whole plan counts a service key as often as its service walk. */
  lemma PlanCountsServiceWalk(config: Project.AzureYaml, path: string, goos: string, skipAuth: bool, key: Key)
    requires ServiceKey(key)
    ensures Count(Probes(ProjectPlan(config, path, goos, skipAuth)), key) == Count(Probes(CheckServicePlan(config.services, goos)), key)
  {
    var head := ProjectHead(config, path, goos);
    var infra := InfraPlan(config.infra.provider);
    var svc := CheckServicePlan(config.services, goos);
    var auth := AuthPlan(skipAuth);
    HeadUnmatched(config, path, goos, key);
    InfraUnmatched(config.infra.provider, key);
    AuthUnmatched(skipAuth, key);
    OnlyThirdCounts(head, infra, svc, auth, key);
    assert ProjectPlan(config, path, goos, skipAuth) == head + infra + svc + auth;
  }

  /** The infra block matches no service key. */
  lemma InfraUnmatched(provider: string, key: Key)
    requires ServiceKey(key)
    ensures Count(Probes(InfraPlan(provider)), key) == 0
  {
    var probes := Probes(InfraPlan(provider));
    if provider == "terraform" {
      assert probes == [Task(Terraform, Step)];
      CountOne(Task(Terraform, Step), key);
    } else {
      assert probes == [];
    }
  }

  /** The login block matches no service key. */
  lemma AuthUnmatched(skipAuth: bool, key: Key)
    requires ServiceKey(key)
    ensures Count(Probes(AuthPlan(skipAuth)), key) == 0
  {
    if !skipAuth {
      CountOne(Task(AzdLogin, Step), key);
    }
  }

  lemma OnlyThirdCounts(a: seq<Item>, b: seq<Item>, c: seq<Item>, d: seq<Item>, key: Key)
    requires Count(Probes(a), key) == 0 && Count(Probes(b), key) == 0 && Count(Probes(d), key) == 0
    ensures Count(Probes(a + b + c + d), key) == Count(Probes(c), key)
  {
    CountJoin(a, b, c, d, key);
  }

  /** The whole plan counts a service key as often as the gate's walk. */
  lemma PlanCountsGateWalk(config: Project.AzureYaml, path: string, goos: string, skipAuth: bool, key: Key)
    requires ServiceKey(key)
    ensures Count(Probes(ProjectPlan(config, path, goos, skipAuth)), key) == Count(ServicePlan(config.services), key)
  {
    var svc := CheckServicePlan(config.services, goos);
    PlanCountsServiceWalk(config, path, goos, skipAuth, key);
    CheckPlanMatchesGate(config.services, goos);
    ShellsMiss(svc, key);
    CountNoShell(svc, key);
  }

  /** The docker, func and swa probes each run once across the whole
      command if some service needs the tool, and never otherwise: the
      hooks, extensions and infra never probe them. */
  lemma ProjectHostOnce(config: Project.AzureYaml, path: string, goos: string, skipAuth: bool, tool: Tool)
    requires tool in {Docker, Func, Swa}
    ensures Count(Probes(ProjectPlan(config, path, goos, skipAuth)), OfTool(tool)) ==
      if AnyNeeds(config.services, |config.services|, tool) then 1 else 0
  {
    PlanCountsGateWalk(config, path, goos, skipAuth, OfTool(tool));
    ServicePlanHostOnce(config.services, tool);
  }

  /** A language's runtime is probed once across the whole command if some
      service is written in it and it has a runtime, and never otherwise. */
  lemma ProjectLanguageOnce(config: Project.AzureYaml, path: string, goos: string, skipAuth: bool, language: string)
    ensures Count(Probes(ProjectPlan(config, path, goos, skipAuth)), OfCause(Language(language))) ==
      if AnyLanguage(config.services, |config.services|, language) then 1 else 0
  {
    PlanCountsGateWalk(config, path, goos, skipAuth, OfCause(Language(language)));
    ServicePlanLanguageOnce(config.services, language);
  }

  /** For the infrastructure both commands probe terraform for a terraform
      provider; for bicep, which the gate probes, the advisory command only
      prints the provider. */
  lemma InfraVersusGate(provider: string)
    ensures Probes(InfraPlan(provider)) == if Verify.InfraTool(provider) == Some(Terraform) then [Task(Terraform, Step)] else []
    ensures Verify.InfraTool(provider) == Some(Bicep) ==> InfraPlan(provider) == [NoteItem(Note("Provider", "bicep"))]
  {
  }
}
