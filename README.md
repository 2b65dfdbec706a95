# azd-ext-doctor, modelled in Dafny

azd-ext-doctor is an extension of the Azure Developer CLI (azd). It has three
commands:

- `check` prints the health of the tools a project needs.
- `verify` is the gate azd runs before `up`, `provision` and `deploy`. It
  fails at the first required tool that is missing or broken.
- `configure remote-build` turns on `docker.remoteBuild` for every
  container-hosted service of `azure.yaml`.

A release script, `update_registry.py`, writes fresh artifact checksums into
the extension registry.

This project models the core of those pieces and proves what they promise.
The modules are:

- `Checks` (checks.dfy) and `Azd` (azd.dfy): the tool probes. The command
  runner is an oracle value, so every probe is a function of the runner's
  answers and returns the runner calls it made.
- `SemVer` (semver.dfy): the version text, precedence and comparator ranges
  that the extension probe checks installed versions against. It follows
  Semantic Versioning 2.0.0 as the blang/semver library reads it.
- `Project` (project.dfy): the `azure.yaml` records, the hook decoding rule
  and the loader. Files are a map from path to contents; the YAML decoder is
  a parameter.
- `Tools` (tools.dfy): the probe dispatch shared by both commands, and the
  service walk that both commands run. The walk is written once as a plan of
  tasks, and the lemmas say how often each tool is probed.
- `Verify` (verify.dfy): the `verify` gate as a method that returns its probe
  trace. Every probe of the trace is what its tool answers in the environment
  (the runner, the OS, the installed extensions). The trace runs in step order,
  probes each host tool and each language runtime at most once, and ends at
  the first probe that fails its requirement, with that probe's error. A step
  is complete before the next one begins: all required extensions are probed
  before the infrastructure tool, and the infrastructure tool before any
  service tool.
- `Verdict` (verdict.dfy): what the gate's verdict says about the machine. A
  run that passes found every required extension, host tool and language
  runtime ready. A run that fails stops at a requirement the environment does
  not meet, and every requirement of the earlier steps was met: a run that
  reached the infrastructure or service step found every required extension
  ready, and one that reached the service step found the infrastructure tool
  ready.
- `Check` (check.dfy): the `check` command as a method that returns its event
  trace, with `checkHooks` and the `printResult` classification.
- `Configure` (configure.dfy): `enableRemoteBuildInNodes` and
  `ensureRemoteBuild` over YAML nodes, including the paths where the Go code
  indexes past the end of a node's content.
- `Registry` (registry.dfy): `update_registry` of the release script, on the
  checksums file's lines and the registry document.
- `Text` (text.dfy) and `Wrappers` (wrappers.dfy): string helpers (Go's
  `TrimSpace`, `strings.Split`, Python's `strip()` and `split()`) and `Option`
  / `Result`.

Go maps (services, hooks, required extensions) are sequences of key/value
pairs in the order one `range` visits them. Go fixes no order, so every
result about a walk holds for every order.

Where two parts of the code disagree, the model follows each as written:

- `check` and `verify` both call `CheckExtension(name, version)`
  (internal/cmd/check.go:105, internal/cmd/verify.go:146). The function takes
  the installed-extension list as its first parameter, before the id and the
  range (internal/checks/checks.go:299). The model follows checks.go:299.
- `configure` writes the key `docker.remoteBuild`
  (internal/cmd/configure.go:168-184). The loader reads `docker.remote`
  (internal/checks/project.go:37). Both are modelled as written.

## Model

| member | source | states |
|---|---|---|
| Checks.CheckTool | internal/checks/checks.go:72-78 | one `Output` call; installed exactly when the command succeeds, with the trimmed output as the version; otherwise not installed with the command's error |
| Checks.CheckNode | internal/checks/checks.go:147-149 | one `node --version` call; installed exactly when it succeeds |
| Checks.CheckDotNet | internal/checks/checks.go:192-194 | one `dotnet --version` call; installed exactly when it succeeds |
| Checks.CheckAzureFunctionsCoreTools | internal/checks/checks.go:261-263 | one `func --version` call; installed exactly when it succeeds |
| Checks.CheckSwaCli | internal/checks/checks.go:265-267 | one `swa --version` call; installed exactly when it succeeds |
| Checks.CheckGit | internal/checks/checks.go:269-271 | one `git --version` call; installed exactly when it succeeds |
| Checks.CheckGh | internal/checks/checks.go:273-275 | one `gh --version` call; installed exactly when it succeeds |
| Checks.CheckTerraform | internal/checks/checks.go:277-279 | one `terraform --version` call; installed exactly when it succeeds |
| Checks.RuntimeOrder | internal/checks/checks.go:92-111 | docker is tried before podman on every OS |
| Checks.TryRuntime | internal/checks/checks.go:113-138 | one container runtime asked for `--version`, then `info` only when it answered; installed exactly when `--version` succeeds, with the trimmed output as version, the daemon flag set, and running exactly when `info` succeeds, otherwise the runtime's own not-running error |
| Checks.CheckDockerWithOS | internal/checks/checks.go:85-145 | podman is asked only when docker fails; installed exactly when either answers; the first that answers decides the name, version and daemon state; neither answering is the "neither" error (stated for every OS as DockerAnswer) |
| Checks.PythonOrder | internal/checks/checks.go:159-172 | `python` first on windows, `python3` first elsewhere |
| Checks.CheckPythonWithOS | internal/checks/checks.go:156-190 | the second command is tried only when the first fails; installed exactly when one answers, reporting the one that did; otherwise named "python" with the failure of the last command tried (stated as PythonAnswer) |
| Checks.CheckBashWithOS | internal/checks/checks.go:201-219 | every OS branch probes `bash --version` once and nothing else |
| Checks.PwshOrder | internal/checks/checks.go:229-242 | `pwsh` first; the `powershell` fallback exists only off darwin and linux |
| Checks.CheckPwshWithOS | internal/checks/checks.go:226-259 | `powershell` is asked only when pwsh fails and the OS has the fallback; installed exactly when one answers; otherwise named "pwsh/powershell" with the failure of the last command tried (stated as PwshAnswer) |
| Checks.FirstWithId | internal/checks/checks.go:302-308 | the position of the first listed extension with the id, and no earlier one has it; None exactly when none has it |
| Checks.CheckExtension | internal/checks/checks.go:299-329 | missing: not installed; with a range: an unreadable installed version, then an unreadable range, then an unsatisfied range are errors, in that order; running exactly when there is no error (stated as ExtensionAnswer) |
| Azd.CheckAzdVersion | internal/checks/azd.go:30-32 | `azd version` (not `--version`); installed exactly when it succeeds |
| Azd.CheckAzdLogin | internal/checks/azd.go:34-52 | always installed; running and error-free exactly when `azd auth login --check-status` succeeds; the version is the trimmed output or a fixed text |
| Azd.CheckAzdInit | internal/checks/azd.go:54-66 | initialised exactly when the project query returns a project, with "Initialized (name)" as the version |
| SemVer.ParseNumberOfDecimal | internal/checks/checks.go:315-316 | a number up to 2^64-1 written in decimal parses back to itself |
| SemVer.ParseFormat | internal/checks/checks.go:315-316 | every well-formed version prints to text that parses back to it |
| SemVer.FormatParse | internal/checks/checks.go:315-316 | every text that parses is well formed and prints back to the same text |
| SemVer.CompareAntisymmetric | internal/checks/checks.go:323 | swapping the versions negates the precedence comparison |
| SemVer.CompareZero | internal/checks/checks.go:323 | two versions compare equal exactly when they agree apart from build metadata |
| SemVer.CompareTransitive | internal/checks/checks.go:323 | precedence is transitive |
| SemVer.SatisfiesIgnoresBuild | internal/checks/checks.go:323 | build metadata never decides whether a version satisfies a range |
| Project.UnmarshalHook | internal/checks/project.go:48-58 | decoding succeeds exactly for a scalar or a mapping; a scalar is the command with no shell; a mapping takes its `shell` and `run` keys, empty when absent |
| Project.UnmarshalHooks | internal/checks/project.go:48-58 | succeeds exactly when every hook is a scalar or a mapping; keeps each key with its decoded hook |
| Project.UnmarshalServices | internal/checks/project.go:10-45 | each decoded service keeps its key and raw fields, with its hooks decoded; it fails only when some service has a hook that does not decode |
| Project.LoadProjectConfig | internal/checks/project.go:60-72 | a missing or unreadable file is a read error; rejected text is a parse error; a loaded descriptor carries the decoded name, services, hooks, infra and version requirements |
| Project.ProjectFile | internal/cmd/verify.go:129-136 | `azure.yaml` when it exists, otherwise `azure.yml`; None exactly when neither exists |
| Project.HookFormsAgree | internal/checks/project.go:48-58 | a hook written as a plain command and as a mapping with only `run` decode alike |
| Tools.Perform | internal/checks/checks.go:72-329 | the probe of a tool is what the environment answers it: the fixed single-command probes, the container runtime, python and PowerShell fallbacks, and the extension lookup |
| Tools.PerformOnto | internal/cmd/verify.go:91-225 | appending a probe keeps every probe of the trace an answer of the environment |
| Tools.RuntimeFor | internal/cmd/verify.go:175-192 | js/ts need node, py/python need python, csharp/fsharp/dotnet need dotnet; no other language needs a runtime |
| Tools.LanguageVisit | internal/cmd/verify.go:175-192 | a service's runtime is probed exactly when its language is new and has a runtime; the language is then marked as seen |
| Tools.HostVisit | internal/cmd/verify.go:195-225 | a host tool is probed exactly when the service needs it and it has not been probed yet; it is then marked |
| Tools.ServicePlanHostOnce | internal/cmd/verify.go:168-227 | a whole service walk probes docker, func and swa once each if some service needs it, and never otherwise |
| Tools.ServicePlanLanguageOnce | internal/cmd/verify.go:168-227 | a whole service walk probes a language's runtime once if some service is written in it and it has a runtime, and never otherwise |
| Tools.RemainingServiceTools | internal/cmd/verify.go:168-227 | the service walk probes nothing but runtimes and host tools |
| Verify.RequireCheck | internal/cmd/verify.go:233-248 | passes exactly when installed, error-free and, for a daemon tool, running; otherwise not found, then the probe's error, then daemon down, in that order |
| Verify.Gate | internal/cmd/verify.go:121-126 | the login passes exactly when the login probe records no error, and fails with that error; every other probe goes through requireCheck |
| Verify.RequireCheckTool | internal/cmd/verify.go:233-248 | a tool probed with CheckTool passes exactly when its command answers |
| Verify.LoginGate | internal/cmd/verify.go:121-126 | the login gate passes exactly when `azd auth login --check-status` succeeds |
| Verify.DaemonBranchShadowed | internal/cmd/verify.go:241-245 | when a probe records an error for a stopped daemon, requireCheck never reaches its daemon branch |
| Verify.Contains | internal/cmd/verify.go:250-258 | true exactly when some comma-separated part, trimmed, equals the name |
| Verify.ListedNames | internal/cmd/verify.go:250-258 | for names joined by commas, a name is listed exactly when it is one of them |
| Verify.EffectiveTarget | internal/cmd/verify.go:58-73 | predeploy, preprovision and preup select deploy, provision and up; otherwise the given target, or up when it is empty |
| Verify.InfraTool | internal/cmd/verify.go:153-165 | an empty or bicep provider needs bicep; terraform needs terraform; any other provider needs nothing |
| Verify.VerifyExtensions | internal/cmd/verify.go:144-150 | probes the required extensions in map order, each with its range, and stops at the first that fails; each probe answers the environment |
| Verify.VerifyInfra | internal/cmd/verify.go:153-165 | probes the provider's tool once when it has one, and nothing otherwise; the probe answers the environment |
| Verify.VerifyServices | internal/cmd/verify.go:168-227 | a run that passes probes exactly the service plan; one that fails probes a prefix of it and stops at the failing probe; each probe answers the environment |
| Verify.VerifyTargetTools | internal/cmd/verify.go:152-227 | the infrastructure tool for provision and up, then the service walk for deploy and up only when the infrastructure step passed; the infrastructure probe was made whenever the walk began |
| Verify.VerifySteps | internal/cmd/verify.go:143-227 | the required extensions first; the target's tools only after every required extension was probed and passed |
| Verify.ResolveTarget | internal/cmd/verify.go:47-82 | the target is skipped exactly when the bypass variable is a global skip value or lists the target |
| Verify.RunVerify | internal/cmd/verify.go:41-231 | skipped exactly when bypassed; rejects an invalid target before any probe; otherwise azd, git and the login come first; a missing or unloadable project file is reported after those pass; every probe answers the environment, and the trace ends at the first probe that fails its requirement; the extension step is complete once a later step began, and the infrastructure step once the service step began |
| Verify.RequireStep | internal/cmd/verify.go:194-225 | one fixed-step probe is appended to a passing trace, answers the environment, and the walk stops exactly when it fails its requirement |
| Verify.GateOrdered | internal/cmd/verify.go:91-227 | the gate's probes run in step order: azd, git, login, extensions, infrastructure, services |
| Verify.GateHostToolOnce | internal/cmd/verify.go:195-225 | docker, func and swa are probed at most once each, never for provision, and, for deploy or up when the gate passes, exactly when some service needs the tool |
| Verify.GateLanguageOnce | internal/cmd/verify.go:175-192 | a language's runtime is probed at most once, and, for deploy or up when the gate passes, exactly when some service is written in it |
| Verdict.DockerGate | internal/checks/checks.go:85-145 | the container-runtime requirement passes exactly when the runtime that answers has a running daemon; a stopped docker or podman daemon and a missing runtime fail with their own errors |
| Verdict.ExtensionGate | internal/checks/checks.go:299-329 | an extension requirement passes exactly when the extension is installed and, for a range, its version satisfies it; a missing one is a missing tool |
| Verdict.CommandGate | internal/cmd/verify.go:233-248 | a single-command requirement passes exactly when its command answers, and is otherwise a missing tool under the command's name |
| Verdict.PythonGate | internal/checks/checks.go:156-190 | the python requirement passes exactly when either python command answers |
| Verdict.GateStopsAtFirstFailure | internal/cmd/verify.go:91-227 | every probe of a run answers the environment, and a probe that fails its requirement is the last one, with the run's error |
| Verdict.GateCommon | internal/cmd/verify.go:91-126 | git missing after azd answers fails with git not found after two probes; a failed login after both fails the auth check after three; the run gets past the first three steps exactly when all three answer |
| Verdict.GatePassedExtensions | internal/cmd/verify.go:144-150 | a run that passes found every required extension installed and in range |
| Verdict.GatePassedHostTools | internal/cmd/verify.go:195-225 | a deploy or up run that passes found docker (or podman) running, func and swa answering, whenever some service needs them |
| Verdict.GatePastExtensions | internal/cmd/verify.go:143-165 | a run that reached the infrastructure or service step, passing or failing, found every required extension installed and in range |
| Verdict.GatePastInfra | internal/cmd/verify.go:152-168 | a provision or up run that reached the service step found its infrastructure tool ready: bicep's probe passes or terraform answers |
| Verdict.GatePassedRuntimes | internal/cmd/verify.go:175-192 | a deploy or up run that passes found the runtime of every language some service is written in answering |
| Check.Report | internal/cmd/check.go:243-256 | an installed tool is a success line, plus a daemon line only for a daemon tool that succeeds exactly when running; a missing tool is one failure line |
| Check.ReportIgnoresError | internal/cmd/check.go:243-256 | the printed lines do not depend on the error a probe recorded |
| Check.ReportShowsFailedLoginAsDone | internal/cmd/check.go:243-256 | a failed login, which the gate rejects, is printed as a single success line |
| Check.ReportChecked | internal/cmd/check.go:243-256 | the corrected classification: an installed tool with a recorded error is a failure line |
| Check.ReportCheckedAgreesWithGate | internal/cmd/verify.go:233-248 | the corrected report is all success lines exactly when requireCheck passes |
| Check.ReportCheckedKeepsClean | internal/cmd/check.go:243-256 | the correction changes nothing for a result without an error |
| Check.ResolveShell | internal/cmd/check.go:218-226 | a hook's own shell, or pwsh on windows and sh elsewhere |
| Check.ShellTool | internal/cmd/check.go:230-237 | sh and bash select the bash probe; pwsh and powershell select the PowerShell probe; any other shell is only noted |
| Check.HookPlanShells | internal/cmd/check.go:214-241 | checkHooks probes nothing but shells |
| Check.HookShellOnce | internal/cmd/check.go:214-241 | within one call a shell is probed once if it is known and some hook runs under it, and never otherwise |
| Check.CheckHooks | internal/cmd/check.go:214-241 | the hooks in map order, each new shell probed or noted once per call |
| Check.VisitShellOnce | internal/cmd/check.go:146-149 | each service checks its hooks' shells afresh, whatever earlier services probed |
| Check.CheckPlanMatchesGate | internal/cmd/check.go:124-177 | without its shell probes and notes, the service walk of `check` probes exactly what the gate's walk probes |
| Check.CheckServices | internal/cmd/check.go:124-177 | the services in map order, with the seen languages and probed tools kept across services |
| Check.InfraPlan | internal/cmd/check.go:110-121 | a terraform provider is probed; any other provider is only noted, as bicep when empty |
| Check.AuthPlan | internal/cmd/check.go:180-188 | the login is probed unless auth is skipped, in which case it is noted |
| Check.RunCheck | internal/cmd/check.go:23-191 | no descriptor: azd tools, notes, generic tools, login; a load or client error fails with nothing printed; otherwise the project plan; no probe result fails the command |
| Check.CheckNoProject | internal/cmd/check.go:29-61 | without a descriptor the command reports the azd tools, the two notes, the generic tools, then the login or its skip note |
| Check.NoProjectProbes | internal/cmd/check.go:27-62 | without a descriptor the command probes azd, git, gh, then docker, node, python, dotnet, bash, pwsh, func, then the login unless skipped |
| Check.NoProjectSkippedLast | internal/cmd/check.go:53-55 | without a descriptor, a skipped login is reported as a note and is the last thing reported |
| Check.ProjectHostOnce | internal/cmd/check.go:124-177 | across the whole command docker, func and swa are each probed once if some service needs it, and never otherwise |
| Check.ProjectLanguageOnce | internal/cmd/check.go:124-177 | across the whole command a runtime is probed once if some service is written in that language, and never otherwise |
| Check.InfraVersusGate | internal/cmd/check.go:110-121 | both commands probe terraform for a terraform provider; for bicep `check` only notes it |
| Configure.FindFrom | internal/cmd/configure.go:149-154 | a key is absent exactly when no key position matches it; a match at the last item dangles; otherwise the first matching key and its value |
| Configure.EvenNeverDangles | internal/cmd/configure.go:149-154 | a mapping with whole pairs never has a dangling match |
| Configure.FindKey | internal/cmd/configure.go:149-154 | the lookup loop finds what FindFrom specifies |
| Configure.HostFrom | internal/cmd/configure.go:122-132 | a service is a container service exactly when some `host` key has the value `containerapp` or `aks` |
| Configure.IsContainerService | internal/cmd/configure.go:122-132 | the host loop computes IsContainer, including the panic on a dangling key |
| Configure.EnsureRemoteBuild | internal/cmd/configure.go:145-185 | the method computes Ensure, including the panic on a dangling key |
| Configure.EnsureReportsChange | internal/cmd/configure.go:145-185 | reports a change exactly when the service node differs afterwards |
| Configure.EnsureKeepsOthers | internal/cmd/configure.go:156-184 | a missing docker pair is appended; a missing remoteBuild pair is appended; an existing remoteBuild value only becomes "true"; every other entry is kept |
| Configure.EnsureTurnsOn | internal/cmd/configure.go:145-185 | afterwards `docker.remoteBuild` is "true", the node stays well paired, and whether it is a container service is unchanged |
| Configure.EnsureSettled | internal/cmd/configure.go:168-171 | a service whose remoteBuild is already "true" is left as it is and reported unchanged |
| Configure.EnsureIdempotent | internal/cmd/configure.go:145-185 | running it again on its own result changes nothing |
| Configure.Enable | internal/cmd/configure.go:86-143 | not a document is an error; an empty document is unchanged; a non-mapping top level is an error; without `services` nothing changes |
| Configure.RewriteServices | internal/cmd/configure.go:114-142 | the services loop computes RewriteFrom |
| Configure.EnableRemoteBuildInNodes | internal/cmd/configure.go:86-143 | the method computes Enable |
| Configure.RewriteShape | internal/cmd/configure.go:114-142 | keys are kept; each container service is rewritten by Ensure; every other service is kept |
| Configure.RewriteReportsChange | internal/cmd/configure.go:114-142 | the loop reports an update exactly when some service changed |
| Configure.EnableRewrites | internal/cmd/configure.go:86-143 | the document changes only in its container services, and reports an update exactly when it changed |
| Configure.EnableIdempotent | internal/cmd/configure.go:86-143 | a second run over well-formed services finds nothing to change |
| Configure.EnableGuarded | internal/cmd/configure.go:105-126 | with bounds checks the rewrite never panics, and agrees with the code wherever the code does not panic |
| Configure.OddServicesPanics | internal/cmd/configure.go:116-119 | `services: [web]` makes the code read past the end of the content; the bounds-checked version leaves it unchanged |
| Registry.ChecksumsNames | scripts/update_registry.py:7-12 | a file name has a checksum exactly when some line has exactly two fields naming it |
| Registry.LastLineWins | scripts/update_registry.py:11-12 | when a name is recorded twice, the last line's checksum wins |
| Registry.ReadChecksums | scripts/update_registry.py:7-12 | the reading loop builds the specified checksum map |
| Registry.ChecksumLineRecorded | scripts/update_registry.py:10-12 | a `sha256sum` line, checksum then two spaces then name, records that checksum for that name |
| Registry.UpdateArtifact | scripts/update_registry.py:25-32 | fails exactly when the url is missing, or the checksum is missing where one is due; otherwise the checksum value is set exactly when the file name is listed, and it reports an update exactly then |
| Registry.UpdateArtifacts | scripts/update_registry.py:24-32 | every artifact refreshed in order; fails exactly when some artifact does; updates exactly when some artifact matches |
| Registry.UpdateVersion | scripts/update_registry.py:22-32 | only the version entry equal to the target is touched; one without a `version` key fails |
| Registry.UpdateVersions | scripts/update_registry.py:21-32 | every version entry refreshed; fails exactly when one does |
| Registry.UpdateExtensions | scripts/update_registry.py:20-32 | every extension refreshed; fails exactly when one does |
| Registry.UpdateRegistry | scripts/update_registry.py:5-40 | a missing key aborts; otherwise the registry is written exactly when some artifact of the target version was updated, and what is written is the refreshed registry |
| Registry.UpdateIdempotent | scripts/update_registry.py:5-40 | running the update on the written registry writes the same registry again |
| Registry.RefreshArtifacts | scripts/update_registry.py:24-32 | the artifacts loop computes UpdateArtifacts |
| Registry.RefreshVersion | scripts/update_registry.py:22-32 | one pass of the versions loop computes UpdateVersion: an entry without a version stops the run, another version is kept as it is, the matching one has its artifacts refreshed |
| Registry.RefreshVersions | scripts/update_registry.py:21-32 | the versions loop computes UpdateVersions |
| Registry.RefreshExtensions | scripts/update_registry.py:20-32 | the extensions loop computes UpdateExtensions |
| Registry.RunUpdateRegistry | scripts/update_registry.py:5-40 | the script's function computes UpdateRegistry |

## Left out

- The command runner, process execution, timeouts and contexts: the runner is an oracle from a command and its arguments to its output and success (internal/checks/checks.go:27-61).
- GetInstalledExtensions (internal/checks/checks.go:287-297): the installed-extension list is a parameter, because it comes from running `azd extension list`.
- The bicep probe is not part of this model (its source is not among the core files); its result is a parameter of the environment.
- The semver range grammar: the parser from range text to comparators is a parameter; what a parsed range means is modelled.
- Printing, colours, headings and the print helpers of internal/cmd/check.go:258-291: the `check` trace records notes and probe results; which lines print is modelled by Check.Report.
- runGenericChecks (internal/cmd/check.go:200-212): nothing calls it.
- The azd client creation (internal/cmd/check.go:73-76): its failure is a boolean parameter.
- The command wiring of internal/cmd/extension.go and root.go: this is context only.
- runConfigureRemoteBuild (internal/cmd/configure.go:34-84): this is file reading and writing plus YAML decoding and encoding around enableRemoteBuildInNodes.
- yaml.Node and the registry's dictionaries are updated in place in the source; the model works on values, so aliasing between nodes is not captured.
- JSON members of the registry that the script neither reads nor writes are not modelled. Non-string JSON values are not modelled. A missing list read with `.get` is not told apart from an empty one.
- update_registry's prints, its file I/O, and the `__main__` argument check (scripts/update_registry.py:42-47): the checksums file is its lines, and the registry is its parsed document.
- Tools.PerformTask: promises only the tool and cause of the probe it runs, because the commands' traces depend only on those and on the pass/fail requirement.

## Findings

| source | as written | input that shows it | evidently intended | confidence | as-written member | corrected member |
|---|---|---|---|---|---|---|
| internal/cmd/check.go:243-256 | printResult looks only at Installed, HasDaemon and Running, never at Error | a failed `azd auth login --check-status`: CheckAzdLogin reports it installed with an error, `check` prints a success line, and `verify` fails on it | an installed tool with a recorded error is shown as a failure, as the gate treats it | not executed | Check.ReportShowsFailedLoginAsDone | Check.ReportChecked |
| internal/cmd/configure.go:119 | reads Content[i+1] with no bound check (so do lines 105, 126, 151 and 170) | `services: [web]`: the services node has one item, so the loop reads index 1 of a one-item content | an item with no value is skipped | not executed | Configure.OddServicesPanics | Configure.EnableGuarded |
