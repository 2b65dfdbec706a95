/**
  The azd probes of internal/checks/azd.go: the CLI version, the login
  status and whether the working directory holds an initialised project.
 */
module Azd {
  import opened Wrappers
  import opened Text
  import opened Checks

  const LoginArgs: seq<string> := ["auth", "login", "--check-status"]

  /** CheckAzdVersion: `azd version` (not `--version`), classified as
      CheckTool classifies it. */
  function CheckAzdVersion(r: Runner): (p: Probed)
    ensures p.calls == [Output("azd", ["version"])] && p.result.name == "azd"
    ensures p.result.installed <==> r.output("azd", ["version"]).ok
    ensures !p.result.installed ==> p.result.error == Some(CommandFailed("azd", ["version"]))
  {
    CheckTool(r, "azd", ["version"])
  }

  /** CheckAzdLogin: one `azd auth login --check-status` call. The tool is
      always reported installed; the login holds exactly when the call
      succeeds; the version is the trimmed output, or a fixed text when the
      output is blank, so it is never empty. */
  function CheckAzdLogin(r: Runner): (p: Probed)
    ensures p.calls == [Output("azd", LoginArgs)]
    ensures p.result.name == "azd auth" && p.result.installed && !p.result.hasDaemon
    ensures p.result.running <==> r.output("azd", LoginArgs).ok
    ensures p.result.error.None? <==> r.output("azd", LoginArgs).ok
    ensures p.result.version != []
    ensures TrimSpace(r.output("azd", LoginArgs).stdout) != [] ==>
      p.result.version == TrimSpace(r.output("azd", LoginArgs).stdout)
    ensures TrimSpace(r.output("azd", LoginArgs).stdout) == [] ==>
      p.result.version == if r.output("azd", LoginArgs).ok then "Logged in" else "Not logged in"
  {
    var reply := r.output("azd", LoginArgs);
    var outputStr := TrimSpace(reply.stdout);
    if !reply.ok then
      var msg := if |outputStr| > 0 then outputStr else "Not logged in";
      Probed(CheckResult("azd auth", true, msg, false, false, Some(NotLoggedIn(CommandFailed("azd", LoginArgs)))),
             [Output("azd", LoginArgs)])
    else
      var version := if outputStr == "" then "Logged in" else outputStr;
      Probed(CheckResult("azd auth", true, version, true, false, None), [Output("azd", LoginArgs)])
  }

  /** The project service's answer to `Get`: an error, a response with no
      project, or a project with its name. */
  datatype ProjectReply = QueryFailed(message: string) | NoProject | Project(name: string)

  /** CheckAzdInit: the project counts as initialised exactly when the query
      returns a project; the version then names it. No runner call is made. */
  function CheckAzdInit(reply: ProjectReply): (p: Probed)
    ensures p.calls == [] && p.result.name == "azd project" && !p.result.hasDaemon
    ensures p.result.installed <==> reply.Project?
    ensures p.result.running <==> reply.Project?
    ensures p.result.error.None? <==> reply.Project?
    ensures reply.Project? ==> p.result.version == "Initialized (" + reply.name + ")"
  {
    match reply
    case QueryFailed(message) =>
      Probed(CheckResult("azd project", false, "", false, false, Some(ProjectNotInitialized(message))), [])
    case NoProject =>
      Probed(CheckResult("azd project", false, "", false, false, Some(NoProjectReturned)), [])
    case Project(name) =>
      Probed(CheckResult("azd project", true, "Initialized (" + name + ")", true, false, None), [])
  }
}
