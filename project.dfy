/**
  The project descriptor of internal/checks/project.go: the azure.yaml
  records the commands consume, the rule that lets a hook be written as
  a plain command or as a mapping, and the loader.

  Every Go map of the descriptor (services, hooks, required extensions)
  is a sequence of (key, value) pairs in the order one `range` over it
  visits them; Go fixes no such order, so whatever is proved about a
  walk over these sequences holds for every order.
 */
module Project {
  import opened Wrappers

  datatype HookConfig = HookConfig(shell: string, run: string)

  type Hooks = seq<(string, HookConfig)>

  /** `docker.remote` of a service. */
  datatype DockerConfig = DockerConfig(remote: bool)

  datatype Service = Service(
    language: string,
    host: string,
    project: string,
    image: string,
    hooks: Hooks,
    docker: DockerConfig)

  datatype Infra = Infra(provider: string)

  /** The azd version range and the extension id -> version range pairs. */
  datatype RequiredVersions = RequiredVersions(azd: string, extensions: seq<(string, string)>)

  datatype AzureYaml = AzureYaml(
    name: string,
    services: seq<(string, Service)>,
    hooks: Hooks,
    infra: Infra,
    requiredVersions: RequiredVersions)

  // ---------------------------------------------------------------------------
  // What the YAML decoder hands over

  /** The YAML node a hook is written as: a scalar, a mapping (with the
      values of its `shell` and `run` keys when present), or anything else. */
  datatype HookNode = ScalarHook(value: string) | MappingHook(shell: Option<string>, run: Option<string>) | OtherHook

  datatype RawService = RawService(
    language: string,
    host: string,
    project: string,
    image: string,
    hooks: seq<(string, HookNode)>,
    docker: DockerConfig)

  /** The document as the decoder reads it, before the hooks are decoded. */
  datatype RawAzureYaml = RawAzureYaml(
    name: string,
    services: seq<(string, RawService)>,
    hooks: seq<(string, HookNode)>,
    infra: Infra,
    requiredVersions: RequiredVersions)

  /** Why a descriptor could not be loaded. */
  datatype LoadError = ReadFailed(path: string) | ParseFailed

  /** What a path holds: nothing (absent from the map), an unreadable entry,
      or a readable file with its text. */
  datatype FileEntry = Unreadable | Readable(text: string)

  type Files = map<string, FileEntry>

  // ---------------------------------------------------------------------------
  // Hooks

  /** HookConfig.UnmarshalYAML: a scalar is the command to run, with no
      shell; a mapping decodes its `shell` and `run` keys, an absent one
      staying empty; any other node is a decoding error. */
  function UnmarshalHook(node: HookNode): (r: Result<HookConfig, LoadError>)
    ensures r.Ok? <==> !node.OtherHook?
    ensures node.ScalarHook? ==> r == Ok(HookConfig("", node.value))
    ensures node.MappingHook? ==> r == Ok(HookConfig(node.shell.GetOr(""), node.run.GetOr("")))
  {
    match node
    case ScalarHook(value) => Ok(HookConfig("", value))
    case MappingHook(shell, run) => Ok(HookConfig(shell.GetOr(""), run.GetOr("")))
    case OtherHook => Err(ParseFailed)
  }

  /** Decodes every hook of a hooks mapping; one bad hook fails them all. */
  function UnmarshalHooks(nodes: seq<(string, HookNode)>): (r: Result<Hooks, LoadError>)
    ensures r.Ok? <==> forall i :: 0 <= i < |nodes| ==> !nodes[i].1.OtherHook?
    ensures r.Ok? ==> |r.value| == |nodes|
    ensures r.Ok? ==> forall i :: 0 <= i < |nodes| ==>
      r.value[i].0 == nodes[i].0 && Ok(r.value[i].1) == UnmarshalHook(nodes[i].1)
  {
    if nodes == [] then Ok([])
    else
      match UnmarshalHook(nodes[0].1)
      case Err(e) => Err(e)
      case Ok(h) =>
        match UnmarshalHooks(nodes[1..])
        case Err(e) => Err(e)
        case Ok(rest) => Ok([(nodes[0].0, h)] + rest)
  }

  function UnmarshalServices(raw: seq<(string, RawService)>): (r: Result<seq<(string, Service)>, LoadError>)
    ensures r.Ok? ==> |r.value| == |raw|
    ensures r.Ok? ==> forall i :: 0 <= i < |raw| ==> ServiceFrom(raw[i], r.value[i])
    ensures r.Err? ==> exists i :: 0 <= i < |raw| && UnmarshalHooks(raw[i].1.hooks).Err?
  {
    if raw == [] then Ok([])
    else
      var s := raw[0].1;
      match UnmarshalHooks(s.hooks)
      case Err(e) => Err(e)
      case Ok(hooks) =>
        match UnmarshalServices(raw[1..])
        case Err(e) =>
          assert exists i :: 0 <= i < |raw[1..]| && UnmarshalHooks(raw[1..][i].1.hooks).Err?;
          var i :| 0 <= i < |raw[1..]| && UnmarshalHooks(raw[1..][i].1.hooks).Err?;
          assert UnmarshalHooks(raw[i + 1].1.hooks).Err?;
          Err(e)
        case Ok(rest) =>
          Ok([(raw[0].0, Service(s.language, s.host, s.project, s.image, hooks, s.docker))] + rest)
  }

  /** A decoded service keeps its key and every field of the raw one, and
      its hooks are the raw hooks decoded. */
  predicate ServiceFrom(raw: (string, RawService), svc: (string, Service)) {
    && svc.0 == raw.0
    && svc.1.language == raw.1.language && svc.1.host == raw.1.host
    && svc.1.project == raw.1.project && svc.1.image == raw.1.image
    && svc.1.docker == raw.1.docker
    && UnmarshalHooks(raw.1.hooks) == Ok(svc.1.hooks)
  }

  // ---------------------------------------------------------------------------
  // Loading

  /** LoadProjectConfig: a file that cannot be read is a read error; text the
      decoder rejects, or a hook it cannot decode, is a parse error; otherwise
      the descriptor carries the decoded fields verbatim. */
  function LoadProjectConfig(files: Files, decode: string -> Option<RawAzureYaml>, path: string): (r: Result<AzureYaml, LoadError>)
    ensures (path !in files || files[path].Unreadable?) ==> r == Err(ReadFailed(path))
    ensures path in files && files[path].Readable? && decode(files[path].text).None? ==> r == Err(ParseFailed)
    ensures r.Ok? ==>
      && path in files && files[path].Readable? && decode(files[path].text).Some?
      && var raw := decode(files[path].text).value;
      && r.value.name == raw.name
      && r.value.infra == raw.infra
      && r.value.requiredVersions == raw.requiredVersions
      && UnmarshalHooks(raw.hooks) == Ok(r.value.hooks)
      && |r.value.services| == |raw.services|
      && (forall i :: 0 <= i < |raw.services| ==> ServiceFrom(raw.services[i], r.value.services[i]))
  {
    if path !in files || files[path].Unreadable? then Err(ReadFailed(path))
    else
      match decode(files[path].text)
      case None => Err(ParseFailed)
      case Some(raw) =>
        match (UnmarshalHooks(raw.hooks), UnmarshalServices(raw.services))
        case (Ok(hooks), Ok(services)) => Ok(AzureYaml(raw.name, services, hooks, raw.infra, raw.requiredVersions))
        case _ => Err(ParseFailed)
  }

  /** The descriptor the commands use: azure.yaml when it exists, otherwise
      azure.yml when that exists. */
  function ProjectFile(files: Files): (r: Option<string>)
    ensures r.Some? ==> r.value in files && (r.value == "azure.yaml" || r.value == "azure.yml")
    ensures r.None? <==> "azure.yaml" !in files && "azure.yml" !in files
    ensures "azure.yaml" in files ==> r == Some("azure.yaml")
  {
    if "azure.yaml" in files then Some("azure.yaml")
    else if "azure.yml" in files then Some("azure.yml")
    else None
  }

  /** The project file a command loads, if there is one, and what loading
      it gives. */
  function Load(files: Files, decode: string -> Option<RawAzureYaml>): (r: Option<Result<AzureYaml, LoadError>>)
    ensures r.None? <==> "azure.yaml" !in files && "azure.yml" !in files
    ensures r.Some? ==> r.value == LoadProjectConfig(files, decode, ProjectFile(files).value)
  {
    match ProjectFile(files)
    case None => None
    case Some(path) => Some(LoadProjectConfig(files, decode, path))
  }

  /** A hook written either way yields the same command to run. This is a
      one-step consequence of UnmarshalHook's contract, stated so that the
      equivalence of the two YAML forms is on record. */
  lemma HookFormsAgree(command: string)
    ensures UnmarshalHook(ScalarHook(command)) == UnmarshalHook(MappingHook(None, Some(command)))
  {
  }
}
