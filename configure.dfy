/**
  `configure remote-build` of internal/cmd/configure.go: the rewrite of a
  parsed azure.yaml node tree that turns on `docker.remoteBuild` for every
  service hosted on containerapp or aks.

  A node is a value here: kind, tag, scalar value and children. A mapping
  keeps its keys and values interleaved in `content`, which the source
  walks two by two; a key whose value would lie past the end makes the
  source index out of range, and the model returns `Panicked` there.

  Every rewrite function takes `guarded`: false is the code as written,
  true the same code with each such read guarded by a bounds test.
 */
module Configure {
  import opened Wrappers

  datatype Kind = DocumentNode | SequenceNode | MappingNode | ScalarNode | AliasNode

  datatype Node = Node(kind: Kind, tag: string, value: string, content: seq<Node>)

  /** Why the rewrite refuses a tree. */
  datatype ConfigureError = NotDocument | TopNotMapping

  /** The rewritten tree and whether anything changed, a refused tree, or
      an index out of range. */
  datatype Enabled = Enabled(root: Node, updated: bool) | Failed(error: ConfigureError) | Panicked

  function Scalar(value: string): Node {
    Node(ScalarNode, "", value, [])
  }

  /** The value node the rewrite writes: `true`, tagged as a boolean. */
  const TrueNode: Node := Node(ScalarNode, "!!bool", "true", [])

  /** The pair the rewrite appends to a docker mapping. */
  const RemoteBuildPair: seq<Node> := [Scalar("remoteBuild"), TrueNode]

  /** The pair the rewrite appends to a service without docker settings. */
  const DockerPair: seq<Node> := [Scalar("docker"), Node(MappingNode, "", "", RemoteBuildPair)]

  // ---------------------------------------------------------------------------
  // Looking up a key

  /** Where the first key with a given text sits among the even positions
      of a content list: nowhere, at an index with its value after it, or
      at the last position with no value. */
  datatype Lookup = Absent | At(index: nat) | Dangling

  /** Every even position from i up to (not including) j holds another key. */
  predicate KeysDifferBetween(content: seq<Node>, key: string, i: nat, j: nat) {
    forall k :: i <= k < j && k < |content| && k % 2 == i % 2 ==> content[k].value != key
  }

  /** The search of the key loops, from even position i on. */
  function FindFrom(content: seq<Node>, key: string, i: nat): (r: Lookup)
    requires i % 2 == 0
    ensures r.Absent? <==> KeysDifferBetween(content, key, i, |content|)
    ensures r.At? ==>
      && i <= r.index && r.index % 2 == 0 && r.index + 1 < |content|
      && content[r.index].value == key && KeysDifferBetween(content, key, i, r.index)
    ensures r.Dangling? ==>
      && (|content| - i) % 2 == 1 && i <= |content| - 1
      && content[|content| - 1].value == key && KeysDifferBetween(content, key, i, |content| - 1)
    decreases |content| - i
  {
    if i >= |content| then Absent
    else if content[i].value == key then
      if i + 1 < |content| then At(i) else Dangling
    else FindFrom(content, key, i + 2)
  }

  function Find(content: seq<Node>, key: string): (r: Lookup) {
    FindFrom(content, key, 0)
  }

  /** A content list with an even number of entries has no dangling key.
      It follows from FindFrom's contract in one step; the proofs that the
      rewrite turns remote builds on rely on it for well-paired mappings. */
  lemma EvenNeverDangles(content: seq<Node>, key: string)
    requires |content| % 2 == 0
    ensures !Find(content, key).Dangling?
  {
  }

  /** The key loop: even positions two by two, stopping at the first match. */
  method FindKey(content: seq<Node>, key: string) returns (r: Lookup)
    ensures r == Find(content, key)
  {
    var i := 0;
    while i < |content|
      invariant i % 2 == 0 && FindFrom(content, key, i) == Find(content, key)
      decreases |content| - i
    {
      if content[i].value == key {
        if i + 1 < |content| {
          return At(i);
        }
        return Dangling;
      }
      i := i + 2;
    }
    return Absent;
  }

  // ---------------------------------------------------------------------------
  // Is the service a container service?

  /** The host loop from even position j on: a `host` key whose value is
      containerapp or aks makes the service a container service; a `host`
      key with another value does not stop the search. None is a `host`
      key in the last position, whose value the loop reads out of range. */
  function HostFrom(content: seq<Node>, j: nat, guarded: bool): (r: Option<bool>)
    requires j % 2 == 0
    ensures r == Some(true) <==> exists k :: j <= k && k + 1 < |content| && k % 2 == 0 && ContainerHostAt(content, k)
    decreases |content| - j
  {
    if j >= |content| then Some(false)
    else if content[j].value == "host" then
      if j + 1 >= |content| then (if guarded then Some(false) else None)
      else if content[j + 1].value == "containerapp" || content[j + 1].value == "aks" then
        assert ContainerHostAt(content, j);
        Some(true)
      else HostFrom(content, j + 2, guarded)
    else HostFrom(content, j + 2, guarded)
  }

  /** Position k holds a `host` key whose value is containerapp or aks. */
  predicate ContainerHostAt(content: seq<Node>, k: nat)
    requires k + 1 < |content|
  {
    content[k].value == "host" && (content[k + 1].value == "containerapp" || content[k + 1].value == "aks")
  }

  function IsContainer(props: Node, guarded: bool): Option<bool> {
    HostFrom(props.content, 0, guarded)
  }

  /** The host loop of the service walk. */
  method IsContainerService(props: Node) returns (r: Option<bool>)
    ensures r == IsContainer(props, false)
  {
    var content := props.content;
    var j := 0;
    while j < |content|
      invariant j % 2 == 0 && HostFrom(content, j, false) == IsContainer(props, false)
      decreases |content| - j
    {
      if content[j].value == "host" {
        if j + 1 >= |content| {
          return None;
        }
        if content[j + 1].value == "containerapp" || content[j + 1].value == "aks" {
          return Some(true);
        }
      }
      j := j + 2;
    }
    return Some(false);
  }

  // ---------------------------------------------------------------------------
  // ensureRemoteBuild

  /** ensureRemoteBuild on one service's settings: the new settings and
      whether they changed, or None for an index out of range. Without a
      `docker` key the docker pair is appended; a docker mapping without
      `remoteBuild` gets the remoteBuild pair appended; a `remoteBuild`
      value other than "true" is overwritten with "true". */
  function Ensure(props: Node, guarded: bool): (r: Option<(Node, bool)>)
  {
    var l := Find(props.content, "docker");
    if l.Dangling? && !guarded then None
    else if !l.At? then Some((props.(content := props.content + DockerPair), true))
    else
      var d := props.content[l.index + 1];
      var m := Find(d.content, "remoteBuild");
      if m.Dangling? && !guarded then None
      else if !m.At? then
        Some((props.(content := props.content[l.index + 1 := d.(content := d.content + RemoteBuildPair)]), true))
      else if d.content[m.index + 1].value == "true" then Some((props, false))
      else
        var v := d.content[m.index + 1].(value := "true");
        Some((props.(content := props.content[l.index + 1 := d.(content := d.content[m.index + 1 := v])]), true))
  }

  method EnsureRemoteBuild(props: Node) returns (r: Option<(Node, bool)>)
    ensures r == Ensure(props, false)
  {
    var l := FindKey(props.content, "docker");
    if l.Dangling? {
      return None;
    }
    if l.Absent? {
      return Some((props.(content := props.content + DockerPair), true));
    }
    var dockerNode := props.content[l.index + 1];
    var m := FindKey(dockerNode.content, "remoteBuild");
    if m.Dangling? {
      return None;
    }
    if m.Absent? {
      var d := dockerNode.(content := dockerNode.content + RemoteBuildPair);
      return Some((props.(content := props.content[l.index + 1 := d]), true));
    }
    if dockerNode.content[m.index + 1].value == "true" {
      return Some((props, false));
    }
    var v := dockerNode.content[m.index + 1].(value := "true");
    var d := dockerNode.(content := dockerNode.content[m.index + 1 := v]);
    return Some((props.(content := props.content[l.index + 1 := d]), true));
  }

  // ---------------------------------------------------------------------------
  // enableRemoteBuildInNodes

  /** The service loop from even position i on, over the services content
      as rewritten so far, with the updated flag so far. The value after
      each key is a service's settings; a key with no value after it is an
      index out of range. */
  function RewriteFrom(content: seq<Node>, i: nat, updated: bool, guarded: bool): (r: Option<(seq<Node>, bool)>)
    requires i % 2 == 0
    decreases |content| - i
  {
    if i >= |content| then Some((content, updated))
    else if i + 1 >= |content| then (if guarded then Some((content, updated)) else None)
    else
      match IsContainer(content[i + 1], guarded)
      case None => None
      case Some(false) => RewriteFrom(content, i + 2, updated, guarded)
      case Some(true) =>
        match Ensure(content[i + 1], guarded)
        case None => None
        case Some((props, changed)) => RewriteFrom(content[i + 1 := props], i + 2, updated || changed, guarded)
  }

  /** enableRemoteBuildInNodes: a root that is not a document is refused, an
      empty document is left alone, a top node that is not a mapping is
      refused, a document without a `services` key is left alone; otherwise
      the services are rewritten in place. */
  function Enable(root: Node, guarded: bool): (r: Enabled)
    ensures root.kind != DocumentNode ==> r == Failed(NotDocument)
    ensures root.kind == DocumentNode && |root.content| == 0 ==> r == Enabled(root, false)
    ensures root.kind == DocumentNode && |root.content| > 0 && root.content[0].kind != MappingNode ==> r == Failed(TopNotMapping)
    ensures (root.kind == DocumentNode && |root.content| > 0 && root.content[0].kind == MappingNode &&
             Find(root.content[0].content, "services").Absent?) ==> r == Enabled(root, false)
  {
    if root.kind != DocumentNode then Failed(NotDocument)
    else if |root.content| == 0 then Enabled(root, false)
    else
      var top := root.content[0];
      if top.kind != MappingNode then Failed(TopNotMapping)
      else
        match Find(top.content, "services")
        case Absent => Enabled(root, false)
        case Dangling => if guarded then Enabled(root, false) else Panicked
        case At(i) =>
          var services := top.content[i + 1];
          match RewriteFrom(services.content, 0, false, guarded)
          case None => Panicked
          case Some((content, updated)) =>
            Enabled(Replace(root, i, services.(content := content)), updated)
  }

  /** The document with the value of its i-th top-level entry replaced. */
  function Replace(root: Node, i: nat, services: Node): Node
    requires |root.content| > 0 && i + 1 < |root.content[0].content|
  {
    var top := root.content[0];
    root.(content := root.content[0 := top.(content := top.content[i + 1 := services])])
  }

  /** The service loop as the source writes it. */
  method RewriteServices(content: seq<Node>) returns (r: Option<(seq<Node>, bool)>)
    ensures r == RewriteFrom(content, 0, false, false)
  {
    var services := content;
    var updated := false;
    var i := 0;
    while i < |services|
      invariant i % 2 == 0 && RewriteFrom(services, i, updated, false) == RewriteFrom(content, 0, false, false)
      decreases |services| - i
    {
      if i + 1 >= |services| {
        return None;
      }
      var serviceProps := services[i + 1];
      var isContainer := IsContainerService(serviceProps);
      if isContainer.None? {
        return None;
      }
      if isContainer.value {
        var ensured := EnsureRemoteBuild(serviceProps);
        if ensured.None? {
          return None;
        }
        services := services[i + 1 := ensured.value.0];
        if ensured.value.1 {
          updated := true;
        }
      }
      i := i + 2;
    }
    return Some((services, updated));
  }

  method EnableRemoteBuildInNodes(root: Node) returns (r: Enabled)
    ensures r == Enable(root, false)
  {
    if root.kind != DocumentNode {
      return Failed(NotDocument);
    }
    if |root.content| == 0 {
      return Enabled(root, false);
    }
    var topMap := root.content[0];
    if topMap.kind != MappingNode {
      return Failed(TopNotMapping);
    }
    var found := FindKey(topMap.content, "services");
    if found.Absent? {
      return Enabled(root, false);
    }
    if found.Dangling? {
      return Panicked;
    }
    var servicesNode := topMap.content[found.index + 1];
    var rewritten := RewriteServices(servicesNode.content);
    if rewritten.None? {
      return Panicked;
    }
    return Enabled(Replace(root, found.index, servicesNode.(content := rewritten.value.0)), rewritten.value.1);
  }

  // ---------------------------------------------------------------------------
  // What a rewrite changes

  /** A content list the source can walk two by two to the end. */
  predicate Paired(n: Node) {
    |n.content| % 2 == 0
  }

  /** The position after a key holds its value. */
  lemma OddAfter(i: nat)
    requires i % 2 == 0
    ensures (i + 1) % 2 == 1
  {
  }

  /** Replacing a value (an odd position) leaves every key lookup alone. */
  lemma {:induction false} FindReplaceValue(c: seq<Node>, key: string, i: nat, j: nat, x: Node)
    requires i % 2 == 0 && j % 2 == 1 && j < |c|
    ensures FindFrom(c[j := x], key, i) == FindFrom(c, key, i)
    decreases |c| - i
  {
    if i < |c| && c[i].value != key {
      FindReplaceValue(c, key, i + 2, j, x);
    }
  }

  /** Appending a pair to an even list finds the new key only where the old
      list had none. */
  lemma {:induction false} FindAppendPair(c: seq<Node>, key: string, i: nat, a: Node, b: Node)
    requires i % 2 == 0 && |c| % 2 == 0 && i <= |c|
    ensures FindFrom(c + [a, b], key, i) ==
      if FindFrom(c, key, i).Absent? then (if a.value == key then At(|c|) else Absent) else FindFrom(c, key, i)
    decreases |c| - i
  {
    var c' := c + [a, b];
    if i < |c| {
      assert c'[i] == c[i];
      if c[i].value != key {
        FindAppendPair(c, key, i + 2, a, b);
      }
    } else {
      assert c'[i] == a;
      if a.value != key {
        assert FindFrom(c', key, i + 2) == Absent;
      }
    }
  }

  /** Replacing a value that does not belong to a `host` key leaves the host
      loop alone. */
  lemma {:induction false} HostReplaceValue(c: seq<Node>, i: nat, j: nat, x: Node, guarded: bool)
    requires i % 2 == 0 && j % 2 == 1 && j < |c| && c[j - 1].value != "host"
    ensures HostFrom(c[j := x], i, guarded) == HostFrom(c, i, guarded)
    decreases |c| - i
  {
    if i < |c| {
      HostReplaceValue(c, i + 2, j, x, guarded);
    }
  }

  /** Appending a pair whose key is not `host` to an even list leaves the
      host loop alone. */
  lemma {:induction false} HostAppendPair(c: seq<Node>, i: nat, a: Node, b: Node, guarded: bool)
    requires i % 2 == 0 && |c| % 2 == 0 && i <= |c| && a.value != "host"
    ensures HostFrom(c + [a, b], i, guarded) == HostFrom(c, i, guarded)
    decreases |c| - i
  {
    var c' := c + [a, b];
    if i < |c| {
      assert c'[i] == c[i] && c'[i + 1] == c[i + 1];
      HostAppendPair(c, i + 2, a, b, guarded);
    } else {
      assert c'[i] == a;
      assert HostFrom(c', i + 2, guarded) == Some(false);
    }
  }

  /** ensureRemoteBuild reports a change exactly when it changed the
      settings. */
  lemma EnsureReportsChange(props: Node, guarded: bool)
    requires Ensure(props, guarded).Some?
    ensures Ensure(props, guarded).value.1 <==> Ensure(props, guarded).value.0 != props
  {
    var l := Find(props.content, "docker");
    var r := Ensure(props, guarded).value.0;
    if !l.At? {
      assert |r.content| == |props.content| + 2;
    } else {
      var d := props.content[l.index + 1];
      var m := Find(d.content, "remoteBuild");
      if !m.At? {
        assert |r.content[l.index + 1].content| == |d.content| + 2;
      } else if d.content[m.index + 1].value != "true" {
        assert r.content[l.index + 1].content[m.index + 1].value == "true";
      }
    }
  }

  /** Every entry of `before` but the one at `except` is still in place in
      `after`, which may be longer. */
  predicate KeepsEntries(before: seq<Node>, after: seq<Node>, except: nat) {
    |before| <= |after| && forall k :: 0 <= k < |before| && k != except ==> after[k] == before[k]
  }

  /** ensureRemoteBuild changes nothing but the docker entry: a missing
      docker pair is appended after the existing entries, a missing
      remoteBuild pair after the docker mapping's entries, and an existing
      remoteBuild value only has its text set to "true". */
  lemma EnsureKeepsOthers(props: Node, guarded: bool)
    requires Ensure(props, guarded).Some?
    ensures var r := Ensure(props, guarded).value.0;
      && r.kind == props.kind && r.tag == props.tag && r.value == props.value
      && var l := Find(props.content, "docker");
      && (!l.At? ==> r.content[..|props.content|] == props.content && r.content[|props.content|..] == DockerPair)
      && (l.At? ==>
            && |r.content| == |props.content| && KeepsEntries(props.content, r.content, l.index + 1)
            && var d := props.content[l.index + 1];
            && var d' := r.content[l.index + 1];
            && d'.kind == d.kind && d'.tag == d.tag && d'.value == d.value
            && var m := Find(d.content, "remoteBuild");
            && (!m.At? ==> d'.content[..|d.content|] == d.content && d'.content[|d.content|..] == RemoteBuildPair)
            && (m.At? ==>
                  && |d'.content| == |d.content| && KeepsEntries(d.content, d'.content, m.index + 1)
                  && d'.content[m.index + 1] == d.content[m.index + 1].(value := "true")))
  {
    if Find(props.content, "docker").At? {
      EnsureInDocker(props, guarded);
    } else {
      EnsureNewDocker(props, guarded);
    }
  }

  /** Without a docker entry, the pair is appended after the others. */
  lemma EnsureNewDocker(props: Node, guarded: bool)
    requires Ensure(props, guarded).Some? && !Find(props.content, "docker").At?
    ensures var r := Ensure(props, guarded).value.0;
      && r.kind == props.kind && r.tag == props.tag && r.value == props.value
      && r.content[..|props.content|] == props.content && r.content[|props.content|..] == DockerPair
  {
    var r := Ensure(props, guarded).value.0;
    assert r.content == props.content + DockerPair;
  }

  /** With a docker entry, only its value changes, and inside it only the
      remoteBuild value, or a pair appended after its entries. */
  lemma EnsureInDocker(props: Node, guarded: bool)
    requires Ensure(props, guarded).Some? && Find(props.content, "docker").At?
    ensures var r := Ensure(props, guarded).value.0;
      && r.kind == props.kind && r.tag == props.tag && r.value == props.value
      && var l := Find(props.content, "docker");
      && |r.content| == |props.content| && KeepsEntries(props.content, r.content, l.index + 1)
      && var d := props.content[l.index + 1];
      && var d' := r.content[l.index + 1];
      && d'.kind == d.kind && d'.tag == d.tag && d'.value == d.value
      && var m := Find(d.content, "remoteBuild");
      && (!m.At? ==> d'.content[..|d.content|] == d.content && d'.content[|d.content|..] == RemoteBuildPair)
      && (m.At? ==>
            && |d'.content| == |d.content| && KeepsEntries(d.content, d'.content, m.index + 1)
            && d'.content[m.index + 1] == d.content[m.index + 1].(value := "true"))
  {
    var l := Find(props.content, "docker");
    var r := Ensure(props, guarded).value.0;
    var d := props.content[l.index + 1];
    var m := Find(d.content, "remoteBuild");
    if !m.At? {
      assert r.content[l.index + 1].content == d.content + RemoteBuildPair;
    }
  }

  /** The settings of a service whose docker mapping has `remoteBuild: true`. */
  predicate RemoteBuildOn(props: Node) {
    var l := Find(props.content, "docker");
    && l.At?
    && var d := props.content[l.index + 1];
    && var m := Find(d.content, "remoteBuild");
    && m.At? && d.content[m.index + 1].value == "true"
  }

  /** A service's settings the source walks two by two, down to its docker
      mapping. */
  predicate ServiceShaped(props: Node) {
    && Paired(props)
    && var l := Find(props.content, "docker");
    && (l.At? ==> Paired(props.content[l.index + 1]))
  }

  /** On well-paired settings ensureRemoteBuild turns remoteBuild on, keeps
      the settings well paired and keeps the host loop's answer. */
  lemma EnsureTurnsOn(props: Node)
    requires ServiceShaped(props) && Ensure(props, false).Some?
    ensures var r := Ensure(props, false).value.0;
      RemoteBuildOn(r) && ServiceShaped(r) && IsContainer(r, false) == IsContainer(props, false)
  {
    EvenNeverDangles(props.content, "docker");
    if Find(props.content, "docker").Absent? {
      AppendDockerTurnsOn(props);
    } else {
      DockerTurnsOn(props);
    }
  }

  lemma AppendDockerTurnsOn(props: Node)
    requires Paired(props) && Find(props.content, "docker").Absent?
    ensures var r := props.(content := props.content + DockerPair);
      RemoteBuildOn(r) && ServiceShaped(r) && IsContainer(r, false) == IsContainer(props, false)
  {
    var r := props.(content := props.content + DockerPair);
    assert r.content == props.content + [DockerPair[0], DockerPair[1]];
    FindAppendPair(props.content, "docker", 0, DockerPair[0], DockerPair[1]);
    HostAppendPair(props.content, 0, DockerPair[0], DockerPair[1], false);
    assert r.content[|props.content| + 1].content == RemoteBuildPair;
  }

  lemma DockerTurnsOn(props: Node)
    requires ServiceShaped(props) && Find(props.content, "docker").At?
    ensures Ensure(props, false).Some?
    ensures var r := Ensure(props, false).value.0;
      RemoteBuildOn(r) && ServiceShaped(r) && IsContainer(r, false) == IsContainer(props, false)
  {
    var l := Find(props.content, "docker");
    var d := props.content[l.index + 1];
    var m := Find(d.content, "remoteBuild");
    EvenNeverDangles(d.content, "remoteBuild");
    var d' := if m.Absent? then d.(content := d.content + RemoteBuildPair)
      else d.(content := d.content[m.index + 1 := d.content[m.index + 1].(value := "true")]);
    DockerValueTurnsOn(d);
    if !(m.At? && d.content[m.index + 1].value == "true") {
      var r := props.(content := props.content[l.index + 1 := d']);
      EnsureRewritesDocker(props);
      DockerValueReplaced(props, d');
    }
  }

  /** Rewriting the docker value leaves the docker lookup and the host loop
      alone. */
  lemma DockerValueReplaced(props: Node, x: Node)
    requires Find(props.content, "docker").At?
    ensures var l := Find(props.content, "docker");
      var r := props.(content := props.content[l.index + 1 := x]);
      Find(r.content, "docker") == l && r.content[l.index + 1] == x && IsContainer(r, false) == IsContainer(props, false)
  {
    var j := Find(props.content, "docker").index + 1;
    OddAfter(j - 1);
    assert props.content[j - 1].value == "docker";
    FindReplaceValue(props.content, "docker", 0, j, x);
    HostReplaceValue(props.content, 0, j, x, false);
  }

  /** With a docker entry whose remoteBuild is not already on, only the
      docker value is rewritten. */
  lemma EnsureRewritesDocker(props: Node)
    requires Find(props.content, "docker").At?
    requires var d := props.content[Find(props.content, "docker").index + 1];
      var m := Find(d.content, "remoteBuild");
      !m.Dangling? && !(m.At? && d.content[m.index + 1].value == "true")
    ensures var l := Find(props.content, "docker");
      var d := props.content[l.index + 1];
      var m := Find(d.content, "remoteBuild");
      var d' := if m.Absent? then d.(content := d.content + RemoteBuildPair)
        else d.(content := d.content[m.index + 1 := d.content[m.index + 1].(value := "true")]);
      Ensure(props, false) == Some((props.(content := props.content[l.index + 1 := d']), true))
  {
  }

  /** The docker mapping after the rewrite has remoteBuild on and stays
      well paired. */
  lemma DockerValueTurnsOn(d: Node)
    requires Paired(d)
    ensures var m := Find(d.content, "remoteBuild");
      var d' := if m.Absent? then d.(content := d.content + RemoteBuildPair)
        else if m.At? then d.(content := d.content[m.index + 1 := d.content[m.index + 1].(value := "true")])
        else d;
      && Paired(d')
      && var m' := Find(d'.content, "remoteBuild");
      && m'.At? && d'.content[m'.index + 1].value == "true"
  {
    var m := Find(d.content, "remoteBuild");
    EvenNeverDangles(d.content, "remoteBuild");
    if m.Absent? {
      assert d.content + RemoteBuildPair == d.content + [RemoteBuildPair[0], RemoteBuildPair[1]];
      FindAppendPair(d.content, "remoteBuild", 0, RemoteBuildPair[0], RemoteBuildPair[1]);
    } else {
      FindReplaceValue(d.content, "remoteBuild", 0, m.index + 1, d.content[m.index + 1].(value := "true"));
    }
  }

  /** Settings with remoteBuild on are left alone. */
  lemma EnsureSettled(props: Node, guarded: bool)
    requires RemoteBuildOn(props)
    ensures Ensure(props, guarded) == Some((props, false))
  {
  }

  /** ensureRemoteBuild is idempotent on well-paired settings: a second call
      changes nothing and reports no change. */
  lemma EnsureIdempotent(props: Node)
    requires ServiceShaped(props) && Ensure(props, false).Some?
    ensures var r := Ensure(props, false).value.0; Ensure(r, false) == Some((r, false))
  {
    EnsureTurnsOn(props);
    EnsureSettled(Ensure(props, false).value.0, false);
  }

  // ---------------------------------------------------------------------------
  // What the service walk changes

  /** A service's settings after the walk: a container service's settings
      are what ensureRemoteBuild makes of them, any other service's are left
      as they were; a host loop that reads out of range admits no result. */
  predicate ServiceRewritten(before: Node, after: Node, guarded: bool) {
    match IsContainer(before, guarded)
    case None => false
    case Some(false) => after == before
    case Some(true) => Ensure(before, guarded).Some? && after == Ensure(before, guarded).value.0
  }

  /** The services content after the walk from position i on: the same
      length, every key and every entry before i kept, every service from i
      on rewritten as ServiceRewritten says. */
  predicate ContentRewritten(content: seq<Node>, content': seq<Node>, i: nat, guarded: bool) {
    && |content'| == |content|
    && (forall k :: 0 <= k < |content| && (k < i || k % 2 == 0) ==> content'[k] == content[k])
    && (forall k :: i <= k < |content| && k % 2 == 1 ==> ServiceRewritten(content[k], content'[k], guarded))
  }

  /** The service walk rewrites the services one by one and, as written,
      succeeds only on a content list of even length. */
  lemma {:induction false} RewriteShape(content: seq<Node>, i: nat, updated: bool, guarded: bool)
    requires i % 2 == 0 && RewriteFrom(content, i, updated, guarded).Some?
    ensures ContentRewritten(content, RewriteFrom(content, i, updated, guarded).value.0, i, guarded)
    ensures !guarded && i <= |content| ==> |content| % 2 == 0
    decreases |content| - i, 1
  {
    if i + 1 < |content| {
      if IsContainer(content[i + 1], guarded) == Some(true) {
        ContainerShape(content, i, updated, guarded);
      } else {
        KeptShape(content, i, updated, guarded);
      }
    }
  }

  /** RewriteShape when the service at i + 1 is a container service. */
  lemma {:induction false} ContainerShape(content: seq<Node>, i: nat, updated: bool, guarded: bool)
    requires i % 2 == 0 && i + 1 < |content| && IsContainer(content[i + 1], guarded) == Some(true)
    requires RewriteFrom(content, i, updated, guarded).Some?
    ensures ContentRewritten(content, RewriteFrom(content, i, updated, guarded).value.0, i, guarded)
    ensures !guarded ==> |content| % 2 == 0
    decreases |content| - i, 0
  {
    var next := content[i + 1];
    var (props, changed) := Ensure(next, guarded).value;
    var c := content[i + 1 := props];
    var r := RewriteFrom(c, i + 2, updated || changed, guarded);
    assert RewriteFrom(content, i, updated, guarded) == r;
    RewriteShape(c, i + 2, updated || changed, guarded);
    ContainerRewritten(next, guarded);
    RewrittenStep(content, props, r.value.0, i, guarded);
  }

  /** RewriteShape when the service at i + 1 is kept as it is. */
  lemma {:induction false} KeptShape(content: seq<Node>, i: nat, updated: bool, guarded: bool)
    requires i % 2 == 0 && i + 1 < |content| && IsContainer(content[i + 1], guarded) != Some(true)
    requires RewriteFrom(content, i, updated, guarded).Some?
    ensures ContentRewritten(content, RewriteFrom(content, i, updated, guarded).value.0, i, guarded)
    ensures !guarded ==> |content| % 2 == 0
    decreases |content| - i, 0
  {
    var next := content[i + 1];
    var r := RewriteFrom(content, i + 2, updated, guarded);
    assert RewriteFrom(content, i, updated, guarded) == r;
    RewriteShape(content, i + 2, updated, guarded);
    assert content[i + 1 := next] == content;
    ContainerRewritten(next, guarded);
    RewrittenStep(content, next, r.value.0, i, guarded);
  }

  /** A container service is rewritten by Ensure, any other service the walk
      accepts is kept. */
  lemma ContainerRewritten(next: Node, guarded: bool)
    ensures IsContainer(next, guarded) == Some(true) && Ensure(next, guarded).Some? ==>
      ServiceRewritten(next, Ensure(next, guarded).value.0, guarded)
    ensures IsContainer(next, guarded) == Some(false) ==> ServiceRewritten(next, next, guarded)
  {
  }

  /** One step of the walk: rewriting position i + 1 and then the rest is
      rewriting from position i. */
  lemma RewrittenStep(content: seq<Node>, props: Node, content': seq<Node>, i: nat, guarded: bool)
    requires i % 2 == 0 && i + 1 < |content| && ServiceRewritten(content[i + 1], props, guarded)
    requires ContentRewritten(content[i + 1 := props], content', i + 2, guarded)
    ensures ContentRewritten(content, content', i, guarded)
  {
    forall k | i <= k < |content| && k % 2 == 1
      ensures ServiceRewritten(content[k], content'[k], guarded)
    {
      if k == i + 1 {
        assert content'[k] == props;
      }
    }
  }

  /** The walk from i on keeps the length and the entry at k < i. */
  lemma RewriteKeeps(content: seq<Node>, i: nat, updated: bool, guarded: bool, k: nat)
    requires i % 2 == 0 && RewriteFrom(content, i, updated, guarded).Some? && k < i && k < |content|
    ensures var content' := RewriteFrom(content, i, updated, guarded).value.0;
      |content'| == |content| && content'[k] == content[k]
  {
    RewriteShape(content, i, updated, guarded);
  }

  /** A list that agrees with `content` updated at k differs from `content`
      exactly when the update changed the entry or the list differs from the
      updated one. */
  lemma ChangedAt<T>(content: seq<T>, content': seq<T>, k: nat, x: T)
    requires k < |content| && |content'| == |content| && content'[k] == x
    ensures (x != content[k] || content' != content[k := x]) <==> content' != content
  {
    if x != content[k] {
      assert content'[k] != content[k];
    }
  }

  /** The service walk reports an update exactly when the content changed. */
  lemma {:induction false} RewriteReportsChange(content: seq<Node>, i: nat, updated: bool, guarded: bool)
    requires i % 2 == 0 && RewriteFrom(content, i, updated, guarded).Some?
    ensures var (content', updated') := RewriteFrom(content, i, updated, guarded).value;
      updated' <==> updated || content' != content
    decreases |content| - i, 1
  {
    if i + 1 < |content| {
      if IsContainer(content[i + 1], guarded) == Some(true) {
        ContainerReportsChange(content, i, updated, guarded);
      } else {
        assert RewriteFrom(content, i, updated, guarded) == RewriteFrom(content, i + 2, updated, guarded);
        RewriteReportsChange(content, i + 2, updated, guarded);
      }
    }
  }

  /** RewriteReportsChange when the service at i + 1 is a container service. */
  lemma {:induction false} ContainerReportsChange(content: seq<Node>, i: nat, updated: bool, guarded: bool)
    requires i % 2 == 0 && i + 1 < |content| && IsContainer(content[i + 1], guarded) == Some(true)
    requires RewriteFrom(content, i, updated, guarded).Some?
    ensures var (content', updated') := RewriteFrom(content, i, updated, guarded).value;
      updated' <==> updated || content' != content
    decreases |content| - i, 0
  {
    var next := content[i + 1];
    var (props, changed) := Ensure(next, guarded).value;
    var c := content[i + 1 := props];
    var r := RewriteFrom(c, i + 2, updated || changed, guarded);
    assert RewriteFrom(content, i, updated, guarded) == r;
    EnsureReportsChange(next, guarded);
    RewriteReportsChange(c, i + 2, updated || changed, guarded);
    RewriteKeeps(c, i + 2, updated || changed, guarded, i + 1);
    ChangedAt(content, r.value.0, i + 1, props);
  }

  /** The rewritten document: the document with the value of its `services`
      key rewritten service by service and nothing else changed. */
  predicate DocumentRewritten(root: Node, root': Node, guarded: bool) {
    && root.kind == DocumentNode
    && (|root.content| == 0 ==> root' == root)
    && (|root.content| > 0 ==>
          && root.content[0].kind == MappingNode
          && var top := root.content[0];
          && match Find(top.content, "services")
             case At(i) =>
               && |root'.content| > 0 && |root'.content[0].content| == |top.content|
               && var services' := root'.content[0].content[i + 1];
               && root' == Replace(root, i, services')
               && services' == top.content[i + 1].(content := services'.content)
               && ContentRewritten(top.content[i + 1].content, services'.content, 0, guarded)
             case _ => root' == root)
  }

  /** enableRemoteBuildInNodes touches nothing but the container services'
      settings, and reports an update exactly when the document changed. */
  lemma EnableRewrites(root: Node, guarded: bool)
    requires Enable(root, guarded).Enabled?
    ensures DocumentRewritten(root, Enable(root, guarded).root, guarded)
    ensures Enable(root, guarded).updated <==> Enable(root, guarded).root != root
  {
    if |root.content| > 0 {
      var top := root.content[0];
      var l := Find(top.content, "services");
      if l.At? {
        var services := top.content[l.index + 1];
        RewriteShape(services.content, 0, false, guarded);
        RewriteReportsChange(services.content, 0, false, guarded);
        var (content', updated) := RewriteFrom(services.content, 0, false, guarded).value;
        var root' := Replace(root, l.index, services.(content := content'));
        assert Enable(root, guarded) == Enabled(root', updated);
        if content' == services.content {
          ReplaceSame(root, l.index);
        } else {
          assert root'.content[0].content[l.index + 1] != top.content[l.index + 1];
        }
      }
    }
  }

  /** Writing back the value a top-level entry already has gives the same
      document. */
  lemma ReplaceSame(root: Node, i: nat)
    requires |root.content| > 0 && i + 1 < |root.content[0].content|
    ensures Replace(root, i, root.content[0].content[i + 1]) == root
  {
    var top := root.content[0];
    assert top.content[i + 1 := top.content[i + 1]] == top.content;
    assert root.content[0 := top] == root.content;
  }

  // ---------------------------------------------------------------------------
  // A second run changes nothing

  /** Every service in a document is settings the walk can read two by two. */
  predicate ServicesShaped(root: Node) {
    |root.content| > 0 ==>
      var top := root.content[0];
      var l := Find(top.content, "services");
      l.At? ==>
        var services := top.content[l.index + 1].content;
        forall k :: 0 <= k < |services| && k % 2 == 1 ==> ServiceShaped(services[k])
  }

  /** A service the walk has rewritten is left alone by a second walk. */
  lemma ServiceSettled(before: Node, after: Node)
    requires ServiceShaped(before) && ServiceRewritten(before, after, false)
    ensures IsContainer(after, false) == IsContainer(before, false)
    ensures IsContainer(before, false) == Some(true) ==> Ensure(after, false) == Some((after, false))
  {
    if IsContainer(before, false) == Some(true) {
      EnsureTurnsOn(before);
      EnsureSettled(after, false);
    }
  }

  /** Walking an already rewritten services list changes nothing. */
  lemma {:induction false} RewriteSettled(content: seq<Node>, content': seq<Node>, i: nat)
    requires i % 2 == 0 && |content| % 2 == 0 && ContentRewritten(content, content', 0, false)
    requires forall k :: 0 <= k < |content| && k % 2 == 1 ==> ServiceShaped(content[k])
    ensures RewriteFrom(content', i, false, false) == Some((content', false))
    decreases |content| - i
  {
    if i < |content| {
      ServiceSettled(content[i + 1], content'[i + 1]);
      assert content'[i + 1 := content'[i + 1]] == content';
      RewriteSettled(content, content', i + 2);
    }
  }

  /** enableRemoteBuildInNodes is idempotent on documents whose services it
      can read two by two: run again on its output, it changes nothing and
      reports no update. */
  lemma EnableIdempotent(root: Node)
    requires Enable(root, false).Enabled? && ServicesShaped(root)
    ensures var root' := Enable(root, false).root; Enable(root', false) == Enabled(root', false)
  {
    var root' := Enable(root, false).root;
    if |root.content| > 0 {
      var top := root.content[0];
      var l := Find(top.content, "services");
      if l.At? {
        var i := l.index;
        OddAfter(i);
        var services := top.content[i + 1];
        RewriteShape(services.content, 0, false, false);
        var content' := RewriteFrom(services.content, 0, false, false).value.0;
        var services' := services.(content := content');
        assert root' == Replace(root, i, services');
        ReplaceTwice(root, i, services');
        FindReplaceValue(top.content, "services", 0, i + 1, services');
        RewriteSettled(services.content, content', 0);
      }
    }
  }

  /** Replacing an entry's value changes nothing else, and replacing it
      again with the same value changes nothing. */
  lemma ReplaceTwice(root: Node, i: nat, x: Node)
    requires |root.content| > 0 && i + 1 < |root.content[0].content|
    ensures var r := Replace(root, i, x);
      && r.kind == root.kind && |r.content| == |root.content|
      && r.content[0].kind == root.content[0].kind
      && r.content[0].content == root.content[0].content[i + 1 := x]
      && Replace(r, i, x) == r
  {
    var r := Replace(root, i, x);
    var top' := r.content[0];
    assert top'.content[i + 1 := x] == top'.content;
    assert top'.(content := top'.content) == top';
    assert r.content[0 := top'] == r.content;
  }

  // ---------------------------------------------------------------------------
  // The guarded walk

  /** The guarded host loop always answers, and agrees with the loop as
      written wherever that one answers. */
  lemma {:induction false} HostGuarded(content: seq<Node>, j: nat)
    requires j % 2 == 0
    ensures HostFrom(content, j, true).Some?
    ensures HostFrom(content, j, false).Some? ==> HostFrom(content, j, true) == HostFrom(content, j, false)
    decreases |content| - j
  {
    if j < |content| {
      HostGuarded(content, j + 2);
    }
  }

  /** The guarded service walk always finishes, and agrees with the walk as
      written wherever that one finishes. */
  lemma {:induction false} RewriteGuarded(content: seq<Node>, i: nat, updated: bool)
    requires i % 2 == 0
    ensures RewriteFrom(content, i, updated, true).Some?
    ensures RewriteFrom(content, i, updated, false).Some? ==>
      RewriteFrom(content, i, updated, true) == RewriteFrom(content, i, updated, false)
    decreases |content| - i
  {
    if i + 1 < |content| {
      var p := content[i + 1];
      HostGuarded(p.content, 0);
      if IsContainer(p, true) == Some(true) {
        var (props, changed) := Ensure(p, true).value;
        RewriteGuarded(content[i + 1 := props], i + 2, updated || changed);
      } else {
        RewriteGuarded(content, i + 2, updated);
      }
    }
  }

  /** The guarded rewrite never indexes out of range, and wherever the
      rewrite as written does not panic the two give the same result. */
  lemma EnableGuarded(root: Node)
    ensures !Enable(root, true).Panicked?
    ensures !Enable(root, false).Panicked? ==> Enable(root, true) == Enable(root, false)
  {
    if root.kind == DocumentNode && |root.content| > 0 {
      var l := Find(root.content[0].content, "services");
      if l.At? {
        RewriteGuarded(root.content[0].content[l.index + 1].content, 0, false);
      }
    }
  }

  /** `services: [web]`: a services sequence with one item, whose settings
      the walk reads past the end. */
  const OddServices: Node :=
    Node(DocumentNode, "", "", [Node(MappingNode, "", "", [Scalar("services"), Node(SequenceNode, "", "", [Scalar("web")])])])

  /** As written the rewrite indexes out of range on `services: [web]`; the
      guarded rewrite leaves the document unchanged. */
  lemma OddServicesPanics()
    ensures Enable(OddServices, false) == Panicked
    ensures Enable(OddServices, true) == Enabled(OddServices, false)
  {
    var top := OddServices.content[0];
    assert Find(top.content, "services") == At(0);
    assert top.content[1].content == [Scalar("web")];
    ReplaceSame(OddServices, 0);
  }
}
