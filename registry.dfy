/**
  scripts/update_registry.py: the release script that copies the
  checksums of a release's archives into the extension registry.

  The checksums file is its sequence of lines. The registry is the JSON
  document as loaded, with the members the script reads or writes; a member
  it reads with `[...]` may be missing (None), which raises KeyError, while
  a missing `extensions`, `versions` or `artifacts` member is read as empty
  by `.get`. The script updates the loaded document in place and writes it
  back only when it updated something; the model rebuilds the document as
  a value and returns what would be written.
 */
module Registry {
  import opened Wrappers
  import opened Text

  // ---------------------------------------------------------------------------
  // The checksums file

  /** The fields of one line, `line.strip().split()`. */
  function LineFields(line: string): seq<string> {
    Fields(PyStrip(line))
  }

  /** The line is recorded: it has exactly two fields, checksum then file name. */
  predicate Records(line: string) {
    |LineFields(line)| == 2
  }

  /** The line records a checksum for `name`. */
  predicate RecordsName(line: string, name: string) {
    Records(line) && LineFields(line)[1] == name
  }

  /** The field lists of the lines, in order. */
  function LinesFields(lines: seq<string>): (r: seq<seq<string>>)
    ensures |r| == |lines|
  {
    if lines == [] then [] else LinesFields(lines[..|lines| - 1]) + [LineFields(lines[|lines| - 1])]
  }

  lemma {:induction false} LinesFieldsAt(lines: seq<string>, i: nat)
    requires i < |lines|
    ensures LinesFields(lines)[i] == LineFields(lines[i])
    decreases |lines|
  {
    var n := |lines| - 1;
    assert LinesFields(lines) == LinesFields(lines[..n]) + [LineFields(lines[n])];
    if i < n {
      LinesFieldsAt(lines[..n], i);
      assert lines[..n][i] == lines[i];
    }
  }

  /** The dictionary built from field lists in order: every list of exactly
      two fields maps its second field (the file name) to its first (the
      checksum), over whatever an earlier list recorded for that name. */
  function Recorded(entries: seq<seq<string>>): map<string, string> {
    if entries == [] then map[]
    else
      var m := Recorded(entries[..|entries| - 1]);
      var e := entries[|entries| - 1];
      if |e| == 2 then m[e[1] := e[0]] else m
  }

  predicate Names(entry: seq<string>, name: string) {
    |entry| == 2 && entry[1] == name
  }

  /** The checksums dictionary after reading `lines`. */
  function ChecksumsOf(lines: seq<string>): map<string, string> {
    Recorded(LinesFields(lines))
  }

  lemma {:induction false} RecordedNames(entries: seq<seq<string>>, name: string)
    ensures name in Recorded(entries) <==> exists i :: 0 <= i < |entries| && Names(entries[i], name)
    decreases |entries|
  {
    if entries != [] {
      var n := |entries| - 1;
      var init := entries[..n];
      RecordedNames(init, name);
      if exists i :: 0 <= i < |init| && Names(init[i], name) {
        var i :| 0 <= i < |init| && Names(init[i], name);
        assert entries[i] == init[i];
      }
      if exists i :: 0 <= i < |entries| && Names(entries[i], name) {
        var i :| 0 <= i < |entries| && Names(entries[i], name);
        if i < n {
          assert init[i] == entries[i];
        }
      }
    }
  }

  lemma {:induction false} LastEntryWins(entries: seq<seq<string>>, i: nat, name: string)
    requires i < |entries| && Names(entries[i], name)
    requires forall j :: i < j < |entries| ==> !Names(entries[j], name)
    ensures name in Recorded(entries) && Recorded(entries)[name] == entries[i][0]
    decreases |entries|
  {
    var n := |entries| - 1;
    var init := entries[..n];
    if i < n {
      assert init[i] == entries[i];
      forall j | i < j < |init| ensures !Names(init[j], name) {
        assert init[j] == entries[j];
      }
      LastEntryWins(init, i, name);
      assert !Names(entries[n], name);
    }
  }

  /** A file name has a checksum exactly when some line records one for it. */
  lemma ChecksumsNames(lines: seq<string>, name: string)
    ensures name in ChecksumsOf(lines) <==> exists i :: 0 <= i < |lines| && RecordsName(lines[i], name)
  {
    var entries := LinesFields(lines);
    RecordedNames(entries, name);
    forall i | 0 <= i < |lines| ensures Names(entries[i], name) <==> RecordsName(lines[i], name) {
      LinesFieldsAt(lines, i);
    }
  }

  /** The reading loop. */
  method ReadChecksums(lines: seq<string>) returns (checksums: map<string, string>)
    ensures checksums == ChecksumsOf(lines)
  {
    checksums := map[];
    var i := 0;
    while i < |lines|
      invariant i <= |lines| && checksums == ChecksumsOf(lines[..i])
    {
      var parts := LineFields(lines[i]);
      if |parts| == 2 {
        checksums := checksums[parts[1] := parts[0]];
      }
      ChecksumsStep(lines, i);
      i := i + 1;
    }
    assert lines[..i] == lines;
  }

  /** Reading one more line records it over the dictionary so far. */
  lemma ChecksumsStep(lines: seq<string>, i: nat)
    requires i < |lines|
    ensures var m := ChecksumsOf(lines[..i]); var parts := LineFields(lines[i]);
      ChecksumsOf(lines[..i + 1]) == if |parts| == 2 then m[parts[1] := parts[0]] else m
  {
    assert lines[..i + 1][..i] == lines[..i];
    var entries := LinesFields(lines[..i + 1]);
    assert entries == LinesFields(lines[..i]) + [LineFields(lines[i])];
    assert entries[..i] == LinesFields(lines[..i]);
  }

  /** Of several lines for the same file name, the last one wins. */
  lemma LastLineWins(lines: seq<string>, i: nat, name: string)
    requires i < |lines| && RecordsName(lines[i], name)
    requires forall j :: i < j < |lines| ==> !RecordsName(lines[j], name)
    ensures name in ChecksumsOf(lines) && ChecksumsOf(lines)[name] == LineFields(lines[i])[0]
  {
    var entries := LinesFields(lines);
    LinesFieldsAt(lines, i);
    forall j | i < j < |entries| ensures !Names(entries[j], name) {
      LinesFieldsAt(lines, j);
    }
    LastEntryWins(entries, i, name);
  }

  /** A line as sha256sum prints it, checksum, two spaces, file name and
      newline, is recorded as that file's checksum. */
  lemma ChecksumLineRecorded(checksum: string, name: string)
    requires checksum != [] && NoPySpace(checksum) && name != [] && NoPySpace(name)
    ensures LineFields(checksum + "  " + name + "\n") == [checksum, name]
  {
    var rest := "  " + name + "\n";
    var line := checksum + "  " + name + "\n";
    assert line == checksum + rest;
    FieldsOfStrip(line);
    FieldsAfterWord(checksum, rest);
    NameLineFields(name);
  }

  /** The fields after the checksum: the file name alone. */
  lemma NameLineFields(name: string)
    requires name != [] && NoPySpace(name)
    ensures Fields("  " + name + "\n") == [name]
  {
    assert "  " + name + "\n" == "  " + (name + "\n");
    FieldsSkipLeading("  ", name + "\n");
    FieldsAfterWord(name, "\n");
    assert Fields("\n") == Fields([]);
  }

  /** A space-free word followed by white space or nothing is the first
      field. */
  lemma FieldsAfterWord(word: string, rest: string)
    requires word != [] && NoPySpace(word) && (rest == [] || IsPySpace(rest[0]))
    ensures Fields(word + rest) == [word] + Fields(rest)
  {
    TokenStops(word, rest);
    assert (word + rest)[|word|..] == rest;
  }

  /** The first token of a space-free word followed by white space or
      nothing is that word. */
  lemma {:induction false} TokenStops(word: string, rest: string)
    requires NoPySpace(word) && (rest == [] || IsPySpace(rest[0]))
    ensures Token(word + rest) == word
    decreases |word|
  {
    if word == [] {
      assert word + rest == rest;
    } else {
      assert (word + rest)[0] == word[0];
      assert (word + rest)[1..] == word[1..] + rest;
      TokenStops(word[1..], rest);
    }
  }

  // ---------------------------------------------------------------------------
  // The registry document

  datatype Checksum = Checksum(algorithm: string, value: string)

  /** An artifact: its `url` and `checksum` members, None when missing. */
  datatype Artifact = Artifact(url: Option<string>, checksum: Option<Checksum>, entryPoint: string)

  /** A version entry: its `version` member, None when missing, and its
      artifacts by platform in dictionary order. */
  datatype Version = Version(version: Option<string>, artifacts: seq<(string, Artifact)>)

  datatype Extension = Extension(id: string, versions: seq<Version>)

  datatype RegistryDoc = RegistryDoc(extensions: seq<Extension>)

  /** The name the script looks an artifact up by: the text after the last
      '/' of its url. */
  function FileName(a: Artifact): string
    requires a.url.Some?
  {
    LastSegment(a.url.value)
  }

  /** The artifact's file has a recorded checksum. */
  predicate Matches(a: Artifact, checksums: map<string, string>) {
    a.url.Some? && FileName(a) in checksums
  }

  /** Visiting the artifact raises KeyError: it has no url, or it matches
      and has no checksum member to write into. */
  predicate Broken(a: Artifact, checksums: map<string, string>) {
    a.url.None? || (Matches(a, checksums) && a.checksum.None?)
  }

  /** What the visit makes of an artifact: a matched artifact gets the
      recorded checksum as its checksum value and nothing else changes; any
      other artifact is left as it was. */
  predicate Refreshed(a: Artifact, a': Artifact, checksums: map<string, string>) {
    && a.url.Some?
    && (Matches(a, checksums) ==>
          a.checksum.Some? && a' == a.(checksum := Some(a.checksum.value.(value := checksums[FileName(a)]))))
    && (!Matches(a, checksums) ==> a' == a)
  }

  /** The version is one the script visits. */
  predicate Visited(v: Version, version: string) {
    v.version == Some(version)
  }

  predicate ArtifactsBroken(arts: seq<(string, Artifact)>, checksums: map<string, string>) {
    exists k :: 0 <= k < |arts| && Broken(arts[k].1, checksums)
  }

  predicate ArtifactsMatch(arts: seq<(string, Artifact)>, checksums: map<string, string>) {
    exists k :: 0 <= k < |arts| && Matches(arts[k].1, checksums)
  }

  predicate ArtifactsRefreshed(arts: seq<(string, Artifact)>, arts': seq<(string, Artifact)>, checksums: map<string, string>) {
    |arts'| == |arts| && forall k :: 0 <= k < |arts| ==> arts'[k].0 == arts[k].0 && Refreshed(arts[k].1, arts'[k].1, checksums)
  }

  /** Reading the version raises KeyError: it has no `version` member, or it
      is visited and one of its artifacts is broken. */
  predicate VersionBroken(v: Version, version: string, checksums: map<string, string>) {
    v.version.None? || (Visited(v, version) && ArtifactsBroken(v.artifacts, checksums))
  }

  predicate VersionMatches(v: Version, version: string, checksums: map<string, string>) {
    Visited(v, version) && ArtifactsMatch(v.artifacts, checksums)
  }

  /** Only a visited version's artifacts are refreshed; any other version is
      left as it was. */
  predicate VersionRefreshed(v: Version, v': Version, version: string, checksums: map<string, string>) {
    && v'.version == v.version
    && (Visited(v, version) ==> ArtifactsRefreshed(v.artifacts, v'.artifacts, checksums))
    && (!Visited(v, version) ==> v' == v)
  }

  predicate VersionsBroken(vs: seq<Version>, version: string, checksums: map<string, string>) {
    exists j :: 0 <= j < |vs| && VersionBroken(vs[j], version, checksums)
  }

  predicate VersionsMatch(vs: seq<Version>, version: string, checksums: map<string, string>) {
    exists j :: 0 <= j < |vs| && VersionMatches(vs[j], version, checksums)
  }

  predicate VersionsRefreshed(vs: seq<Version>, vs': seq<Version>, version: string, checksums: map<string, string>) {
    |vs'| == |vs| && forall j :: 0 <= j < |vs| ==> VersionRefreshed(vs[j], vs'[j], version, checksums)
  }

  predicate ExtensionsBroken(es: seq<Extension>, version: string, checksums: map<string, string>) {
    exists e :: 0 <= e < |es| && VersionsBroken(es[e].versions, version, checksums)
  }

  predicate ExtensionsMatch(es: seq<Extension>, version: string, checksums: map<string, string>) {
    exists e :: 0 <= e < |es| && VersionsMatch(es[e].versions, version, checksums)
  }

  predicate ExtensionsRefreshed(es: seq<Extension>, es': seq<Extension>, version: string, checksums: map<string, string>) {
    && |es'| == |es|
    && forall e :: 0 <= e < |es| ==>
         es'[e].id == es[e].id && VersionsRefreshed(es[e].versions, es'[e].versions, version, checksums)
  }

  // ---------------------------------------------------------------------------
  // The update walk, level by level; None is a KeyError

  /** One artifact of a visited version, with whether its checksum was set. */
  function UpdateArtifact(a: Artifact, checksums: map<string, string>): (r: Option<(Artifact, bool)>)
    ensures r.None? <==> Broken(a, checksums)
    ensures r.Some? ==> Refreshed(a, r.value.0, checksums) && (r.value.1 <==> Matches(a, checksums))
  {
    if a.url.None? then None
    else if FileName(a) !in checksums then Some((a, false))
    else if a.checksum.None? then None
    else Some((a.(checksum := Some(a.checksum.value.(value := checksums[FileName(a)]))), true))
  }

  function UpdateArtifacts(arts: seq<(string, Artifact)>, checksums: map<string, string>): (r: Option<(seq<(string, Artifact)>, bool)>)
    ensures r.None? <==> ArtifactsBroken(arts, checksums)
    ensures r.Some? ==> ArtifactsRefreshed(arts, r.value.0, checksums) && (r.value.1 <==> ArtifactsMatch(arts, checksums))
  {
    if arts == [] then Some(([], false))
    else
      var init := arts[..|arts| - 1];
      var (platform, a) := arts[|arts| - 1];
      ArtifactsSnoc(arts, checksums);
      match UpdateArtifacts(init, checksums)
      case None => None
      case Some((done, updated)) =>
        match UpdateArtifact(a, checksums)
        case None => None
        case Some((a', matched)) =>
          RefreshedSnoc(arts, done, a', checksums);
          Some((done + [(platform, a')], updated || matched))
  }

  /** A list of artifacts is broken, or matches, when its front is or its
      last artifact is. */
  lemma ArtifactsSnoc(arts: seq<(string, Artifact)>, checksums: map<string, string>)
    requires arts != []
    ensures var init := arts[..|arts| - 1]; var a := arts[|arts| - 1].1;
      && (ArtifactsBroken(arts, checksums) <==> ArtifactsBroken(init, checksums) || Broken(a, checksums))
      && (ArtifactsMatch(arts, checksums) <==> ArtifactsMatch(init, checksums) || Matches(a, checksums))
  {
    var init := arts[..|arts| - 1];
    assert forall k :: 0 <= k < |init| ==> init[k] == arts[k];
  }

  lemma RefreshedSnoc(arts: seq<(string, Artifact)>, done: seq<(string, Artifact)>, a': Artifact, checksums: map<string, string>)
    requires arts != [] && ArtifactsRefreshed(arts[..|arts| - 1], done, checksums)
    requires Refreshed(arts[|arts| - 1].1, a', checksums)
    ensures ArtifactsRefreshed(arts, done + [(arts[|arts| - 1].0, a')], checksums)
  {
    var init := arts[..|arts| - 1];
    assert forall k :: 0 <= k < |init| ==> init[k] == arts[k];
  }

  function UpdateVersion(v: Version, version: string, checksums: map<string, string>): (r: Option<(Version, bool)>)
    ensures r.None? <==> VersionBroken(v, version, checksums)
    ensures r.Some? ==> VersionRefreshed(v, r.value.0, version, checksums) && (r.value.1 <==> VersionMatches(v, version, checksums))
  {
    if v.version.None? then None
    else if v.version.value != version then Some((v, false))
    else
      match UpdateArtifacts(v.artifacts, checksums)
      case None => None
      case Some((arts, updated)) => Some((v.(artifacts := arts), updated))
  }

  function UpdateVersions(vs: seq<Version>, version: string, checksums: map<string, string>): (r: Option<(seq<Version>, bool)>)
    ensures r.None? <==> VersionsBroken(vs, version, checksums)
    ensures r.Some? ==> VersionsRefreshed(vs, r.value.0, version, checksums) && (r.value.1 <==> VersionsMatch(vs, version, checksums))
  {
    if vs == [] then Some(([], false))
    else
      var init := vs[..|vs| - 1];
      assert forall j :: 0 <= j < |init| ==> init[j] == vs[j];
      match UpdateVersions(init, version, checksums)
      case None => None
      case Some((done, updated)) =>
        match UpdateVersion(vs[|vs| - 1], version, checksums)
        case None => None
        case Some((v', matched)) => Some((done + [v'], updated || matched))
  }

  function UpdateExtensions(es: seq<Extension>, version: string, checksums: map<string, string>): (r: Option<(seq<Extension>, bool)>)
    ensures r.None? <==> ExtensionsBroken(es, version, checksums)
    ensures r.Some? ==> ExtensionsRefreshed(es, r.value.0, version, checksums) && (r.value.1 <==> ExtensionsMatch(es, version, checksums))
  {
    if es == [] then Some(([], false))
    else
      var init := es[..|es| - 1];
      var e := es[|es| - 1];
      assert forall k :: 0 <= k < |init| ==> init[k] == es[k];
      match UpdateExtensions(init, version, checksums)
      case None => None
      case Some((done, updated)) =>
        match UpdateVersions(e.versions, version, checksums)
        case None => None
        case Some((vs', matched)) => Some((done + [e.(versions := vs')], updated || matched))
  }

  // ---------------------------------------------------------------------------
  // update_registry

  /** What a run ends in: the registry written back, nothing written, or a
      KeyError before anything is written. */
  datatype Outcome = Written(registry: RegistryDoc) | NoUpdates | MissingKey

  /** update_registry: read the checksums, refresh every artifact of every
      version equal to `version`, and write the registry back exactly when
      some artifact's checksum was set. */
  function UpdateRegistry(lines: seq<string>, registry: RegistryDoc, version: string): (r: Outcome)
    ensures var checksums := ChecksumsOf(lines);
      && (r.MissingKey? <==> ExtensionsBroken(registry.extensions, version, checksums))
      && (r.Written? <==> !ExtensionsBroken(registry.extensions, version, checksums) && ExtensionsMatch(registry.extensions, version, checksums))
      && (r.Written? ==> ExtensionsRefreshed(registry.extensions, r.registry.extensions, version, checksums))
  {
    match UpdateExtensions(registry.extensions, version, ChecksumsOf(lines))
    case None => MissingKey
    case Some((es, updated)) => if updated then Written(RegistryDoc(es)) else NoUpdates
  }

  // ---------------------------------------------------------------------------
  // A second run writes the same registry

  // Each level twice over: a refreshed value refreshes to itself, is not
  // broken and matches exactly when the original did ("Again"), and a
  // value refreshes to one result only ("Unique").

  lemma ArtifactAgain(a: Artifact, a': Artifact, checksums: map<string, string>)
    requires Refreshed(a, a', checksums)
    ensures Refreshed(a', a', checksums) && !Broken(a', checksums) && (Matches(a', checksums) <==> Matches(a, checksums))
  {
  }

  lemma ArtifactsAgain(arts: seq<(string, Artifact)>, arts': seq<(string, Artifact)>, checksums: map<string, string>)
    requires ArtifactsRefreshed(arts, arts', checksums)
    ensures ArtifactsRefreshed(arts', arts', checksums) && !ArtifactsBroken(arts', checksums)
    ensures ArtifactsMatch(arts', checksums) <==> ArtifactsMatch(arts, checksums)
  {
    forall k | 0 <= k < |arts'|
      ensures Refreshed(arts'[k].1, arts'[k].1, checksums) && !Broken(arts'[k].1, checksums)
      ensures Matches(arts'[k].1, checksums) <==> Matches(arts[k].1, checksums)
    {
      ArtifactAgain(arts[k].1, arts'[k].1, checksums);
    }
    if ArtifactsMatch(arts, checksums) {
      var k :| 0 <= k < |arts| && Matches(arts[k].1, checksums);
      assert Matches(arts'[k].1, checksums);
    }
    if ArtifactsMatch(arts', checksums) {
      var k :| 0 <= k < |arts'| && Matches(arts'[k].1, checksums);
      assert Matches(arts[k].1, checksums);
    }
  }

  lemma ArtifactsUnique(arts: seq<(string, Artifact)>, x: seq<(string, Artifact)>, y: seq<(string, Artifact)>, checksums: map<string, string>)
    requires ArtifactsRefreshed(arts, x, checksums) && ArtifactsRefreshed(arts, y, checksums)
    ensures x == y
  {
    forall k | 0 <= k < |x| ensures x[k] == y[k] {
      assert x[k].1 == y[k].1;
    }
  }

  lemma VersionAgain(v: Version, v': Version, version: string, checksums: map<string, string>)
    requires VersionRefreshed(v, v', version, checksums)
    ensures VersionRefreshed(v', v', version, checksums)
    ensures VersionBroken(v', version, checksums) <==> v.version.None?
    ensures VersionMatches(v', version, checksums) <==> VersionMatches(v, version, checksums)
  {
    if Visited(v, version) {
      ArtifactsAgain(v.artifacts, v'.artifacts, checksums);
    }
  }

  lemma VersionUnique(v: Version, x: Version, y: Version, version: string, checksums: map<string, string>)
    requires VersionRefreshed(v, x, version, checksums) && VersionRefreshed(v, y, version, checksums)
    ensures x == y
  {
    if Visited(v, version) {
      ArtifactsUnique(v.artifacts, x.artifacts, y.artifacts, checksums);
    }
  }

  lemma VersionsAgain(vs: seq<Version>, vs': seq<Version>, version: string, checksums: map<string, string>)
    requires VersionsRefreshed(vs, vs', version, checksums) && !VersionsBroken(vs, version, checksums)
    ensures VersionsRefreshed(vs', vs', version, checksums) && !VersionsBroken(vs', version, checksums)
    ensures VersionsMatch(vs', version, checksums) <==> VersionsMatch(vs, version, checksums)
  {
    forall j | 0 <= j < |vs'|
      ensures VersionRefreshed(vs'[j], vs'[j], version, checksums) && !VersionBroken(vs'[j], version, checksums)
      ensures VersionMatches(vs'[j], version, checksums) <==> VersionMatches(vs[j], version, checksums)
    {
      assert !VersionBroken(vs[j], version, checksums);
      VersionAgain(vs[j], vs'[j], version, checksums);
    }
    if VersionsMatch(vs, version, checksums) {
      var j :| 0 <= j < |vs| && VersionMatches(vs[j], version, checksums);
      assert VersionMatches(vs'[j], version, checksums);
    }
    if VersionsMatch(vs', version, checksums) {
      var j :| 0 <= j < |vs'| && VersionMatches(vs'[j], version, checksums);
      assert VersionMatches(vs[j], version, checksums);
    }
  }

  lemma VersionsUnique(vs: seq<Version>, x: seq<Version>, y: seq<Version>, version: string, checksums: map<string, string>)
    requires VersionsRefreshed(vs, x, version, checksums) && VersionsRefreshed(vs, y, version, checksums)
    ensures x == y
  {
    forall j | 0 <= j < |x| ensures x[j] == y[j] {
      VersionUnique(vs[j], x[j], y[j], version, checksums);
    }
  }

  lemma ExtensionsAgain(es: seq<Extension>, es': seq<Extension>, version: string, checksums: map<string, string>)
    requires ExtensionsRefreshed(es, es', version, checksums) && !ExtensionsBroken(es, version, checksums)
    ensures ExtensionsRefreshed(es', es', version, checksums) && !ExtensionsBroken(es', version, checksums)
    ensures ExtensionsMatch(es', version, checksums) <==> ExtensionsMatch(es, version, checksums)
  {
    forall e | 0 <= e < |es'|
      ensures VersionsRefreshed(es'[e].versions, es'[e].versions, version, checksums)
      ensures !VersionsBroken(es'[e].versions, version, checksums)
      ensures VersionsMatch(es'[e].versions, version, checksums) <==> VersionsMatch(es[e].versions, version, checksums)
    {
      assert !VersionsBroken(es[e].versions, version, checksums);
      VersionsAgain(es[e].versions, es'[e].versions, version, checksums);
    }
    if ExtensionsMatch(es, version, checksums) {
      var e :| 0 <= e < |es| && VersionsMatch(es[e].versions, version, checksums);
      assert VersionsMatch(es'[e].versions, version, checksums);
    }
    if ExtensionsMatch(es', version, checksums) {
      var e :| 0 <= e < |es'| && VersionsMatch(es'[e].versions, version, checksums);
      assert VersionsMatch(es[e].versions, version, checksums);
    }
  }

  lemma ExtensionsUnique(es: seq<Extension>, x: seq<Extension>, y: seq<Extension>, version: string, checksums: map<string, string>)
    requires ExtensionsRefreshed(es, x, version, checksums) && ExtensionsRefreshed(es, y, version, checksums)
    ensures x == y
  {
    forall e | 0 <= e < |x| ensures x[e] == y[e] {
      VersionsUnique(es[e].versions, x[e].versions, y[e].versions, version, checksums);
    }
  }

  /** Running update_registry again on the registry it wrote, with the same
      checksums and version, writes that registry unchanged. */
  lemma UpdateIdempotent(lines: seq<string>, registry: RegistryDoc, version: string)
    requires UpdateRegistry(lines, registry, version).Written?
    ensures var written := UpdateRegistry(lines, registry, version).registry;
      UpdateRegistry(lines, written, version) == Written(written)
  {
    var checksums := ChecksumsOf(lines);
    var written := UpdateRegistry(lines, registry, version).registry;
    ExtensionsAgain(registry.extensions, written.extensions, version, checksums);
    var again := UpdateRegistry(lines, written, version);
    ExtensionsUnique(written.extensions, again.registry.extensions, written.extensions, version, checksums);
  }

  // ---------------------------------------------------------------------------
  // The loops of update_registry

  /** The artifacts loop of a visited version. */
  method RefreshArtifacts(arts: seq<(string, Artifact)>, checksums: map<string, string>) returns (r: Option<(seq<(string, Artifact)>, bool)>)
    ensures r == UpdateArtifacts(arts, checksums)
  {
    var done: seq<(string, Artifact)> := [];
    var updated := false;
    var k := 0;
    while k < |arts|
      invariant k <= |arts| && UpdateArtifacts(arts[..k], checksums) == Some((done, updated))
    {
      assert arts[..k + 1][..k] == arts[..k];
      var (platform, artifact) := arts[k];
      if artifact.url.None? {
        assert Broken(arts[..k + 1][k].1, checksums);
        assert arts[..k + 1] + arts[k + 1..] == arts;
        return None;
      }
      var fileName := LastSegment(artifact.url.value);
      if fileName in checksums {
        if artifact.checksum.None? {
          assert Broken(arts[..k + 1][k].1, checksums);
          assert arts[..k + 1] + arts[k + 1..] == arts;
          return None;
        }
        artifact := artifact.(checksum := Some(artifact.checksum.value.(value := checksums[fileName])));
        updated := true;
      }
      done := done + [(platform, artifact)];
      k := k + 1;
    }
    assert arts[..k] == arts;
    return Some((done, updated));
  }

  /** The versions loop of one extension. */
  method RefreshVersions(vs: seq<Version>, version: string, checksums: map<string, string>) returns (r: Option<(seq<Version>, bool)>)
    ensures r == UpdateVersions(vs, version, checksums)
  {
    var done: seq<Version> := [];
    var updated := false;
    var j := 0;
    while j < |vs|
      invariant j <= |vs| && UpdateVersions(vs[..j], version, checksums) == Some((done, updated))
    {
      var step := RefreshVersion(vs[j], version, checksums);
      if step.None? {
        BrokenPrefix(vs, j, version, checksums);
        return None;
      }
      var (ver, matched) := step.value;
      VersionsStep(vs, j, version, checksums, done, updated, ver, matched);
      done := done + [ver];
      updated := updated || matched;
      j := j + 1;
    }
    assert vs[..j] == vs;
    return Some((done, updated));
  }

  /** The body of the versions loop for one version: a version without a
      version string fails, the requested version has its artifacts
      refreshed, and any other is kept. */
  method RefreshVersion(ver: Version, version: string, checksums: map<string, string>) returns (r: Option<(Version, bool)>)
    ensures r == UpdateVersion(ver, version, checksums)
  {
    if ver.version.None? {
      return None;
    }
    if ver.version.value != version {
      return Some((ver, false));
    }
    var refreshed := RefreshArtifacts(ver.artifacts, checksums);
    if refreshed.None? {
      return None;
    }
    return Some((ver.(artifacts := refreshed.value.0), refreshed.value.1));
  }

  /** One more version refreshed extends the refreshed prefix. */
  lemma VersionsStep(vs: seq<Version>, j: nat, version: string, checksums: map<string, string>,
                     done: seq<Version>, updated: bool, v': Version, matched: bool)
    requires j < |vs| && UpdateVersions(vs[..j], version, checksums) == Some((done, updated))
    requires UpdateVersion(vs[j], version, checksums) == Some((v', matched))
    ensures UpdateVersions(vs[..j + 1], version, checksums) == Some((done + [v'], updated || matched))
  {
    assert vs[..j + 1][..j] == vs[..j];
    assert vs[..j + 1][j] == vs[j];
  }

  lemma ExtensionsStep(es: seq<Extension>, e: nat, version: string, checksums: map<string, string>,
                       done: seq<Extension>, updated: bool, vs': seq<Version>, matched: bool)
    requires e < |es| && UpdateExtensions(es[..e], version, checksums) == Some((done, updated))
    requires UpdateVersions(es[e].versions, version, checksums) == Some((vs', matched))
    ensures UpdateExtensions(es[..e + 1], version, checksums) == Some((done + [es[e].(versions := vs')], updated || matched))
  {
    assert es[..e + 1][..e] == es[..e];
    assert es[..e + 1][e] == es[e];
  }

  /** An extension with broken versions makes the whole list broken. */
  lemma BrokenExtension(es: seq<Extension>, e: nat, version: string, checksums: map<string, string>)
    requires e < |es| && UpdateVersions(es[e].versions, version, checksums).None?
    ensures UpdateExtensions(es, version, checksums).None?
  {
    assert VersionsBroken(es[e].versions, version, checksums);
  }

  /** A broken version makes every list of versions holding it broken. */
  lemma BrokenPrefix(vs: seq<Version>, j: nat, version: string, checksums: map<string, string>)
    requires j < |vs| && VersionBroken(vs[j], version, checksums)
    ensures UpdateVersions(vs, version, checksums).None?
  {
  }

  /** The extensions loop. */
  method RefreshExtensions(es: seq<Extension>, version: string, checksums: map<string, string>) returns (r: Option<(seq<Extension>, bool)>)
    ensures r == UpdateExtensions(es, version, checksums)
  {
    var done: seq<Extension> := [];
    var updated := false;
    var e := 0;
    while e < |es|
      invariant e <= |es| && UpdateExtensions(es[..e], version, checksums) == Some((done, updated))
    {
      var refreshed := RefreshVersions(es[e].versions, version, checksums);
      if refreshed.None? {
        BrokenExtension(es, e, version, checksums);
        return None;
      }
      var (vs', matched) := refreshed.value;
      ExtensionsStep(es, e, version, checksums, done, updated, vs', matched);
      done := done + [es[e].(versions := vs')];
      updated := updated || matched;
      e := e + 1;
    }
    assert es[..e] == es;
    return Some((done, updated));
  }

  /** update_registry: read the checksums, run the loops, and write the
      registry back only when something was updated. */
  method RunUpdateRegistry(lines: seq<string>, registry: RegistryDoc, version: string) returns (r: Outcome)
    ensures r == UpdateRegistry(lines, registry, version)
  {
    var checksums := ReadChecksums(lines);
    var refreshed := RefreshExtensions(registry.extensions, version, checksums);
    if refreshed.None? {
      return MissingKey;
    }
    if refreshed.value.1 {
      return Written(RegistryDoc(refreshed.value.0));
    }
    return NoUpdates;
  }
}
