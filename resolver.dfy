/**
 * The configuration resolver and command router: builds the ordered list of
 * candidate configuration files (project, custom includes, global), folds the
 * scope-tagging merge over the loaded documents, and returns the first
 * merged entry that provides the command.
 */
module Resolver {
  import opened Wrappers
  import opened Paths
  import opened Entries
  import opened PropertyConfig
  import opened ProjectLocator

  /** The property naming the directory of the global configuration document. */
  const GLOBAL_PATH_KEY := "global-configuration-path"

  /**
   * The configuration documents on disk, keyed by file path. A path that is
   * not a key names a file that does not exist; a malformed file maps to
   * whatever partial document the loader produced from it.
   */
  type DocumentStore = map<string, ProjectConfig>

  /** What the resolver reads of the file system and the process. */
  datatype FileSystem = FileSystem(
    workingDirectory: Path,
    markers: set<Path>,
    documents: DocumentStore,
    executionDirectory: string)

  datatype ResolveError = CommandNotFound(commandName: string)

  /** LoadProjectConfig: a missing file is an empty configuration, never an error. */
  function LoadProjectConfig(store: DocumentStore, path: string): (cfg: ProjectConfig)
    ensures path !in store ==> cfg == EMPTY_CONFIG
    ensures path in store ==> cfg == store[path]
  {
    if path in store then store[path] else EMPTY_CONFIG
  }

  /** The configuration MergeConfigurations returns. */
  function Merged(project: ProjectConfig, global: ProjectConfig): (r: ProjectConfig)
    ensures |r.images| == |project.images| + |global.images|
    ensures forall i :: 0 <= i < |project.images| ==> r.images[i] == project.images[i].(scope := Project)
    ensures forall i :: 0 <= i < |global.images| ==>
              r.images[|project.images| + i] == global.images[i].(scope := Global)
  {
    ProjectConfig(Retag(project.images, Project) + Retag(global.images, Global))
  }

  method MergeConfigurations(configProject: ProjectConfig, configGlobal: ProjectConfig) returns (cfg: ProjectConfig)
    ensures cfg == Merged(configProject, configGlobal)
  {
    var images: seq<Entry> := [];
    for i := 0 to |configProject.images|
      invariant images == Retag(configProject.images[..i], Project)
    {
      assert configProject.images[..i + 1] == configProject.images[..i] + [configProject.images[i]];
      RetagAppend(configProject.images[..i], [configProject.images[i]], Project);
      images := images + [configProject.images[i].(scope := Project)];
    }
    assert configProject.images[..|configProject.images|] == configProject.images;
    for j := 0 to |configGlobal.images|
      invariant images == Retag(configProject.images, Project) + Retag(configGlobal.images[..j], Global)
    {
      assert configGlobal.images[..j + 1] == configGlobal.images[..j] + [configGlobal.images[j]];
      RetagAppend(configGlobal.images[..j], [configGlobal.images[j]], Global);
      images := images + [configGlobal.images[j].(scope := Global)];
    }
    assert configGlobal.images[..|configGlobal.images|] == configGlobal.images;
    cfg := ProjectConfig(images);
  }

  /**
   * MapGetValueOrDefault(props, "global-configuration-path", executionDirectory).
   * Whether a present but empty value also falls back to the default is up
   * to that library; blankFallsBack stands for its choice.
   */
  function GlobalConfigPath(props: Properties, executionDirectory: string, blankFallsBack: bool): (path: string)
    ensures GLOBAL_PATH_KEY !in props ==> path == executionDirectory
    ensures GLOBAL_PATH_KEY in props && props[GLOBAL_PATH_KEY] != "" ==> path == props[GLOBAL_PATH_KEY]
  {
    if GLOBAL_PATH_KEY in props && (props[GLOBAL_PATH_KEY] != "" || !blankFallsBack) then
      props[GLOBAL_PATH_KEY]
    else
      executionDirectory
  }

  /** The configuration files to load, in load order. */
  function CandidateFiles(projectDir: Option<Path>, customIncludes: seq<string>, globalConfigPath: string): (files: seq<string>)
    ensures |files| == (if projectDir.Some? then 1 else 0) + |customIncludes| + 1
    ensures projectDir.Some? ==> files[0] == Render(projectDir.value) + MARKER_FILE
    ensures forall i :: 0 <= i < |customIncludes| ==>
              files[(if projectDir.Some? then 1 else 0) + i] == customIncludes[i]
    ensures files[|files| - 1] == globalConfigPath + MARKER_FILE
  {
    (if projectDir.Some? then [Render(projectDir.value) + MARKER_FILE] else [])
      + customIncludes + [globalConfigPath + MARKER_FILE]
  }

  /** The documents the candidate files load to, in the same order. */
  function LoadAll(store: DocumentStore, files: seq<string>): (docs: seq<ProjectConfig>)
    ensures |docs| == |files|
    ensures forall i :: 0 <= i < |files| ==> docs[i] == LoadProjectConfig(store, files[i])
  {
    if files == [] then [] else [LoadProjectConfig(store, files[0])] + LoadAll(store, files[1..])
  }

  /**
   * finalConfiguration after the merge loop: starting from the empty
   * configuration, each document is merged in as the "global" argument.
   */
  function Accumulated(docs: seq<ProjectConfig>): ProjectConfig
    decreases |docs|
  {
    if docs == [] then EMPTY_CONFIG
    else Merged(Accumulated(docs[..|docs| - 1]), docs[|docs| - 1])
  }

  /** The entries of all documents, one document after another, untagged. */
  function AllImages(docs: seq<ProjectConfig>): seq<Entry>
    decreases |docs|
  {
    if docs == [] then [] else AllImages(docs[..|docs| - 1]) + docs[|docs| - 1].images
  }

  lemma {:induction false} AllImagesAppend(x: seq<ProjectConfig>, y: seq<ProjectConfig>)
    ensures AllImages(x + y) == AllImages(x) + AllImages(y)
    decreases |y|
  {
    if y == [] {
      assert x + y == x;
    } else {
      var n := |y|;
      assert (x + y)[..|x + y| - 1] == x + y[..n - 1];
      assert (x + y)[|x + y| - 1] == y[n - 1];
      AllImagesAppend(x, y[..n - 1]);
    }
  }

  /**
   * The fold keeps every entry in document order and re-tags everything
   * merged so far as Project at each step, so only the last document's
   * entries end up Global.
   */
  lemma {:induction false} AccumulatedTags(docs: seq<ProjectConfig>)
    requires docs != []
    ensures Accumulated(docs).images ==
            Retag(AllImages(docs[..|docs| - 1]), Project) + Retag(docs[|docs| - 1].images, Global)
    decreases |docs|
  {
    var n := |docs|;
    var init := docs[..n - 1];
    if n == 1 {
      assert init == [];
      assert Accumulated(init) == EMPTY_CONFIG;
    } else {
      assert init[..|init| - 1] == docs[..n - 2];
      assert init[|init| - 1] == docs[n - 2];
      AccumulatedTags(init);
      var before := AllImages(docs[..n - 2]);
      var last := docs[n - 2].images;
      assert AllImages(init) == before + last;
      calc {
        Accumulated(docs).images;
        Retag(Accumulated(init).images, Project) + Retag(docs[n - 1].images, Global);
        Retag(Retag(before, Project) + Retag(last, Global), Project) + Retag(docs[n - 1].images, Global);
        { RetagAppend(Retag(before, Project), Retag(last, Global), Project);
          RetagRetag(before, Project, Project);
          RetagRetag(last, Global, Project);
          RetagAppend(before, last, Project); }
        Retag(AllImages(init), Project) + Retag(docs[n - 1].images, Global);
      }
    }
  }

  /** The index of the first entry that provides commandName, or None. */
  function FirstMatchIndex(entries: seq<Entry>, commandName: string): (r: Option<nat>)
    ensures r.Some? ==> r.value < |entries| && Provides(entries[r.value], commandName)
    ensures r.Some? ==> forall j :: 0 <= j < r.value ==> !Provides(entries[j], commandName)
    ensures r.None? <==> forall j :: 0 <= j < |entries| ==> !Provides(entries[j], commandName)
  {
    if entries == [] then None
    else if Provides(entries[0], commandName) then Some(0)
    else match FirstMatchIndex(entries[1..], commandName)
      case None => None
      case Some(k) => Some(k + 1)
  }

  /** The routing decision for commandName over the merged entries. */
  function Route(entries: seq<Entry>, commandName: string): Result<Entry, ResolveError> {
    match FirstMatchIndex(entries, commandName)
    case Some(i) => Ok(entries[i])
    case None => Err(CommandNotFound(commandName))
  }

  /** The command-definition scan at the end of GetCommandConfiguration. */
  method FindCommand(finalConfiguration: ProjectConfig, commandName: string) returns (r: Result<Entry, ResolveError>)
    ensures r == Route(finalConfiguration.images, commandName)
  {
    var images := finalConfiguration.images;
    for i := 0 to |images|
      invariant forall j :: 0 <= j < i ==> !Provides(images[j], commandName)
    {
      var element := images[i];
      for k := 0 to |element.commands|
        invariant forall m :: 0 <= m < k ==> element.commands[m] != commandName
      {
        if element.commands[k] == commandName {
          return Ok(element);
        }
      }
    }
    return Err(CommandNotFound(commandName));
  }

  /** The project directory the resolver finds, if any. */
  function ProjectDir(fs: FileSystem): Option<Path> {
    NearestMarked(fs.markers, fs.workingDirectory)
  }

  /** The candidate files for a resolution. */
  function Candidates(customIncludes: seq<string>, fs: FileSystem, blankFallsBack: bool, props: Properties): seq<string> {
    CandidateFiles(ProjectDir(fs), customIncludes, GlobalConfigPath(props, fs.executionDirectory, blankFallsBack))
  }

  /** What GetCommandConfiguration computes, given the loaded properties props. */
  function Resolution(commandName: string, customIncludes: seq<string>, fs: FileSystem, blankFallsBack: bool, props: Properties): Result<Entry, ResolveError> {
    Route(Accumulated(LoadAll(fs.documents, Candidates(customIncludes, fs, blankFallsBack, props))).images, commandName)
  }

  /**
   * GetCommandConfiguration. The currentDirectory argument is not read: the
   * project directory is searched from the process's working directory.
   */
  method GetCommandConfiguration(
    commandName: string, currentDirectory: string, customIncludes: seq<string>,
    fs: FileSystem, properties: PropertyStore, blankFallsBack: bool)
    returns (r: Result<Entry, ResolveError>)
    ensures r == Resolution(commandName, customIncludes, fs, blankFallsBack, properties.Loaded())
  {
    var props := LoadPropertyFile(properties.file);

    var configFiles: seq<string> := [];
    var projectDir := GetProjectDirectory(fs.markers, fs.workingDirectory);
    if projectDir.Some? {
      configFiles := configFiles + [Render(projectDir.value) + MARKER_FILE];
    }
    assert configFiles == if ProjectDir(fs).Some? then [Render(ProjectDir(fs).value) + MARKER_FILE] else [];
    configFiles := configFiles + customIncludes;
    var globalConfigPath := GlobalConfigPath(props, fs.executionDirectory, blankFallsBack);
    configFiles := configFiles + [globalConfigPath + MARKER_FILE];
    assert configFiles == Candidates(customIncludes, fs, blankFallsBack, props);

    var finalConfiguration := EMPTY_CONFIG;
    for i := 0 to |configFiles|
      invariant finalConfiguration == Accumulated(LoadAll(fs.documents, configFiles[..i]))
    {
      var configContent := LoadProjectConfig(fs.documents, configFiles[i]);
      LoadAllSnoc(fs.documents, configFiles, i);
      finalConfiguration := MergeConfigurations(finalConfiguration, configContent);
    }
    assert configFiles[..|configFiles|] == configFiles;
    assert finalConfiguration == Accumulated(LoadAll(fs.documents, Candidates(customIncludes, fs, blankFallsBack, props)));

    r := FindCommand(finalConfiguration, commandName);
  }

  /** Loading one more candidate file appends its document; the fold then merges it in last. */
  lemma LoadAllSnoc(store: DocumentStore, files: seq<string>, i: nat)
    requires i < |files|
    ensures Accumulated(LoadAll(store, files[..i + 1]))
            == Merged(Accumulated(LoadAll(store, files[..i])), LoadProjectConfig(store, files[i]))
  {
    var loaded := LoadAll(store, files[..i + 1]);
    assert loaded == LoadAll(store, files[..i]) + [LoadProjectConfig(store, files[i])];
    assert loaded[..|loaded| - 1] == LoadAll(store, files[..i]);
  }

  lemma LoadAllAppend(store: DocumentStore, a: seq<string>, b: seq<string>)
    ensures LoadAll(store, a + b) == LoadAll(store, a) + LoadAll(store, b)
  {
    assert forall i :: 0 <= i < |a + b| ==> LoadAll(store, a + b)[i] == (LoadAll(store, a) + LoadAll(store, b))[i];
  }

  lemma AllImagesFirst(docs: seq<ProjectConfig>)
    requires docs != []
    ensures AllImages(docs) == docs[0].images + AllImages(docs[1..])
  {
    assert docs == [docs[0]] + docs[1..];
    AllImagesAppend([docs[0]], docs[1..]);
    assert AllImages([docs[0]]) == docs[0].images by {
      assert [docs[0]][..0] == [];
    }
  }

  lemma FirstMatchIsFirst(entries: seq<Entry>, commandName: string, i: nat)
    requires i < |entries| && Provides(entries[i], commandName)
    requires forall j :: 0 <= j < i ==> !Provides(entries[j], commandName)
    ensures FirstMatchIndex(entries, commandName) == Some(i)
  {
  }

  /** If no single document provides the command, neither does their concatenation. */
  lemma {:induction false} AllImagesNoProvider(docs: seq<ProjectConfig>, commandName: string)
    requires forall i :: 0 <= i < |docs| ==> FirstMatchIndex(docs[i].images, commandName).None?
    ensures FirstMatchIndex(AllImages(docs), commandName).None?
    decreases |docs|
  {
    if docs != [] {
      var init := docs[..|docs| - 1];
      assert forall i :: 0 <= i < |init| ==> init[i] == docs[i];
      AllImagesNoProvider(init, commandName);
      var last := docs[|docs| - 1].images;
      assert FirstMatchIndex(last, commandName).None?;
      forall j | 0 <= j < |AllImages(docs)|
        ensures !Provides(AllImages(docs)[j], commandName)
      {
        if j < |AllImages(init)| {
          assert AllImages(docs)[j] == AllImages(init)[j];
        } else {
          assert AllImages(docs)[j] == last[j - |AllImages(init)|];
        }
      }
    }
  }

  /** An empty document in the middle of the fold changes nothing; only the last one's entries stay Global. */
  lemma AccumulatedSkipsEmpty(x: seq<ProjectConfig>, y: seq<ProjectConfig>)
    requires y != []
    ensures Accumulated(x + [EMPTY_CONFIG] + y) == Accumulated(x + y)
  {
    var a := x + [EMPTY_CONFIG] + y;
    var b := x + y;
    var y' := y[..|y| - 1];
    assert a[|a| - 1] == y[|y| - 1] == b[|b| - 1];
    assert a[..|a| - 1] == (x + [EMPTY_CONFIG]) + y' by {
      assert a == (x + [EMPTY_CONFIG]) + (y' + [y[|y| - 1]]);
    }
    assert b[..|b| - 1] == x + y' by {
      assert b == x + (y' + [y[|y| - 1]]);
    }
    assert AllImages(x + [EMPTY_CONFIG]) == AllImages(x) by {
      assert (x + [EMPTY_CONFIG])[..|x|] == x;
    }
    AllImagesAppend(x + [EMPTY_CONFIG], y');
    AllImagesAppend(x, y');
    AccumulatedTags(a);
    AccumulatedTags(b);
  }

  lemma LoadAllDropMissing(store: DocumentStore, before: seq<string>, path: string, after: seq<string>)
    requires path !in store
    ensures LoadAll(store, before + [path] + after) == LoadAll(store, before) + [EMPTY_CONFIG] + LoadAll(store, after)
    ensures LoadAll(store, before + after) == LoadAll(store, before) + LoadAll(store, after)
  {
    LoadAllAppend(store, before + [path], after);
    LoadAllAppend(store, before, [path]);
    assert LoadAll(store, [path]) == [EMPTY_CONFIG];
    LoadAllAppend(store, before, after);
  }

  lemma CandidatesWithInclude(projectDir: Option<Path>, customIncludes: seq<string>, k: nat, globalConfigPath: string)
    requires k < |customIncludes|
    ensures var project := if projectDir.Some? then [Render(projectDir.value) + MARKER_FILE] else [];
            CandidateFiles(projectDir, customIncludes, globalConfigPath)
            == (project + customIncludes[..k]) + [customIncludes[k]] + (customIncludes[k + 1..] + [globalConfigPath + MARKER_FILE])
  {
    assert customIncludes == customIncludes[..k] + [customIncludes[k]] + customIncludes[k + 1..];
  }

  lemma CandidatesWithoutInclude(projectDir: Option<Path>, customIncludes: seq<string>, k: nat, globalConfigPath: string)
    requires k < |customIncludes|
    ensures var project := if projectDir.Some? then [Render(projectDir.value) + MARKER_FILE] else [];
            CandidateFiles(projectDir, customIncludes[..k] + customIncludes[k + 1..], globalConfigPath)
            == (project + customIncludes[..k]) + (customIncludes[k + 1..] + [globalConfigPath + MARKER_FILE])
  {
  }

  /** A custom include that does not exist contributes nothing: dropping it gives the same resolution. */
  lemma MissingIncludeIgnored(
    commandName: string, customIncludes: seq<string>, k: nat,
    fs: FileSystem, blankFallsBack: bool, props: Properties)
    requires k < |customIncludes|
    requires customIncludes[k] !in fs.documents
    ensures Resolution(commandName, customIncludes, fs, blankFallsBack, props)
         == Resolution(commandName, customIncludes[..k] + customIncludes[k + 1..], fs, blankFallsBack, props)
  {
    var project := if ProjectDir(fs).Some? then [Render(ProjectDir(fs).value) + MARKER_FILE] else [];
    var global := [GlobalConfigPath(props, fs.executionDirectory, blankFallsBack) + MARKER_FILE];
    var before := project + customIncludes[..k];
    var after := customIncludes[k + 1..] + global;
    CandidatesWithInclude(ProjectDir(fs), customIncludes, k, GlobalConfigPath(props, fs.executionDirectory, blankFallsBack));
    CandidatesWithoutInclude(ProjectDir(fs), customIncludes, k, GlobalConfigPath(props, fs.executionDirectory, blankFallsBack));
    LoadAllDropMissing(fs.documents, before, customIncludes[k], after);
    AccumulatedSkipsEmpty(LoadAll(fs.documents, before), LoadAll(fs.documents, after));
  }

  lemma TaggedProviders(earlier: seq<Entry>, last: seq<Entry>, commandName: string)
    ensures var merged := Retag(earlier, Project) + Retag(last, Global);
            && (FirstMatchIndex(merged, commandName).None? <==> FirstMatchIndex(earlier + last, commandName).None?)
            && forall j :: 0 <= j < |merged| ==> merged[j].scope != Unscoped
  {
    var merged := Retag(earlier, Project) + Retag(last, Global);
    var all := earlier + last;
    forall j | 0 <= j < |all|
      ensures Provides(merged[j], commandName) == Provides(all[j], commandName)
    {
      if j < |earlier| {
        RetagProvides(earlier, Project, commandName, j);
      } else {
        RetagProvides(last, Global, commandName, j - |earlier|);
      }
    }
  }

  /** The merged list has a provider exactly when some document has one, and every merged entry is tagged. */
  lemma AccumulatedProviders(docs: seq<ProjectConfig>, commandName: string)
    requires docs != []
    ensures FirstMatchIndex(Accumulated(docs).images, commandName).None?
            <==> FirstMatchIndex(AllImages(docs), commandName).None?
    ensures forall j :: 0 <= j < |Accumulated(docs).images| ==> Accumulated(docs).images[j].scope != Unscoped
  {
    var n := |docs|;
    AccumulatedTags(docs);
    TaggedProviders(AllImages(docs[..n - 1]), docs[n - 1].images, commandName);
  }

  /**
   * Routing fails exactly when no entry of any loaded document provides the
   * command; a routed entry provides it and carries a merge scope.
   */
  lemma ResolutionFindsProvider(
    commandName: string, customIncludes: seq<string>, fs: FileSystem, blankFallsBack: bool, props: Properties)
    ensures var docs := LoadAll(fs.documents, Candidates(customIncludes, fs, blankFallsBack, props));
            Resolution(commandName, customIncludes, fs, blankFallsBack, props).Err?
            <==> FirstMatchIndex(AllImages(docs), commandName).None?
    ensures var r := Resolution(commandName, customIncludes, fs, blankFallsBack, props);
            r.Ok? ==> Provides(r.value, commandName) && r.value.scope != Unscoped
    ensures var r := Resolution(commandName, customIncludes, fs, blankFallsBack, props);
            r.Err? ==> r.error == CommandNotFound(commandName)
  {
    var docs := LoadAll(fs.documents, Candidates(customIncludes, fs, blankFallsBack, props));
    AccumulatedProviders(docs, commandName);
  }

  /** Appending entries after the first provider does not move it. */
  lemma FirstMatchPrefix(a: seq<Entry>, b: seq<Entry>, commandName: string, i: nat)
    requires FirstMatchIndex(a, commandName) == Some(i)
    ensures FirstMatchIndex(a + b, commandName) == Some(i)
  {
    assert forall j :: 0 <= j <= i ==> (a + b)[j] == a[j];
    FirstMatchIsFirst(a + b, commandName, i);
  }

  /** Tagging does not move the first provider. */
  lemma RetagFirstMatch(es: seq<Entry>, s: Scope, commandName: string, i: nat)
    requires FirstMatchIndex(es, commandName) == Some(i)
    ensures FirstMatchIndex(Retag(es, s), commandName) == Some(i)
  {
    forall j | 0 <= j <= i
      ensures Provides(Retag(es, s)[j], commandName) == Provides(es[j], commandName)
    {
      RetagProvides(es, s, commandName, j);
    }
    FirstMatchIsFirst(Retag(es, s), commandName, i);
  }

  lemma TaggedFirst(project: seq<Entry>, rest: seq<Entry>, last: seq<Entry>, commandName: string, i: nat)
    requires FirstMatchIndex(project, commandName) == Some(i)
    ensures Route(Retag(project + rest, Project) + Retag(last, Global), commandName) == Ok(project[i].(scope := Project))
  {
    var head := Retag(project, Project);
    var tail := Retag(rest, Project) + Retag(last, Global);
    MergedProjectPrefix(project, rest, last);
    RetagFirstMatch(project, Project, commandName, i);
    FirstMatchPrefix(head, tail, commandName, i);
    assert (head + tail)[i] == head[i];
  }

  /** The project document's tagged entries are a prefix of the merged list. */
  lemma MergedProjectPrefix(project: seq<Entry>, rest: seq<Entry>, last: seq<Entry>)
    ensures Retag(project + rest, Project) + Retag(last, Global) == Retag(project, Project) + (Retag(rest, Project) + Retag(last, Global))
  {
    RetagAppend(project, rest, Project);
  }

  lemma ProjectDocumentFirst(docs: seq<ProjectConfig>, commandName: string, i: nat)
    requires |docs| >= 2
    requires FirstMatchIndex(docs[0].images, commandName) == Some(i)
    ensures Route(Accumulated(docs).images, commandName) == Ok(docs[0].images[i].(scope := Project))
  {
    var n := |docs|;
    var init := docs[..n - 1];
    AllImagesFirst(init);
    assert init[0] == docs[0];
    AccumulatedTags(docs);
    TaggedFirst(docs[0].images, AllImages(init[1..]), docs[n - 1].images, commandName, i);
  }

  /** A command the project document provides is routed there, tagged Project, whatever the other documents hold. */
  lemma ProjectEntryWins(
    commandName: string, customIncludes: seq<string>, fs: FileSystem, blankFallsBack: bool, props: Properties, i: nat)
    requires ProjectDir(fs).Some?
    requires FirstMatchIndex(LoadProjectConfig(fs.documents, Render(ProjectDir(fs).value) + MARKER_FILE).images, commandName) == Some(i)
    ensures Resolution(commandName, customIncludes, fs, blankFallsBack, props)
         == Ok(LoadProjectConfig(fs.documents, Render(ProjectDir(fs).value) + MARKER_FILE).images[i].(scope := Project))
  {
    var files := Candidates(customIncludes, fs, blankFallsBack, props);
    ProjectDocumentFirst(LoadAll(fs.documents, files), commandName, i);
  }

  lemma TaggedLast(earlier: seq<Entry>, last: seq<Entry>, commandName: string, g: nat)
    requires FirstMatchIndex(earlier, commandName).None?
    requires FirstMatchIndex(last, commandName) == Some(g)
    ensures Route(Retag(earlier, Project) + Retag(last, Global), commandName) == Ok(last[g].(scope := Global))
  {
    var merged := Retag(earlier, Project) + Retag(last, Global);
    forall j | 0 <= j < |earlier|
      ensures !Provides(merged[j], commandName)
    {
      RetagProvides(earlier, Project, commandName, j);
    }
    assert forall j :: 0 <= j <= g ==> merged[|earlier| + j] == last[j].(scope := Global);
    FirstMatchIsFirst(merged, commandName, |earlier| + g);
  }

  lemma GlobalDocumentLast(docs: seq<ProjectConfig>, commandName: string, g: nat)
    requires docs != []
    requires forall i :: 0 <= i < |docs| - 1 ==> FirstMatchIndex(docs[i].images, commandName).None?
    requires FirstMatchIndex(docs[|docs| - 1].images, commandName) == Some(g)
    ensures Route(Accumulated(docs).images, commandName) == Ok(docs[|docs| - 1].images[g].(scope := Global))
  {
    var n := |docs|;
    var init := docs[..n - 1];
    assert forall i :: 0 <= i < |init| ==> init[i] == docs[i];
    AllImagesNoProvider(init, commandName);
    AccumulatedTags(docs);
    TaggedLast(AllImages(init), docs[n - 1].images, commandName, g);
  }

  /**
   * When only the global document provides the command, the entry comes from
   * it and is tagged Global.
   */
  lemma GlobalEntryIsFallback(
    commandName: string, customIncludes: seq<string>, fs: FileSystem, blankFallsBack: bool, props: Properties, g: nat)
    requires var files := Candidates(customIncludes, fs, blankFallsBack, props);
             forall i :: 0 <= i < |files| - 1 ==>
               FirstMatchIndex(LoadProjectConfig(fs.documents, files[i]).images, commandName).None?
    requires FirstMatchIndex(LoadProjectConfig(fs.documents,
               GlobalConfigPath(props, fs.executionDirectory, blankFallsBack) + MARKER_FILE).images, commandName) == Some(g)
    ensures Resolution(commandName, customIncludes, fs, blankFallsBack, props)
         == Ok(LoadProjectConfig(fs.documents,
               GlobalConfigPath(props, fs.executionDirectory, blankFallsBack) + MARKER_FILE).images[g].(scope := Global))
  {
    var files := Candidates(customIncludes, fs, blankFallsBack, props);
    GlobalDocumentLast(LoadAll(fs.documents, files), commandName, g);
  }
}
