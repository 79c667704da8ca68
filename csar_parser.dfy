/** csarParser/csarParser.go: the multi-resource orchestrator. CreateVNF
    walks the sequence file of a CSAR entry by entry and, within an entry,
    kind by kind and file by file: it decodes each manifest through the
    plugin registered for the kind, renames the object after the instance
    and creates it through the kind's client, and records the internal
    names per kind. DestroyVNF deletes every recorded name.

    The plugin registry (Go plugins looked up by symbol name) is a map; the
    cluster is the KubeCluster model. Go map iteration order, which the
    source leaves unspecified, is an explicit input sequence. */
module CsarParser {
  import opened Common
  import opened Kube
  import opened KubeCluster
  import opened Naming
  import Utils
  import Plugins

  /** One `resource -> file names` pair of a sequence entry. */
  datatype KindFiles = KindFiles(kind: string, files: seq<string>)

  /** One map of the `resources` list, as its pairs in iteration order. */
  type Entry = seq<KindFiles>

  datatype SequenceFile = SequenceFile(resourceTypePathMap: seq<Entry>)

  /** `yaml.Unmarshal` into a SequenceFile, a library call taken as a parameter. */
  type SequenceParser = Bytes -> Result<SequenceFile>

  /** Read the sequence file; a file that does not exist is no error and
      gives an empty sequence. */
  function ReadSequenceFile(yamlFilePath: string, fs: FileSystem, parse: SequenceParser): (r: Result<SequenceFile>)
    ensures yamlFilePath !in fs ==> r == Ok(SequenceFile([]))
    ensures yamlFilePath in fs && parse(fs[yamlFilePath]).Err? ==>
      r == Err(Wrap("Sequence YAML file read error", parse(fs[yamlFilePath]).error))
  {
    if yamlFilePath !in fs then Ok(SequenceFile([]))
    else match parse(fs[yamlFilePath])
      case Err(e) => Err(Wrap("Sequence YAML file read error", e))
      case Ok(f) => Ok(f)
  }

  /** What a loaded plugin exports under a symbol name, by type. */
  datatype Symbol = DeploymentDataSymbol | ServiceDataSymbol | ResourceClientSymbol | OtherSymbol

  /** `plugins.LoadedPlugins`: resource name -> the plugin's exported symbols. */
  type Registry = map<string, map<string, Symbol>>

  /** The symbols of the plugin loaded for `resourceName`. A plugin that was
      never loaded is taken to export nothing. */
  function Symbols(registry: Registry, resourceName: string): map<string, Symbol> {
    if resourceName in registry then registry[resourceName] else map[]
  }

  function SymbolNotFound(symName: string): string {
    "plugin: symbol " + symName + " not found"
  }

  /** The resource name of a kind, as in the sequence file and the record. */
  function ResourceName(kind: Kind): string {
    match kind
    case DeploymentKind => "deployment"
    case ServiceKind => "service"
  }

  /** The kind a resource name selects, if any. */
  function KindOf(resourceName: string): (kind: Option<Kind>)
    ensures kind.Some? <==> resourceName == "deployment" || resourceName == "service"
    ensures kind.Some? ==> ResourceName(kind.value) == resourceName
  {
    if resourceName == "deployment" then Some(DeploymentKind)
    else if resourceName == "service" then Some(ServiceKind)
    else None
  }

  function DataSymbolName(kind: Kind): string {
    match kind
    case DeploymentKind => "DeploymentData"
    case ServiceKind => "ServiceData"
  }

  function DataSymbol(kind: Kind): Symbol {
    match kind
    case DeploymentKind => DeploymentDataSymbol
    case ServiceKind => ServiceDataSymbol
  }

  function ClientSymbolName(kind: Kind): string {
    match kind
    case DeploymentKind => "KubeDeploymentClient"
    case ServiceKind => "KubeServiceClient"
  }

  function NilObjectError(kind: Kind): string {
    match kind
    case DeploymentKind => "Read deploymentData.Deployment error"
    case ServiceKind => "Read serviceData.Service error"
  }

  function CreateError(kind: Kind): string {
    match kind
    case DeploymentKind => "Create Deployment error"
    case ServiceKind => "Create Service error"
  }

  function DeleteError(kind: Kind): string {
    match kind
    case DeploymentKind => "Delete Deployment error"
    case ServiceKind => "Delete Service error"
  }

  /** The orchestrator's error for a listed file that does not exist; the
      source puts no space between the path and "does not exists". */
  function MissingFile(path: string): string {
    "File " + path + "does not exists"
  }

  /** What the process reads besides its arguments: the CSAR root
      (`CSAR_DIR`), the files, the two decoders and the loaded plugins. */
  datatype World = World(csarRoot: string, fs: FileSystem, parse: SequenceParser, decode: Decoder, registry: Registry)

  /** What one CreateVNF call works with. */
  datatype Env = Env(csarDirPath: string, internalVNFID: string, namespace: string,
                     fs: FileSystem, decode: Decoder, registry: Registry)

  function EnvOf(world: World, csarID: string, cloudRegionID: string, namespace: string, externalVNFID: string): Env {
    Env(world.csarRoot + "/" + csarID, InternalVNFID(cloudRegionID, namespace, externalVNFID), namespace,
        world.fs, world.decode, world.registry)
  }

  /** resource name -> internal names created for it. */
  type Record = map<string, seq<string>>

  /** One file's outcome: the internal name created, or the error; and the cluster after. */
  datatype Step = Step(result: Result<string>, state: State)

  /** A run's outcome: the record so far, or the error that ended it; and the cluster after. */
  datatype Run = Run(result: Result<Record>, state: State)

  /** Processing one listed file of `kind`: check it exists, fetch the
      plugin's data struct, read and parse the manifest, rename the object
      after the instance, fetch the plugin's client and create it. */
  function CreateFile(kind: Kind, filename: string, env: Env, st: State): Step {
    var resourceName := ResourceName(kind);
    var path := Utils.ManifestPath(env.csarDirPath, filename);
    var typePlugin := Symbols(env.registry, resourceName);
    if path !in env.fs then Step(Err(MissingFile(path)), st)
    else if DataSymbolName(kind) !in typePlugin then
      Step(Err(Wrap("Error fetching " + resourceName + "plugin data", SymbolNotFound(DataSymbolName(kind)))), st)
    else if typePlugin[DataSymbolName(kind)] != DataSymbol(kind) then
      Step(Err("Error loading " + resourceName + " plugin data"), st)
    else
      var (read, readErr) := ParseOutcome(kind, Some(env.fs[path]), None, env.decode);
      if readErr.Some? then Step(Err(Wrap("Error Parsing " + filename + ".yaml", readErr.value)), st)
      else
        var (parsed, parseErr) := ParseOutcome(kind, Some(env.fs[path]), read, env.decode);
        if parseErr.Some? then Step(Err(Wrap("Error Reading " + filename + ".yaml", parseErr.value)), st)
        else if parsed.None? then Step(Err(NilObjectError(kind)), st)
        else
          var internalName := InternalName(env.internalVNFID, parsed.value.name);
          if ClientSymbolName(kind) !in typePlugin then
            Step(Err(Wrap("Error fetching " + resourceName + "plugin client", SymbolNotFound(ClientSymbolName(kind)))), st)
          else if typePlugin[ClientSymbolName(kind)] != ResourceClientSymbol then
            Step(Err("Error loading " + resourceName + " plugin client"), st)
          else
            var ns := EffectiveNamespace(env.namespace);
            if internalName in st.Listed(kind, ns) then
              Step(Err(Wrap("Error creating " + resourceName, Wrap(CreateError(kind), AlreadyExists(internalName)))), st)
            else Step(Ok(internalName), st.Created(kind, ns, internalName))
  }

  /** The files of one kind within one entry, from the names recorded so
      far for that entry; after each file the kind's record is the list so far. */
  function CreateFiles(kind: Kind, files: seq<string>, env: Env, st: State, names: seq<string>, record: Record): Run
    decreases |files|
  {
    if files == [] then Run(Ok(record), st)
    else
      var step := CreateFile(kind, files[0], env, st);
      if step.result.Err? then Run(Err(step.result.error), step.state)
      else
        var names' := names + [step.result.value];
        CreateFiles(kind, files[1..], env, step.state, names', record[ResourceName(kind) := names'])
  }

  /** The pairs of one entry; each kind starts its list afresh. */
  function CreateKinds(kinds: Entry, env: Env, st: State, record: Record): Run
    decreases |kinds|
  {
    if kinds == [] then Run(Ok(record), st)
    else
      match KindOf(kinds[0].kind)
      case None => Run(Err(kinds[0].kind + " resource type not supported."), st)
      case Some(kind) =>
        var r := CreateFiles(kind, kinds[0].files, env, st, [], record);
        if r.result.Err? then r else CreateKinds(kinds[1..], env, r.state, r.result.value)
  }

  /** The remaining pairs of an entry after `r`, unless `r` failed. */
  function ThenKinds(r: Run, kinds: Entry, env: Env): Run {
    if r.result.Err? then r else CreateKinds(kinds, env, r.state, r.result.value)
  }

  function CreateEntries(entries: seq<Entry>, env: Env, st: State, record: Record): Run
    decreases |entries|
  {
    if entries == [] then Run(Ok(record), st)
    else
      var r := CreateKinds(entries[0], env, st, record);
      if r.result.Err? then r else CreateEntries(entries[1..], env, r.state, r.result.value)
  }

  /** The remaining entries after `r`, unless `r` failed. */
  function ThenEntries(r: Run, entries: seq<Entry>, env: Env): Run {
    if r.result.Err? then r else CreateEntries(entries, env, r.state, r.result.value)
  }

  function SequencePath(world: World, csarID: string): string {
    world.csarRoot + "/" + csarID + "/sequence.yaml"
  }

  /** The whole of CreateVNF on cluster state `st`. */
  function CreateVNFRun(csarID: string, cloudRegionID: string, namespace: string, externalVNFID: string,
                        world: World, st: State): Run
  {
    var sequenceYAMLPath := SequencePath(world, csarID);
    match ReadSequenceFile(sequenceYAMLPath, world.fs, world.parse)
    case Err(e) => Run(Err(Wrap("Error while reading Sequence File: " + sequenceYAMLPath, e)), st)
    case Ok(seqFile) =>
      CreateEntries(seqFile.resourceTypePathMap, EnvOf(world, csarID, cloudRegionID, namespace, externalVNFID), st, map[])
  }

  /** Create `meta` through the plugin client of `kind`. */
  method CreateWithClient(kind: Kind, meta: ObjectMeta, namespace: string, cluster: Cluster)
      returns (err: Option<string>)
    modifies cluster
    ensures cluster.namespaces == old(cluster.namespaces)
    ensures var ns := EffectiveNamespace(namespace);
      if meta.name in old(cluster.state).Listed(kind, ns) then
        err == Some(Wrap(CreateError(kind), AlreadyExists(meta.name))) && cluster.state == old(cluster.state)
      else err == None && cluster.state == old(cluster.state).Created(kind, ns, meta.name)
  {
    match kind
    case DeploymentKind =>
      var client := new Plugins.KubeDeploymentClient(cluster);
      var _, e := client.CreateResource(meta, namespace);
      err := e;
    case ServiceKind =>
      var client := new Plugins.KubeServiceClient(cluster);
      var _, e := client.CreateResource(meta, namespace);
      err := e;
  }

  /** Read and parse the manifest at `path` into a fresh copy of the data
      struct the plugin of `kind` exports; the declared object and the two
      errors, in the order they are checked. */
  method LoadManifest(kind: Kind, path: string, fs: FileSystem, decode: Decoder)
      returns (declared: Option<ObjectMeta>, readErr: Option<string>, parseErr: Option<string>)
    requires path in fs
    ensures var (read, e1) := ParseOutcome(kind, Some(fs[path]), None, decode);
      readErr == e1
      && (e1 == None ==> (declared, parseErr) == ParseOutcome(kind, Some(fs[path]), read, decode))
  {
    declared, parseErr := None, None;
    match kind
    case DeploymentKind =>
      var deploymentData := new Plugins.KubeDeploymentData();
      readErr := deploymentData.ReadYAML(path, fs, decode);
      if readErr == None {
        parseErr := deploymentData.ParseYAML(decode);
        declared := deploymentData.Deployment;
      }
    case ServiceKind =>
      var serviceData := new Plugins.KubeServiceData();
      readErr := serviceData.ReadYAML(path, fs, decode);
      if readErr == None {
        parseErr := serviceData.ParseYAML(decode);
        declared := serviceData.Service;
      }
  }

  /** The body of the per-file loop of CreateVNF, shared by both kinds. */
  method ProcessFile(kind: Kind, filename: string, env: Env, cluster: Cluster)
      returns (internalName: string, err: Option<string>)
    modifies cluster
    ensures cluster.namespaces == old(cluster.namespaces)
    ensures var step := CreateFile(kind, filename, env, old(cluster.state));
      cluster.state == step.state
      && (step.result.Ok? ==> err == None && internalName == step.result.value)
      && (step.result.Err? ==> err == Some(step.result.error))
  {
    internalName, err := "", None;
    var resourceName := ResourceName(kind);
    var path := Utils.ManifestPath(env.csarDirPath, filename);
    if path !in env.fs {
      return "", Some(MissingFile(path));
    }
    var typePlugin := Symbols(env.registry, resourceName);
    if DataSymbolName(kind) !in typePlugin {
      return "", Some(Wrap("Error fetching " + resourceName + "plugin data", SymbolNotFound(DataSymbolName(kind))));
    }
    if typePlugin[DataSymbolName(kind)] != DataSymbol(kind) {
      return "", Some("Error loading " + resourceName + " plugin data");
    }
    var declared, readErr, parseErr := LoadManifest(kind, path, env.fs, env.decode);
    if readErr != None {
      return "", Some(Wrap("Error Parsing " + filename + ".yaml", readErr.value));
    }
    if parseErr != None {
      return "", Some(Wrap("Error Reading " + filename + ".yaml", parseErr.value));
    }
    if declared == None {
      return "", Some(NilObjectError(kind));
    }
    internalName := InternalName(env.internalVNFID, declared.value.name);
    var renamed := Renamed(declared.value, internalName, env.namespace);
    if ClientSymbolName(kind) !in typePlugin {
      return "", Some(Wrap("Error fetching " + resourceName + "plugin client", SymbolNotFound(ClientSymbolName(kind))));
    }
    if typePlugin[ClientSymbolName(kind)] != ResourceClientSymbol {
      return "", Some("Error loading " + resourceName + " plugin client");
    }
    var createErr := CreateWithClient(kind, renamed, env.namespace, cluster);
    if createErr != None {
      return "", Some(Wrap("Error creating " + resourceName, createErr.value));
    }
  }

  /** Create every resource the CSAR's sequence file lists, in order, and
      return the external ID with the internal names created per kind; on
      failure, the error (what was created before stays in the cluster). */
  method CreateVNF(csarID: string, cloudRegionID: string, namespace: string, externalVNFID: string,
                   world: World, cluster: Cluster)
      returns (vnfID: string, resourceYAMLNameMap: Record, err: Option<string>)
    modifies cluster
    ensures cluster.namespaces == old(cluster.namespaces)
    ensures var run := CreateVNFRun(csarID, cloudRegionID, namespace, externalVNFID, world, old(cluster.state));
      cluster.state == run.state
      && (run.result.Ok? ==> vnfID == externalVNFID && resourceYAMLNameMap == run.result.value && err == None)
      && (run.result.Err? ==> vnfID == "" && resourceYAMLNameMap == map[] && err == Some(run.result.error))
  {
    var env := EnvOf(world, csarID, cloudRegionID, namespace, externalVNFID);
    var sequenceYAMLPath := SequencePath(world, csarID);
    assert sequenceYAMLPath == env.csarDirPath + "/sequence.yaml";
    var seqFile := ReadSequenceFile(sequenceYAMLPath, world.fs, world.parse);
    if seqFile.Err? {
      return "", map[], Some(Wrap("Error while reading Sequence File: " + sequenceYAMLPath, seqFile.error));
    }
    var entries := seqFile.value.resourceTypePathMap;
    ghost var s0 := cluster.state;
    ghost var total := CreateEntries(entries, env, s0, map[]);

    // The source declares this map without making it (csarParser.go:49), and
    // Go panics on the first assignment into a nil map; it starts empty here.
    resourceYAMLNameMap := map[];
    for e := 0 to |entries|
      invariant cluster.namespaces == old(cluster.namespaces)
      invariant total == CreateEntries(entries[e..], env, cluster.state, resourceYAMLNameMap)
    {
      var resource := entries[e];
      assert entries[e..][1..] == entries[e + 1..];
      for k := 0 to |resource|
        invariant cluster.namespaces == old(cluster.namespaces)
        invariant total == ThenEntries(CreateKinds(resource[k..], env, cluster.state, resourceYAMLNameMap),
                                       entries[e + 1..], env)
      {
        var resourceName := resource[k].kind;
        var resourceFileNames := resource[k].files;
        assert resource[k..][1..] == resource[k + 1..];
        var kind := KindOf(resourceName);
        if kind == None {
          return "", map[], Some(resourceName + " resource type not supported.");
        }
        var nameList: seq<string> := [];
        for f := 0 to |resourceFileNames|
          invariant cluster.namespaces == old(cluster.namespaces)
          invariant total == ThenEntries(ThenKinds(CreateFiles(kind.value, resourceFileNames[f..], env, cluster.state,
                                                               nameList, resourceYAMLNameMap),
                                                   resource[k + 1..], env),
                                         entries[e + 1..], env)
        {
          assert resourceFileNames[f..][1..] == resourceFileNames[f + 1..];
          var internalName, e := ProcessFile(kind.value, resourceFileNames[f], env, cluster);
          if e != None {
            return "", map[], e;
          }
          nameList := nameList + [internalName];
          resourceYAMLNameMap := resourceYAMLNameMap[resourceName := nameList];
        }
      }
    }
    return externalVNFID, resourceYAMLNameMap, None;
  }

  /** The name manifest `filename` declares for an object of `kind`. */
  function Declared(kind: Kind, filename: string, env: Env): string {
    var path := Utils.ManifestPath(env.csarDirPath, filename);
    if path !in env.fs then ""
    else match ParseOutcome(kind, Some(env.fs[path]), None, env.decode).0
      case Some(m) => m.name
      case None => ""
  }

  /** The internal names of the objects `files` declare, in file order. */
  function InternalNames(kind: Kind, files: seq<string>, env: Env): seq<string>
    decreases |files|
  {
    if files == [] then []
    else [InternalName(env.internalVNFID, Declared(kind, files[0], env))] + InternalNames(kind, files[1..], env)
  }

  /** `later` keeps every listing of `earlier` as a prefix, and every name
      it adds is in namespace `ns` and starts with `prefix`. */
  ghost predicate Grows(earlier: State, later: State, ns: string, prefix: string) {
    (forall kind, n :: earlier.Listed(kind, n) <= later.Listed(kind, n))
    && (forall kind, n, x :: x in later.Listed(kind, n) && x !in earlier.Listed(kind, n) ==> n == ns && prefix <= x)
  }

  /** Every name the record holds starts with `prefix`. */
  ghost predicate RecordPrefixed(record: Record, prefix: string) {
    forall k, x :: k in record && x in record[k] ==> prefix <= x
  }

  lemma CreatedGrows(st: State, kind: Kind, ns: string, name: string, prefix: string)
    requires prefix <= name
    ensures Grows(st, st.Created(kind, ns, name), ns, prefix)
  {
  }

  lemma GrowsTrans(a: State, b: State, c: State, ns: string, prefix: string)
    requires Grows(a, b, ns, prefix) && Grows(b, c, ns, prefix)
    ensures Grows(a, c, ns, prefix)
  {
    forall kind, n
      ensures a.Listed(kind, n) <= c.Listed(kind, n)
    {
      assert a.Listed(kind, n) <= b.Listed(kind, n) <= c.Listed(kind, n);
    }
  }

  lemma InternalNamePrefixed(internalVNFID: string, declaredName: string)
    ensures internalVNFID + "-" <= InternalName(internalVNFID, declaredName)
  {
    assert InternalName(internalVNFID, declaredName) == (internalVNFID + "-") + declaredName;
  }

  /** One file: a success creates exactly the internal name of what the
      manifest declares, in the request's namespace; nothing else changes. */
  lemma CreateFileCreatesInternalName(kind: Kind, filename: string, env: Env, st: State)
    ensures var step := CreateFile(kind, filename, env, st);
      var ns := EffectiveNamespace(env.namespace);
      Grows(st, step.state, ns, env.internalVNFID + "-")
      && (step.result.Ok? ==>
            step.result.value == InternalName(env.internalVNFID, Declared(kind, filename, env))
            && step.state == st.Created(kind, ns, step.result.value))
  {
    var path := Utils.ManifestPath(env.csarDirPath, filename);
    if path in env.fs {
      ParseTwice(kind, Some(env.fs[path]), None, env.decode);
    }
    var step := CreateFile(kind, filename, env, st);
    if step.result.Ok? {
      InternalNamePrefixed(env.internalVNFID, Declared(kind, filename, env));
      CreatedGrows(st, kind, EffectiveNamespace(env.namespace), step.result.value, env.internalVNFID + "-");
    }
  }

  lemma {:induction false} InternalNamesPrefixed(kind: Kind, files: seq<string>, env: Env)
    ensures forall x :: x in InternalNames(kind, files, env) ==> env.internalVNFID + "-" <= x
    decreases |files|
  {
    if files != [] {
      InternalNamePrefixed(env.internalVNFID, Declared(kind, files[0], env));
      InternalNamesPrefixed(kind, files[1..], env);
    }
  }

  lemma {:induction false} CreateFilesGrows(kind: Kind, files: seq<string>, env: Env, st: State,
                                           names: seq<string>, record: Record)
    ensures Grows(st, CreateFiles(kind, files, env, st, names, record).state,
                  EffectiveNamespace(env.namespace), env.internalVNFID + "-")
    decreases |files|
  {
    var ns, prefix := EffectiveNamespace(env.namespace), env.internalVNFID + "-";
    if files == [] {
    } else {
      var step := CreateFile(kind, files[0], env, st);
      CreateFileCreatesInternalName(kind, files[0], env, st);
      if step.result.Ok? {
        var names' := names + [step.result.value];
        CreateFilesGrows(kind, files[1..], env, step.state, names', record[ResourceName(kind) := names']);
        GrowsTrans(st, step.state, CreateFiles(kind, files, env, st, names, record).state, ns, prefix);
      }
    }
  }

  /** The files of one kind: on success the kind's record is the names
      recorded before followed by the internal names of the files, in file
      order, and the rest of the record is as it was. */
  lemma {:induction false} CreateFilesRecord(kind: Kind, files: seq<string>, env: Env, st: State,
                                            names: seq<string>, record: Record)
    ensures var r := CreateFiles(kind, files, env, st, names, record);
      r.result.Ok? ==>
        r.result.value == if files == [] then record
                          else record[ResourceName(kind) := names + InternalNames(kind, files, env)]
    decreases |files|
  {
    if files != [] {
      var step := CreateFile(kind, files[0], env, st);
      CreateFileCreatesInternalName(kind, files[0], env, st);
      if step.result.Ok? {
        var names' := names + [step.result.value];
        var rest := files[1..];
        CreateFilesRecord(kind, rest, env, step.state, names', record[ResourceName(kind) := names']);
        assert names' + InternalNames(kind, rest, env) == names + InternalNames(kind, files, env);
        if rest == [] {
          assert InternalNames(kind, files, env) == [step.result.value];
        } else {
          assert record[ResourceName(kind) := names'][ResourceName(kind) := names' + InternalNames(kind, rest, env)]
              == record[ResourceName(kind) := names' + InternalNames(kind, rest, env)];
        }
      }
    }
  }

  /** Within one entry the names recorded for a kind are the internal names
      of its files in file order; whatever an earlier entry recorded for
      that kind is replaced, not extended. */
  lemma FilesRecordedInOrder(kind: Kind, files: seq<string>, env: Env, st: State, record: Record)
    requires files != []
    ensures var r := CreateFiles(kind, files, env, st, [], record);
      r.result.Ok? ==>
        ResourceName(kind) in r.result.value
        && r.result.value[ResourceName(kind)] == InternalNames(kind, files, env)
        && forall k :: k != ResourceName(kind) ==> (k in r.result.value <==> k in record)
  {
    CreateFilesRecord(kind, files, env, st, [], record);
  }

  lemma {:induction false} CreateKindsGrows(kinds: Entry, env: Env, st: State, record: Record)
    ensures var r := CreateKinds(kinds, env, st, record);
      var prefix := env.internalVNFID + "-";
      Grows(st, r.state, EffectiveNamespace(env.namespace), prefix)
      && (r.result.Ok? && RecordPrefixed(record, prefix) ==> RecordPrefixed(r.result.value, prefix))
    decreases |kinds|
  {
    var ns, prefix := EffectiveNamespace(env.namespace), env.internalVNFID + "-";
    if kinds != [] {
      match KindOf(kinds[0].kind)
      case None =>
      case Some(kind) =>
        var r := CreateFiles(kind, kinds[0].files, env, st, [], record);
        CreateFilesGrows(kind, kinds[0].files, env, st, [], record);
        CreateFilesRecord(kind, kinds[0].files, env, st, [], record);
        InternalNamesPrefixed(kind, kinds[0].files, env);
        if r.result.Ok? {
          assert RecordPrefixed(record, prefix) ==> RecordPrefixed(r.result.value, prefix);
          CreateKindsGrows(kinds[1..], env, r.state, r.result.value);
          GrowsTrans(st, r.state, CreateKinds(kinds, env, st, record).state, ns, prefix);
        }
    }
  }

  lemma {:induction false} CreateEntriesGrows(entries: seq<Entry>, env: Env, st: State, record: Record)
    ensures var r := CreateEntries(entries, env, st, record);
      var prefix := env.internalVNFID + "-";
      Grows(st, r.state, EffectiveNamespace(env.namespace), prefix)
      && (r.result.Ok? && RecordPrefixed(record, prefix) ==> RecordPrefixed(r.result.value, prefix))
    decreases |entries|
  {
    if entries != [] {
      var r := CreateKinds(entries[0], env, st, record);
      CreateKindsGrows(entries[0], env, st, record);
      if r.result.Ok? {
        CreateEntriesGrows(entries[1..], env, r.state, r.result.value);
        GrowsTrans(st, r.state, CreateEntries(entries, env, st, record).state,
                   EffectiveNamespace(env.namespace), env.internalVNFID + "-");
      }
    }
  }

  /** Whatever its outcome, CreateVNF only adds to the cluster: every
      listing it started from is still there, in order (a failure leaves
      what was created before it), and every object it adds lies in the
      request's namespace and is named `internalVNFID-<declared name>`, as
      is every name in the record it returns. */
  lemma CreatedResourcesAreNamedForInstance(csarID: string, cloudRegionID: string, namespace: string,
                                            externalVNFID: string, world: World, st: State)
    ensures var run := CreateVNFRun(csarID, cloudRegionID, namespace, externalVNFID, world, st);
      var prefix := InternalVNFID(cloudRegionID, namespace, externalVNFID) + "-";
      Grows(st, run.state, EffectiveNamespace(namespace), prefix)
      && (run.result.Ok? ==> RecordPrefixed(run.result.value, prefix))
  {
    var env := EnvOf(world, csarID, cloudRegionID, namespace, externalVNFID);
    match ReadSequenceFile(SequencePath(world, csarID), world.fs, world.parse)
    case Err(_) =>
    case Ok(seqFile) =>
      CreateEntriesGrows(seqFile.resourceTypePathMap, env, st, map[]);
  }

  /** Without a sequence file CreateVNF creates nothing and succeeds with
      an empty record. */
  lemma NoSequenceFileCreatesNothing(csarID: string, cloudRegionID: string, namespace: string,
                                     externalVNFID: string, world: World, st: State)
    requires SequencePath(world, csarID) !in world.fs
    ensures CreateVNFRun(csarID, cloudRegionID, namespace, externalVNFID, world, st) == Run(Ok(map[]), st)
  {
  }

  /** A pair naming a kind other than deployment and service ends the call
      with that kind's name in the error, before any of its files. */
  lemma UnsupportedKindFails(kinds: Entry, env: Env, st: State, record: Record)
    requires kinds != [] && kinds[0].kind != "deployment" && kinds[0].kind != "service"
    ensures CreateKinds(kinds, env, st, record) == Run(Err(kinds[0].kind + " resource type not supported."), st)
  {
  }

  /** A listed file that does not exist ends the call with its path before
      it is decoded and before anything is created for it. */
  lemma MissingFileAborts(kind: Kind, files: seq<string>, env: Env, st: State, names: seq<string>, record: Record)
    requires files != [] && Utils.ManifestPath(env.csarDirPath, files[0]) !in env.fs
    ensures CreateFiles(kind, files, env, st, names, record)
         == Run(Err(MissingFile(Utils.ManifestPath(env.csarDirPath, files[0]))), st)
  {
  }

  /** Any failing file leaves the cluster as it was before that file. */
  lemma FailedFileKeepsCluster(kind: Kind, filename: string, env: Env, st: State)
    requires var step := CreateFile(kind, filename, env, st); step.result.Err?
    ensures CreateFile(kind, filename, env, st).state == st
  {
  }

  /** A manifest whose internal name the cluster already lists in the
      namespace ends the call with "Error creating <kind>" around the
      client's wrapped AlreadyExists error, and creates nothing. */
  lemma ExistingNameAborts(kind: Kind, filename: string, env: Env, st: State, declared: ObjectMeta)
    requires var path := Utils.ManifestPath(env.csarDirPath, filename);
      path in env.fs
      && env.decode(env.fs[path]).Ok? && MetaOfKind(kind, env.decode(env.fs[path]).value) == Some(declared)
    requires var typePlugin := Symbols(env.registry, ResourceName(kind));
      DataSymbolName(kind) in typePlugin && typePlugin[DataSymbolName(kind)] == DataSymbol(kind)
      && ClientSymbolName(kind) in typePlugin && typePlugin[ClientSymbolName(kind)] == ResourceClientSymbol
    requires InternalName(env.internalVNFID, declared.name) in st.Listed(kind, EffectiveNamespace(env.namespace))
    ensures var n := InternalName(env.internalVNFID, declared.name);
      CreateFile(kind, filename, env, st)
      == Step(Err(Wrap("Error creating " + ResourceName(kind), Wrap(CreateError(kind), AlreadyExists(n)))), st)
  {
    var path := Utils.ManifestPath(env.csarDirPath, filename);
    ParseTwice(kind, Some(env.fs[path]), None, env.decode);
  }

  // DestroyVNF

  /** A delete run's outcome: the error that ended it, if any; and the cluster after. */
  datatype Outcome = Outcome(err: Option<string>, state: State)

  /** Deleting `names` of `kind` through the plugin client, in order, up
      to the first failure. */
  function DeleteNames(kind: Kind, names: seq<string>, namespace: string, st: State): Outcome
    decreases |names|
  {
    if names == [] then Outcome(None, st)
    else
      var ns := EffectiveNamespace(namespace);
      if names[0] !in st.Listed(kind, ns) then
        Outcome(Some(Wrap("Error destroying " + names[0], Wrap(DeleteError(kind), NotFound(names[0])))), st)
      else DeleteNames(kind, names[1..], namespace, st.Deleted(kind, ns, names[0]))
  }

  /** The kinds of the record in the order `order` visits them. */
  function DestroyKinds(order: seq<string>, data: Record, namespace: string, registry: Registry, st: State): Outcome
    requires forall k :: k in order ==> k in data
    decreases |order|
  {
    if order == [] then Outcome(None, st)
    else
      var resourceName := order[0];
      match KindOf(resourceName)
      case None => Outcome(Some("Error unsupported " + resourceName), st)
      case Some(kind) =>
        var typePlugin := Symbols(registry, resourceName);
        if ClientSymbolName(kind) !in typePlugin then
          Outcome(Some(Wrap("Error fetching " + resourceName + "plugin client", SymbolNotFound(ClientSymbolName(kind)))), st)
        else if typePlugin[ClientSymbolName(kind)] != ResourceClientSymbol then
          Outcome(Some("Error loading " + resourceName + " plugin client"), st)
        else
          var o := DeleteNames(kind, data[resourceName], namespace, st);
          if o.err.Some? then o else DestroyKinds(order[1..], data, namespace, registry, o.state)
  }

  /** The remaining kinds after `o`, unless `o` failed. */
  function ThenDestroy(o: Outcome, order: seq<string>, data: Record, namespace: string, registry: Registry): Outcome
    requires forall k :: k in order ==> k in data
  {
    if o.err.Some? then o else DestroyKinds(order, data, namespace, registry, o.state)
  }

  /** Every name `later` lists, `earlier` listed in the same place. */
  ghost predicate Shrinks(earlier: State, later: State) {
    forall k, n, x :: x in later.Listed(k, n) ==> x in earlier.Listed(k, n)
  }

  lemma DeletedListing(st: State, kind: Kind, ns: string, name: string)
    ensures forall x :: x in st.Deleted(kind, ns, name).Listed(kind, ns) <==> x in st.Listed(kind, ns) && x != name
    ensures forall k, n :: (k, n) != (kind, ns) ==> st.Deleted(kind, ns, name).Listed(k, n) == st.Listed(k, n)
  {
  }

  lemma {:induction false} DeleteNamesRemovesNames(kind: Kind, names: seq<string>, namespace: string, st: State)
    ensures Shrinks(st, DeleteNames(kind, names, namespace, st).state)
    ensures var o := DeleteNames(kind, names, namespace, st);
      forall k, n :: (k, n) != (kind, EffectiveNamespace(namespace)) ==> o.state.Listed(k, n) == st.Listed(k, n)
    ensures var o := DeleteNames(kind, names, namespace, st);
      var ns := EffectiveNamespace(namespace);
      forall x :: x in st.Listed(kind, ns) && x !in o.state.Listed(kind, ns) ==> x in names
    ensures var o := DeleteNames(kind, names, namespace, st);
      var ns := EffectiveNamespace(namespace);
      o.err == None ==> forall x :: x in names ==> x in st.Listed(kind, ns) && x !in o.state.Listed(kind, ns)
    decreases |names|
  {
    var ns := EffectiveNamespace(namespace);
    if names != [] && names[0] in st.Listed(kind, ns) {
      var st1 := st.Deleted(kind, ns, names[0]);
      DeletedListing(st, kind, ns, names[0]);
      DeleteNamesRemovesNames(kind, names[1..], namespace, st1);
      var o := DeleteNames(kind, names, namespace, st);
      assert o == DeleteNames(kind, names[1..], namespace, st1);
      assert names[0] !in st1.Listed(kind, ns);
      forall k, n, x | x in o.state.Listed(k, n)
        ensures x in st.Listed(k, n)
      {
        if (k, n) != (kind, ns) {
          assert x in st1.Listed(k, n);
        }
      }
      forall x | x in st.Listed(kind, ns) && x !in o.state.Listed(kind, ns)
        ensures x in names
      {
        if x != names[0] {
          assert x in names[1..];
        }
      }
      if o.err == None {
        forall x | x in names
          ensures x in st.Listed(kind, ns) && x !in o.state.Listed(kind, ns)
        {
          if x != names[0] {
            assert x in names[1..];
          }
        }
      }
    }
  }

  lemma {:induction false} DestroyKindsRemovesRecorded(order: seq<string>, data: Record, namespace: string,
                                                      registry: Registry, st: State)
    requires forall k :: k in order ==> k in data
    ensures Shrinks(st, DestroyKinds(order, data, namespace, registry, st).state)
    ensures var o := DestroyKinds(order, data, namespace, registry, st);
      forall k, n :: n != EffectiveNamespace(namespace) ==> o.state.Listed(k, n) == st.Listed(k, n)
    ensures var o := DestroyKinds(order, data, namespace, registry, st);
      var ns := EffectiveNamespace(namespace);
      forall k, x :: x in st.Listed(k, ns) && x !in o.state.Listed(k, ns) ==>
        ResourceName(k) in data && x in data[ResourceName(k)]
    ensures var o := DestroyKinds(order, data, namespace, registry, st);
      var ns := EffectiveNamespace(namespace);
      o.err == None ==> forall k, x :: ResourceName(k) in order && x in data[ResourceName(k)] ==>
        x in st.Listed(k, ns) && x !in o.state.Listed(k, ns)
    ensures (exists k :: k in order && KindOf(k).None?) ==> DestroyKinds(order, data, namespace, registry, st).err.Some?
    decreases |order|
  {
    if order != [] {
      var resourceName := order[0];
      match KindOf(resourceName)
      case None =>
      case Some(kind) =>
        var typePlugin := Symbols(registry, resourceName);
        if ClientSymbolName(kind) in typePlugin && typePlugin[ClientSymbolName(kind)] == ResourceClientSymbol {
          var o := DeleteNames(kind, data[resourceName], namespace, st);
          DeleteNamesRemovesNames(kind, data[resourceName], namespace, st);
          if o.err.None? {
            var rest := order[1..];
            assert forall k :: k in rest ==> k in order;
            DestroyKindsRemovesRecorded(rest, data, namespace, registry, o.state);
            var final := DestroyKinds(order, data, namespace, registry, st);
            assert final == DestroyKinds(rest, data, namespace, registry, o.state);
            var ns := EffectiveNamespace(namespace);
            forall k, n | n != ns
              ensures final.state.Listed(k, n) == st.Listed(k, n)
            {
              assert (k, n) != (kind, ns);
            }
            forall k, x | x in st.Listed(k, ns) && x !in final.state.Listed(k, ns)
              ensures ResourceName(k) in data && x in data[ResourceName(k)]
            {
              if k != kind {
                assert o.state.Listed(k, ns) == st.Listed(k, ns);
              } else if x !in o.state.Listed(k, ns) {
                assert x in data[ResourceName(kind)];
              }
            }
            if final.err == None {
              forall k, x | ResourceName(k) in order && x in data[ResourceName(k)]
                ensures x in st.Listed(k, ns) && x !in final.state.Listed(k, ns)
              {
                if k == kind {
                  assert x in st.Listed(k, ns) && x !in o.state.Listed(k, ns);
                } else {
                  assert ResourceName(k) in rest;
                  assert o.state.Listed(k, ns) == st.Listed(k, ns);
                }
              }
            }
            if exists k :: k in order && KindOf(k).None? {
              var k :| k in order && KindOf(k).None?;
              assert k in rest;
            }
          }
        }
    }
  }

  /** DestroyVNF deletes only names the record lists for their kind, and
      only in the given namespace ("default" when empty): every other
      namespace is left as it was, whichever order the record's kinds are
      visited in. */
  lemma DestroyRemovesOnlyRecorded(order: seq<string>, data: Record, namespace: string, registry: Registry, st: State)
    requires Unique(order) && forall k :: k in order <==> k in data
    ensures Shrinks(st, DestroyKinds(order, data, namespace, registry, st).state)
    ensures var o := DestroyKinds(order, data, namespace, registry, st);
      forall k, n :: n != EffectiveNamespace(namespace) ==> o.state.Listed(k, n) == st.Listed(k, n)
    ensures var o := DestroyKinds(order, data, namespace, registry, st);
      var ns := EffectiveNamespace(namespace);
      forall k, x :: x in st.Listed(k, ns) && x !in o.state.Listed(k, ns) ==>
        ResourceName(k) in data && x in data[ResourceName(k)]
  {
    DestroyKindsRemovesRecorded(order, data, namespace, registry, st);
  }

  /** On success every recorded name of each kind existed and is gone, and
      nothing else is: the namespace's listing of a kind keeps exactly the
      names the record does not list for it. */
  lemma DestroySuccessRemovesAll(order: seq<string>, data: Record, namespace: string, registry: Registry, st: State)
    requires Unique(order) && forall k :: k in order <==> k in data
    ensures var o := DestroyKinds(order, data, namespace, registry, st);
      var ns := EffectiveNamespace(namespace);
      o.err == None ==>
        forall k, x :: ResourceName(k) in data ==>
          (x in data[ResourceName(k)] ==> x in st.Listed(k, ns))
          && (x in o.state.Listed(k, ns) <==> x in st.Listed(k, ns) && x !in data[ResourceName(k)])
  {
    DestroyKindsRemovesRecorded(order, data, namespace, registry, st);
  }

  /** A record holding a kind other than deployment and service cannot be
      destroyed without error, whatever the visiting order. */
  lemma DestroyUnsupportedFails(order: seq<string>, data: Record, namespace: string, registry: Registry, st: State)
    requires Unique(order) && forall k :: k in order <==> k in data
    requires exists k :: k in data && k != "deployment" && k != "service"
    ensures DestroyKinds(order, data, namespace, registry, st).err.Some?
  {
    DestroyKindsRemovesRecorded(order, data, namespace, registry, st);
    var k :| k in data && k != "deployment" && k != "service";
    assert k in order && KindOf(k).None?;
  }

  /** Delete `name` through the plugin client of `kind`. */
  method DeleteWithClient(kind: Kind, name: string, namespace: string, cluster: Cluster) returns (err: Option<string>)
    modifies cluster
    ensures cluster.namespaces == old(cluster.namespaces)
    ensures var ns := EffectiveNamespace(namespace);
      if name in old(cluster.state).Listed(kind, ns) then
        err == None && cluster.state == old(cluster.state).Deleted(kind, ns, name)
      else err == Some(Wrap(DeleteError(kind), NotFound(name))) && cluster.state == old(cluster.state)
  {
    match kind
    case DeploymentKind =>
      var client := new Plugins.KubeDeploymentClient(cluster);
      err := client.DeleteResource(name, namespace);
    case ServiceKind =>
      var client := new Plugins.KubeServiceClient(cluster);
      err := client.DeleteResource(name, namespace);
  }

  /** Delete every name of the record, kind by kind in `order` (the order
      Go's map iteration happens to give) and name by name in list order,
      stopping at the first failure. */
  method DestroyVNF(data: Record, order: seq<string>, namespace: string, registry: Registry, cluster: Cluster)
      returns (err: Option<string>)
    requires Unique(order) && forall k :: k in order <==> k in data
    modifies cluster
    ensures cluster.namespaces == old(cluster.namespaces)
    ensures Outcome(err, cluster.state) == DestroyKinds(order, data, namespace, registry, old(cluster.state))
  {
    ghost var total := DestroyKinds(order, data, namespace, registry, cluster.state);
    for i := 0 to |order|
      invariant cluster.namespaces == old(cluster.namespaces)
      invariant total == DestroyKinds(order[i..], data, namespace, registry, cluster.state)
    {
      var resourceName := order[i];
      var resourceList := data[resourceName];
      assert order[i..][1..] == order[i + 1..];
      var kind := KindOf(resourceName);
      if kind == None {
        return Some("Error unsupported " + resourceName);
      }
      var typePlugin := Symbols(registry, resourceName);
      if ClientSymbolName(kind.value) !in typePlugin {
        return Some(Wrap("Error fetching " + resourceName + "plugin client", SymbolNotFound(ClientSymbolName(kind.value))));
      }
      if typePlugin[ClientSymbolName(kind.value)] != ResourceClientSymbol {
        return Some("Error loading " + resourceName + " plugin client");
      }
      for j := 0 to |resourceList|
        invariant cluster.namespaces == old(cluster.namespaces)
        invariant total == ThenDestroy(DeleteNames(kind.value, resourceList[j..], namespace, cluster.state),
                                       order[i + 1..], data, namespace, registry)
      {
        assert resourceList[j..][1..] == resourceList[j + 1..];
        var e := DeleteWithClient(kind.value, resourceList[j], namespace, cluster);
        if e != None {
          return Some(Wrap("Error destroying " + resourceList[j], e.value));
        }
      }
    }
    return None;
  }
}
