/** utils/utils.go: the sequence file of the single-resource variant (one
    list of deployment manifests, one of service manifests) and the reading
    of a CSAR directory into one deployment and one service object. */
module Utils {
  import opened Common
  import opened Kube

  /** The sequence file: `deployment:` and `service:` file-name lists. */
  datatype FileOrder = FileOrder(dlist: seq<string>, slist: seq<string>)

  /** `yaml.Unmarshal` into a FileOrder, a library call taken as a parameter. */
  type OrderParser = Bytes -> Result<FileOrder>

  /** The objects a CSAR yields; `None` is a nil pointer. */
  datatype KubernetesData = KubernetesData(deployment: Option<ObjectMeta>, service: Option<ObjectMeta>)

  /** The lists ReadSequenceFile returns, or its error. */
  function SequenceLists(yamlFilePath: string, fs: FileSystem, parse: OrderParser): Result<FileOrder> {
    if yamlFilePath !in fs then Ok(FileOrder([], []))
    else match parse(fs[yamlFilePath])
      case Err(e) => Err(Wrap("Sequence YAML file read error", e))
      case Ok(f) => Ok(f)
  }

  /** Read the sequence file: no file gives two empty lists and no error;
      otherwise the parsed lists, element for element, order kept. */
  method ReadSequenceFile(yamlFilePath: string, fs: FileSystem, parse: OrderParser)
      returns (deploymentlist: seq<string>, servicelist: seq<string>, err: Option<string>)
    ensures yamlFilePath !in fs ==> deploymentlist == [] && servicelist == [] && err == None
    ensures yamlFilePath in fs && parse(fs[yamlFilePath]).Err? ==>
      deploymentlist == [] && servicelist == []
      && err == Some(Wrap("Sequence YAML file read error", parse(fs[yamlFilePath]).error))
    ensures yamlFilePath in fs && parse(fs[yamlFilePath]).Ok? ==>
      deploymentlist == parse(fs[yamlFilePath]).value.dlist
      && servicelist == parse(fs[yamlFilePath]).value.slist && err == None
  {
    deploymentlist, servicelist, err := [], [], None;
    if yamlFilePath in fs {
      var parsed := parse(fs[yamlFilePath]);
      if parsed.Err? {
        return [], [], Some(Wrap("Sequence YAML file read error", parsed.error));
      }
      var f := parsed.value;
      for i := 0 to |f.dlist|
        invariant deploymentlist == f.dlist[..i]
      {
        deploymentlist := deploymentlist + [f.dlist[i]];
      }
      for i := 0 to |f.slist|
        invariant deploymentlist == f.dlist
        invariant servicelist == f.slist[..i]
      {
        servicelist := servicelist + [f.slist[i]];
      }
      assert f.slist[..|f.slist|] == f.slist;
    }
  }

  function ManifestPath(csarDirPath: string, name: string): string {
    csarDirPath + "/" + name
  }

  function Missing(path: string): string {
    "File " + path + " does not exists"
  }

  /** Loading the manifests `names` of one kind in order, starting from the
      object `current`: the object the last one of that kind leaves, or the
      first failure (a missing file, a decode error). */
  function LoadFiles(kind: Kind, csarDirPath: string, names: seq<string>, fs: FileSystem, decode: Decoder,
                     current: Option<ObjectMeta>): Result<Option<ObjectMeta>>
    decreases |names|
  {
    if names == [] then Ok(current)
    else
      var path := ManifestPath(csarDirPath, names[0]);
      if path !in fs then Err(Missing(path))
      else
        var (obj, err) := ParseOutcome(kind, Some(fs[path]), current, decode);
        if err.Some? then Err(err.value)
        else LoadFiles(kind, csarDirPath, names[1..], fs, decode, obj)
  }

  /** What ReadCSARFromFileSystem returns for `csarID` under the CSAR root. */
  function ReadCSAR(csarRoot: string, csarID: string, fs: FileSystem, parse: OrderParser, decode: Decoder)
    : Result<KubernetesData>
  {
    var csarDirPath := csarRoot + "/" + csarID;
    var sequenceYAMLPath := csarDirPath + "/sequence.yaml";
    match SequenceLists(sequenceYAMLPath, fs, parse)
    case Err(_) => Err(Missing(sequenceYAMLPath))
    case Ok(order) =>
      match LoadFiles(DeploymentKind, csarDirPath, order.dlist, fs, decode, None)
      case Err(e) => Err(e)
      case Ok(deployment) =>
        match LoadFiles(ServiceKind, csarDirPath, order.slist, fs, decode, None)
        case Err(e) => Err(e)
        case Ok(service) => Ok(KubernetesData(deployment, service))
  }

  /** Read the sequence file of the CSAR, then every deployment manifest and
      then every service manifest, each in listed order. */
  method ReadCSARFromFileSystem(csarRoot: string, csarID: string, fs: FileSystem, parse: OrderParser, decode: Decoder)
      returns (kubeData: Result<KubernetesData>)
    ensures kubeData == ReadCSAR(csarRoot, csarID, fs, parse, decode)
  {
    var data := KubernetesData(None, None);
    var csarDirPath := csarRoot + "/" + csarID;
    var sequenceYAMLPath := csarDirPath + "/sequence.yaml";

    var dlist, slist, err := ReadSequenceFile(sequenceYAMLPath, fs, parse);
    if err != None {
      return Err(Missing(sequenceYAMLPath));
    }

    for i := 0 to |dlist|
      invariant LoadFiles(DeploymentKind, csarDirPath, dlist, fs, decode, None)
             == LoadFiles(DeploymentKind, csarDirPath, dlist[i..], fs, decode, data.deployment)
      invariant data.service == None
    {
      var path := ManifestPath(csarDirPath, dlist[i]);
      if path !in fs {
        return Err(Missing(path));
      }
      var (obj, e) := ParseOutcome(DeploymentKind, Some(fs[path]), data.deployment, decode);
      if e.Some? {
        return Err(e.value);
      }
      assert dlist[i..][1..] == dlist[i + 1..];
      data := data.(deployment := obj);
    }

    for i := 0 to |slist|
      invariant LoadFiles(DeploymentKind, csarDirPath, dlist, fs, decode, None) == Ok(data.deployment)
      invariant LoadFiles(ServiceKind, csarDirPath, slist, fs, decode, None)
             == LoadFiles(ServiceKind, csarDirPath, slist[i..], fs, decode, data.service)
    {
      var path := ManifestPath(csarDirPath, slist[i]);
      if path !in fs {
        return Err(Missing(path));
      }
      var (obj, e) := ParseOutcome(ServiceKind, Some(fs[path]), data.service, decode);
      if e.Some? {
        return Err(e.value);
      }
      assert slist[i..][1..] == slist[i + 1..];
      data := data.(service := obj);
    }
    return Ok(data);
  }

  /** The object a list of manifests of `kind` leaves when every one of them
      decodes: that of the last manifest of the kind, or `current`. */
  function LastOfKind(kind: Kind, objs: seq<KubeObject>, current: Option<ObjectMeta>): Option<ObjectMeta>
    decreases |objs|
  {
    if objs == [] then current
    else if MetaOfKind(kind, objs[|objs| - 1]).Some? then MetaOfKind(kind, objs[|objs| - 1])
    else LastOfKind(kind, objs[..|objs| - 1], current)
  }

  /** When every listed manifest exists and decodes, loading yields the
      object of the last manifest of the kind (later files override earlier
      ones, and files of another kind are skipped). */
  lemma {:induction false} LoadFilesLastWins(kind: Kind, csarDirPath: string, names: seq<string>, fs: FileSystem,
                                            decode: Decoder, current: Option<ObjectMeta>, objs: seq<KubeObject>)
    requires |objs| == |names|
    requires forall i :: 0 <= i < |names| ==>
      ManifestPath(csarDirPath, names[i]) in fs && decode(fs[ManifestPath(csarDirPath, names[i])]) == Ok(objs[i])
    ensures LoadFiles(kind, csarDirPath, names, fs, decode, current) == Ok(LastOfKind(kind, objs, current))
    decreases |names|
  {
    if names != [] {
      var next := match MetaOfKind(kind, objs[0]) case Some(m) => Some(m) case None => current;
      LoadFilesLastWins(kind, csarDirPath, names[1..], fs, decode, next, objs[1..]);
      LastOfKindCons(kind, objs, current);
    }
  }

  /** Peeling the first object off: its own object becomes the new start. */
  lemma {:induction false} LastOfKindCons(kind: Kind, objs: seq<KubeObject>, current: Option<ObjectMeta>)
    requires objs != []
    ensures LastOfKind(kind, objs, current)
         == LastOfKind(kind, objs[1..], match MetaOfKind(kind, objs[0]) case Some(m) => Some(m) case None => current)
    decreases |objs|
  {
    if |objs| > 1 {
      assert objs[1..][..|objs[1..]| - 1] == objs[..|objs| - 1][1..];
      LastOfKindCons(kind, objs[..|objs| - 1], current);
    }
  }

  /** A missing manifest aborts loading with its path, once every manifest
      before it has loaded; nothing after it is looked at. */
  lemma {:induction false} LoadFilesMissing(kind: Kind, csarDirPath: string, names: seq<string>, fs: FileSystem,
                                           decode: Decoder, current: Option<ObjectMeta>, j: nat)
    requires j < |names| && ManifestPath(csarDirPath, names[j]) !in fs
    requires forall i :: 0 <= i < j ==>
      ManifestPath(csarDirPath, names[i]) in fs && decode(fs[ManifestPath(csarDirPath, names[i])]).Ok?
    ensures LoadFiles(kind, csarDirPath, names, fs, decode, current) == Err(Missing(ManifestPath(csarDirPath, names[j])))
    decreases j
  {
    if j > 0 {
      var path := ManifestPath(csarDirPath, names[0]);
      var (obj, err) := ParseOutcome(kind, Some(fs[path]), current, decode);
      LoadFilesMissing(kind, csarDirPath, names[1..], fs, decode, obj, j - 1);
    }
  }

  /** The sequence file is optional: without it nothing is loaded and the
      CSAR yields neither object, without error. */
  lemma NoSequenceFile(csarRoot: string, csarID: string, fs: FileSystem, parse: OrderParser, decode: Decoder)
    requires csarRoot + "/" + csarID + "/sequence.yaml" !in fs
    ensures ReadCSAR(csarRoot, csarID, fs, parse, decode) == Ok(KubernetesData(None, None))
  {
  }

  /** Any error reading the sequence file is reported as a missing file. */
  lemma SequenceErrorIsMissing(csarRoot: string, csarID: string, fs: FileSystem, parse: OrderParser, decode: Decoder)
    requires var p := csarRoot + "/" + csarID + "/sequence.yaml"; p in fs && parse(fs[p]).Err?
    ensures ReadCSAR(csarRoot, csarID, fs, parse, decode) == Err(Missing(csarRoot + "/" + csarID + "/sequence.yaml"))
  {
  }

  /** A failing deployment manifest decides the result: no service manifest
      is consulted, and no data is returned. */
  lemma DeploymentsFirst(csarRoot: string, csarID: string, fs: FileSystem, parse: OrderParser, decode: Decoder)
    requires var p := csarRoot + "/" + csarID + "/sequence.yaml"; p in fs && parse(fs[p]).Ok?
    requires LoadFiles(DeploymentKind, csarRoot + "/" + csarID,
                       parse(fs[csarRoot + "/" + csarID + "/sequence.yaml"]).value.dlist, fs, decode, None).Err?
    ensures ReadCSAR(csarRoot, csarID, fs, parse, decode)
         == Err(LoadFiles(DeploymentKind, csarRoot + "/" + csarID,
                          parse(fs[csarRoot + "/" + csarID + "/sequence.yaml"]).value.dlist, fs, decode, None).error)
  {
  }

  /** The mock CSAR: one deployment manifest declaring sise-deploy and one
      service manifest declaring sise-svc give exactly those two objects. */
  lemma MockCsar(fs: FileSystem, parse: OrderParser, decode: Decoder)
    requires "./mock_yamls/sequence.yaml" in fs
    requires parse(fs["./mock_yamls/sequence.yaml"]) == Ok(FileOrder(["deployment.yaml"], ["service.yaml"]))
    requires "./mock_yamls/deployment.yaml" in fs && "./mock_yamls/service.yaml" in fs
    requires decode(fs["./mock_yamls/deployment.yaml"]) == Ok(DeploymentObject(ObjectMeta("sise-deploy", "")))
    requires decode(fs["./mock_yamls/service.yaml"]) == Ok(ServiceObject(ObjectMeta("sise-svc", "")))
    ensures ReadCSAR(".", "mock_yamls", fs, parse, decode)
         == Ok(KubernetesData(Some(ObjectMeta("sise-deploy", "")), Some(ObjectMeta("sise-svc", ""))))
  {
    var dir := "." + "/" + "mock_yamls";
    assert dir == "./mock_yamls";
    assert dir + "/sequence.yaml" == "./mock_yamls/sequence.yaml";
    assert ManifestPath(dir, "deployment.yaml") == "./mock_yamls/deployment.yaml";
    assert ManifestPath(dir, "service.yaml") == "./mock_yamls/service.yaml";
    assert ["deployment.yaml"][1..] == [] && ["service.yaml"][1..] == [];
    assert LoadFiles(DeploymentKind, dir, ["deployment.yaml"], fs, decode, None) == Ok(Some(ObjectMeta("sise-deploy", "")));
    assert LoadFiles(ServiceKind, dir, ["service.yaml"], fs, decode, None) == Ok(Some(ObjectMeta("sise-svc", "")));
  }
}
