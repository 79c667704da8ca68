/** The service plugin built from plugins/service/service.go: free
    functions that take the resource description and the cluster client as
    arguments. */
module ServicePlugin {
  import opened Common
  import opened Kube
  import opened KubeCluster
  import opened Naming

  /** The generic resource description the plugin reads and updates in
      place: target namespace, manifest path, owning instance, and the
      decoded service. */
  class GenericKubeResourceData {
    var Namespace: string
    var YamlFilePath: string
    var InternalVNFID: string
    var ServiceData: Option<ObjectMeta>

    constructor (namespace: string, yamlFilePath: string, internalVNFID: string)
      ensures Namespace == namespace && YamlFilePath == yamlFilePath && InternalVNFID == internalVNFID
      ensures ServiceData == None
    {
      Namespace, YamlFilePath, InternalVNFID := namespace, yamlFilePath, internalVNFID;
      ServiceData := None;
    }
  }

  /** The service whose name the plugin renames: the decoded one, or the one
      the description already held when the manifest is of another kind. */
  function DeclaredService(obj: KubeObject, held: Option<ObjectMeta>): Option<ObjectMeta> {
    if obj.ServiceObject? then Some(obj.meta) else held
  }

  /** Go dereferences `ServiceData` after decoding; the call needs a service
      to rename. */
  predicate CanRename(path: string, fs: FileSystem, decode: Decoder, held: Option<ObjectMeta>) {
    path in fs && decode(fs[path]).Ok? ==> DeclaredService(decode(fs[path]).value, held).Some?
  }

  /** Read and decode the manifest of `kubedata`, rename the service to
      `InternalVNFID + "-" + declared name`, place it in the namespace
      ("default" when empty) and create it. */
  method CreateResource(kubedata: GenericKubeResourceData, kubeclient: Cluster, fs: FileSystem, decode: Decoder)
      returns (name: string, err: Option<string>)
    requires CanRename(kubedata.YamlFilePath, fs, decode, kubedata.ServiceData)
    modifies kubedata, kubeclient
    ensures kubedata.Namespace == EffectiveNamespace(old(kubedata.Namespace))
    ensures kubedata.YamlFilePath == old(kubedata.YamlFilePath) && kubedata.InternalVNFID == old(kubedata.InternalVNFID)
    ensures kubeclient.namespaces == old(kubeclient.namespaces)
    ensures kubedata.YamlFilePath !in fs ==>
      name == "" && err == Some("File " + kubedata.YamlFilePath + " not found")
      && kubeclient.state == old(kubeclient.state) && kubedata.ServiceData == old(kubedata.ServiceData)
    ensures kubedata.YamlFilePath in fs && decode(fs[kubedata.YamlFilePath]).Err? ==>
      name == "" && err == Some(Wrap("Deserialize service error", decode(fs[kubedata.YamlFilePath]).error))
      && kubeclient.state == old(kubeclient.state) && kubedata.ServiceData == old(kubedata.ServiceData)
    ensures kubedata.YamlFilePath in fs && decode(fs[kubedata.YamlFilePath]).Ok? ==>
      var declared := DeclaredService(decode(fs[kubedata.YamlFilePath]).value, old(kubedata.ServiceData)).value;
      var internal := InternalName(kubedata.InternalVNFID, declared.name);
      kubedata.ServiceData == Some(Renamed(declared, internal, kubedata.Namespace))
      && if internal in old(kubeclient.state).Listed(ServiceKind, kubedata.Namespace) then
           name == "" && err == Some(Wrap("Create Service error", AlreadyExists(internal)))
           && kubeclient.state == old(kubeclient.state)
         else
           name == internal && err == None
           && kubeclient.state == old(kubeclient.state).Created(ServiceKind, kubedata.Namespace, internal)
  {
    if kubedata.Namespace == "" {
      kubedata.Namespace := DefaultNamespace;
    }
    if kubedata.YamlFilePath in fs {
      var rawBytes := fs[kubedata.YamlFilePath];
      var obj := decode(rawBytes);
      if obj.Err? {
        return "", Some(Wrap("Deserialize service error", obj.error));
      }
      if obj.value.ServiceObject? {
        kubedata.ServiceData := Some(obj.value.meta);
      }
      var declared := kubedata.ServiceData.value;
      var internalServiceName := InternalName(kubedata.InternalVNFID, declared.name);
      kubedata.ServiceData := Some(Renamed(declared, internalServiceName, kubedata.Namespace));
      var created, e := kubeclient.Create(ServiceKind, kubedata.Namespace, internalServiceName);
      if e != None {
        return "", Some(Wrap("Create Service error", e.value));
      }
      return created, None;
    }
    return "", Some("File " + kubedata.YamlFilePath + " not found");
  }

  /** The services of `namespace` in listing order, at most `limit` (all
      for 0). Go's `make` panics on a negative capacity. */
  method ListResources(limit: int, namespace: string, kubeclient: Cluster) returns (result: seq<string>)
    requires limit >= 0
    ensures result == Page(kubeclient.state.Listed(ServiceKind, EffectiveNamespace(namespace)), limit)
  {
    var ns := EffectiveNamespace(namespace);
    var items := kubeclient.List(ServiceKind, ns, limit);
    result := [];
    for i := 0 to |items|
      invariant result == items[..i]
    {
      result := result + [items[i]];
    }
    assert items[..|items|] == items;
  }

  /** Delete the service `name` from `namespace` ("default" when empty). */
  method DeleteResource(name: string, namespace: string, kubeclient: Cluster) returns (err: Option<string>)
    modifies kubeclient
    ensures kubeclient.namespaces == old(kubeclient.namespaces)
    ensures var ns := EffectiveNamespace(namespace);
      if name in old(kubeclient.state.Listed(ServiceKind, ns)) then
        err == None && kubeclient.state == old(kubeclient.state).Deleted(ServiceKind, ns, name)
      else
        err == Some(Wrap("Delete Service error", NotFound(name))) && kubeclient.state == old(kubeclient.state)
  {
    var ns := EffectiveNamespace(namespace);
    var e := kubeclient.Delete(ServiceKind, ns, name);
    if e != None {
      return Some(Wrap("Delete Service error", e.value));
    }
    return None;
  }

  /** `name` when it is among the first ten services listed in `namespace`,
      "" otherwise. */
  method GetResource(name: string, namespace: string, kubeclient: Cluster) returns (found: string)
    ensures var listed := Page(kubeclient.state.Listed(ServiceKind, EffectiveNamespace(namespace)), 10);
      (name in listed ==> found == name) && (name !in listed ==> found == "")
  {
    var ns := EffectiveNamespace(namespace);
    var items := kubeclient.List(ServiceKind, ns, 10);
    for i := 0 to |items|
      invariant name !in items[..i]
    {
      if name == items[i] {
        return name;
      }
    }
    assert items[..|items|] == items;
    return "";
  }
}
