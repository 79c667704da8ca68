/** The deployment plugin built from plugins/deployment/deployment.go: a
    client with no state of its own whose methods take the cluster client
    as an argument, and its manifest-data struct. */
module DeploymentPlugin {
  import opened Common
  import opened Kube
  import opened KubeCluster

  class KubeDeploymentClient {

    constructor ()
    {
    }

    /** Create `deployment` in `namespace` ("default" when empty) and return
        the name the cluster gave it. */
    method CreateResource(deployment: ObjectMeta, namespace: string, kubeclient: Cluster)
        returns (name: string, err: Option<string>)
      modifies kubeclient
      ensures kubeclient.namespaces == old(kubeclient.namespaces)
      ensures var ns := EffectiveNamespace(namespace);
        if deployment.name in old(kubeclient.state.Listed(DeploymentKind, ns)) then
          name == "" && err == Some(Wrap("Create Deployment error", AlreadyExists(deployment.name)))
          && kubeclient.state == old(kubeclient.state)
        else
          name == deployment.name && err == None
          && kubeclient.state == old(kubeclient.state).Created(DeploymentKind, ns, deployment.name)
    {
      var ns := EffectiveNamespace(namespace);
      var created, e := kubeclient.Create(DeploymentKind, ns, deployment.name);
      if e != None {
        return "", Some(Wrap("Create Deployment error", e.value));
      }
      return created, None;
    }

    /** The deployments of `namespace` in listing order, at most `limit`
        (all for 0). Go's `make` panics on a negative capacity. */
    method ListResources(limit: int, namespace: string, kubeclient: Cluster) returns (result: seq<string>)
      requires limit >= 0
      ensures result == Page(kubeclient.state.Listed(DeploymentKind, EffectiveNamespace(namespace)), limit)
    {
      var ns := EffectiveNamespace(namespace);
      var items := kubeclient.List(DeploymentKind, ns, limit);
      result := [];
      for i := 0 to |items|
        invariant result == items[..i]
      {
        result := result + [items[i]];
      }
      assert items[..|items|] == items;
    }

    /** Delete the deployment named `internalVNFID` from `namespace`. */
    method DeleteResource(internalVNFID: string, namespace: string, kubeclient: Cluster) returns (err: Option<string>)
      modifies kubeclient
      ensures kubeclient.namespaces == old(kubeclient.namespaces)
      ensures var ns := EffectiveNamespace(namespace);
        if internalVNFID in old(kubeclient.state.Listed(DeploymentKind, ns)) then
          err == None && kubeclient.state == old(kubeclient.state).Deleted(DeploymentKind, ns, internalVNFID)
        else
          err == Some(Wrap("Delete Deployment error", NotFound(internalVNFID)))
          && kubeclient.state == old(kubeclient.state)
    {
      var ns := EffectiveNamespace(namespace);
      var e := kubeclient.Delete(DeploymentKind, ns, internalVNFID);
      if e != None {
        return Some(Wrap("Delete Deployment error", e.value));
      }
      return None;
    }

    /** `internalVNFID` when it is among the first ten deployments listed in
        `namespace`, "" otherwise. */
    method GetResource(internalVNFID: string, namespace: string, kubeclient: Cluster) returns (name: string)
      ensures var listed := Page(kubeclient.state.Listed(DeploymentKind, EffectiveNamespace(namespace)), 10);
        (internalVNFID in listed ==> name == internalVNFID) && (internalVNFID !in listed ==> name == "")
    {
      var ns := EffectiveNamespace(namespace);
      var items := kubeclient.List(DeploymentKind, ns, 10);
      for i := 0 to |items|
        invariant internalVNFID !in items[..i]
      {
        if items[i] == internalVNFID {
          return internalVNFID;
        }
      }
      assert items[..|items|] == items;
      return "";
    }
  }

  class KubeDeploymentData {
    var DeploymentData: Option<Bytes>
    var Deployment: Option<ObjectMeta>

    constructor ()
      ensures DeploymentData == None && Deployment == None
    {
      DeploymentData, Deployment := None, None;
    }

    /** Read the manifest at `yamlFilePath` and decode it; a path that does
        not exist is not an error and changes nothing. */
    method ReadYAML(yamlFilePath: string, fs: FileSystem, decode: Decoder) returns (err: Option<string>)
      modifies this
      ensures yamlFilePath !in fs ==>
        err == None && DeploymentData == old(DeploymentData) && Deployment == old(Deployment)
      ensures yamlFilePath in fs ==>
        DeploymentData == Some(fs[yamlFilePath])
        && (Deployment, err) == ParseOutcome(DeploymentKind, Some(fs[yamlFilePath]), old(Deployment), decode)
    {
      err := None;
      if yamlFilePath in fs {
        DeploymentData := Some(fs[yamlFilePath]);
        err := ParseYAML(decode);
      }
    }

    /** Decode `DeploymentData`; only a decoded Deployment replaces
        `Deployment`. */
    method ParseYAML(decode: Decoder) returns (err: Option<string>)
      modifies this
      ensures DeploymentData == old(DeploymentData)
      ensures (Deployment, err) == ParseOutcome(DeploymentKind, old(DeploymentData), old(Deployment), decode)
    {
      err := None;
      if DeploymentData != None {
        var obj := decode(DeploymentData.value);
        if obj.Err? {
          return Some(Wrap("Deserialize deployment error", obj.error));
        }
        if obj.value.DeploymentObject? {
          Deployment := Some(obj.value.meta);
        }
      }
    }
  }

  /** A data struct with no bytes and no decoded deployment. */
  method CreateKubeData() returns (res: KubeDeploymentData)
    ensures fresh(res)
    ensures res.DeploymentData == None && res.Deployment == None
  {
    res := new KubeDeploymentData();
  }
}
