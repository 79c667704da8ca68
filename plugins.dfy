/** The resource clients and manifest-data structs of the `plugins` package
    (plugins/deployment.go and plugins/service.go): each client holds the
    cluster API it talks to; each data struct holds the raw manifest bytes
    and the decoded object, and updates them in place. */
module Plugins {
  import opened Common
  import opened Kube
  import opened KubeCluster

  /** The names a client reports for a listing request: the listed names,
      in the order the cluster lists them. */
  function Listed(cluster: State, kind: Kind, namespace: string, limit: int): seq<string> {
    Page(cluster.Listed(kind, EffectiveNamespace(namespace)), limit)
  }

  class KubeDeploymentClient {
    const deploymentClient: Cluster

    constructor (client: Cluster)
      ensures deploymentClient == client
    {
      deploymentClient := client;
    }

    /** Create `deployment` in `namespace` ("default" when empty) and return
        the name the cluster gave it. */
    method CreateResource(deployment: ObjectMeta, namespace: string) returns (name: string, err: Option<string>)
      modifies deploymentClient
      ensures deploymentClient.namespaces == old(deploymentClient.namespaces)
      ensures var ns := EffectiveNamespace(namespace);
        if deployment.name in old(deploymentClient.state.Listed(DeploymentKind, ns)) then
          name == "" && err == Some(Wrap("Create Deployment error", AlreadyExists(deployment.name)))
          && deploymentClient.state == old(deploymentClient.state)
        else
          name == deployment.name && err == None
          && deploymentClient.state == old(deploymentClient.state).Created(DeploymentKind, ns, deployment.name)
    {
      var ns := EffectiveNamespace(namespace);
      var created, e := deploymentClient.Create(DeploymentKind, ns, deployment.name);
      if e != None {
        return "", Some(Wrap("Create Deployment error", e.value));
      }
      return created, None;
    }

    /** The names of the deployments in `namespace`, at most `limit` of them
        (all when `limit` is 0), in listing order. Go's `make` panics on a
        negative capacity, hence the precondition. */
    method ListResources(limit: int, namespace: string) returns (result: seq<string>)
      requires limit >= 0
      ensures result == Listed(deploymentClient.state, DeploymentKind, namespace, limit)
    {
      var ns := EffectiveNamespace(namespace);
      var items := deploymentClient.List(DeploymentKind, ns, limit);
      result := [];
      for i := 0 to |items|
        invariant result == items[..i]
      {
        result := result + [items[i]];
      }
      assert items[..|items|] == items;
    }

    /** Delete the deployment named `internalVNFID` from `namespace`. */
    method DeleteResource(internalVNFID: string, namespace: string) returns (err: Option<string>)
      modifies deploymentClient
      ensures deploymentClient.namespaces == old(deploymentClient.namespaces)
      ensures var ns := EffectiveNamespace(namespace);
        if internalVNFID in old(deploymentClient.state.Listed(DeploymentKind, ns)) then
          err == None && deploymentClient.state == old(deploymentClient.state).Deleted(DeploymentKind, ns, internalVNFID)
        else
          err == Some(Wrap("Delete Deployment error", NotFound(internalVNFID)))
          && deploymentClient.state == old(deploymentClient.state)
    {
      var ns := EffectiveNamespace(namespace);
      var e := deploymentClient.Delete(DeploymentKind, ns, internalVNFID);
      if e != None {
        return Some(Wrap("Delete Deployment error", e.value));
      }
      return None;
    }

    /** `internalVNFID` when it is among the first ten deployments listed in
        `namespace`, "" otherwise. */
    method GetResource(internalVNFID: string, namespace: string) returns (name: string)
      ensures internalVNFID in Listed(deploymentClient.state, DeploymentKind, namespace, 10) ==> name == internalVNFID
      ensures internalVNFID !in Listed(deploymentClient.state, DeploymentKind, namespace, 10) ==> name == ""
    {
      var ns := EffectiveNamespace(namespace);
      var items := deploymentClient.List(DeploymentKind, ns, 10);
      for i := 0 to |items|
        invariant internalVNFID !in items[..i]
      {
        if items[i] == internalVNFID {
          return internalVNFID;
        }
      }
      assert items[..|items|] == items;
      return "";
    }
  }

  class KubeDeploymentData {
    var DeploymentData: Option<Bytes>
    var Deployment: Option<ObjectMeta>

    constructor ()
      ensures DeploymentData == None && Deployment == None
    {
      DeploymentData, Deployment := None, None;
    }

    /** Read the manifest at `yamlFilePath` and decode it; a path that does
        not exist is not an error and changes nothing. */
    method ReadYAML(yamlFilePath: string, fs: FileSystem, decode: Decoder) returns (err: Option<string>)
      modifies this
      ensures yamlFilePath !in fs ==>
        err == None && DeploymentData == old(DeploymentData) && Deployment == old(Deployment)
      ensures yamlFilePath in fs ==>
        DeploymentData == Some(fs[yamlFilePath])
        && (Deployment, err) == ParseOutcome(DeploymentKind, Some(fs[yamlFilePath]), old(Deployment), decode)
    {
      err := None;
      if yamlFilePath in fs {
        DeploymentData := Some(fs[yamlFilePath]);
        err := ParseYAML(decode);
      }
    }

    /** Decode `DeploymentData`; only a decoded Deployment replaces
        `Deployment`. */
    method ParseYAML(decode: Decoder) returns (err: Option<string>)
      modifies this
      ensures DeploymentData == old(DeploymentData)
      ensures (Deployment, err) == ParseOutcome(DeploymentKind, old(DeploymentData), old(Deployment), decode)
    {
      err := None;
      if DeploymentData != None {
        var obj := decode(DeploymentData.value);
        if obj.Err? {
          return Some(Wrap("Deserialize deployment error", obj.error));
        }
        if obj.value.DeploymentObject? {
          Deployment := Some(obj.value.meta);
        }
      }
    }
  }

  class KubeServiceClient {
    const serviceClient: Cluster

    constructor (client: Cluster)
      ensures serviceClient == client
    {
      serviceClient := client;
    }

    /** Create `service` in `namespace` ("default" when empty) and return
        the name the cluster gave it. */
    method CreateResource(service: ObjectMeta, namespace: string) returns (name: string, err: Option<string>)
      modifies serviceClient
      ensures serviceClient.namespaces == old(serviceClient.namespaces)
      ensures var ns := EffectiveNamespace(namespace);
        if service.name in old(serviceClient.state.Listed(ServiceKind, ns)) then
          name == "" && err == Some(Wrap("Create Service error", AlreadyExists(service.name)))
          && serviceClient.state == old(serviceClient.state)
        else
          name == service.name && err == None
          && serviceClient.state == old(serviceClient.state).Created(ServiceKind, ns, service.name)
    {
      var ns := EffectiveNamespace(namespace);
      var created, e := serviceClient.Create(ServiceKind, ns, service.name);
      if e != None {
        return "", Some(Wrap("Create Service error", e.value));
      }
      return created, None;
    }

    /** The names of the services in `namespace`, at most `limit` of them
        (all when `limit` is 0), in listing order. */
    method ListResources(limit: int, namespace: string) returns (result: seq<string>)
      requires limit >= 0
      ensures result == Listed(serviceClient.state, ServiceKind, namespace, limit)
    {
      var ns := EffectiveNamespace(namespace);
      var items := serviceClient.List(ServiceKind, ns, limit);
      result := [];
      for i := 0 to |items|
        invariant result == items[..i]
      {
        result := result + [items[i]];
      }
      assert items[..|items|] == items;
    }

    /** Delete the service named `internalVNFID` from `namespace`. */
    method DeleteResource(internalVNFID: string, namespace: string) returns (err: Option<string>)
      modifies serviceClient
      ensures serviceClient.namespaces == old(serviceClient.namespaces)
      ensures var ns := EffectiveNamespace(namespace);
        if internalVNFID in old(serviceClient.state.Listed(ServiceKind, ns)) then
          err == None && serviceClient.state == old(serviceClient.state).Deleted(ServiceKind, ns, internalVNFID)
        else
          err == Some(Wrap("Delete Service error", NotFound(internalVNFID)))
          && serviceClient.state == old(serviceClient.state)
    {
      var ns := EffectiveNamespace(namespace);
      var e := serviceClient.Delete(ServiceKind, ns, internalVNFID);
      if e != None {
        return Some(Wrap("Delete Service error", e.value));
      }
      return None;
    }

    /** `internalVNFID` when it is among the first ten services listed in
        `namespace`, "" otherwise. */
    method GetResource(internalVNFID: string, namespace: string) returns (name: string)
      ensures internalVNFID in Listed(serviceClient.state, ServiceKind, namespace, 10) ==> name == internalVNFID
      ensures internalVNFID !in Listed(serviceClient.state, ServiceKind, namespace, 10) ==> name == ""
    {
      var ns := EffectiveNamespace(namespace);
      var items := serviceClient.List(ServiceKind, ns, 10);
      for i := 0 to |items|
        invariant internalVNFID !in items[..i]
      {
        if internalVNFID == items[i] {
          return internalVNFID;
        }
      }
      assert items[..|items|] == items;
      return "";
    }
  }

  class KubeServiceData {
    var ServiceData: Option<Bytes>
    var Service: Option<ObjectMeta>

    constructor ()
      ensures ServiceData == None && Service == None
    {
      ServiceData, Service := None, None;
    }

    /** Read the manifest at `yamlFilePath` and decode it; a path that does
        not exist is not an error and changes nothing. */
    method ReadYAML(yamlFilePath: string, fs: FileSystem, decode: Decoder) returns (err: Option<string>)
      modifies this
      ensures yamlFilePath !in fs ==>
        err == None && ServiceData == old(ServiceData) && Service == old(Service)
      ensures yamlFilePath in fs ==>
        ServiceData == Some(fs[yamlFilePath])
        && (Service, err) == ParseOutcome(ServiceKind, Some(fs[yamlFilePath]), old(Service), decode)
    {
      err := None;
      if yamlFilePath in fs {
        ServiceData := Some(fs[yamlFilePath]);
        err := ParseYAML(decode);
      }
    }

    /** Decode `ServiceData`; only a decoded Service replaces `Service`. */
    method ParseYAML(decode: Decoder) returns (err: Option<string>)
      modifies this
      ensures ServiceData == old(ServiceData)
      ensures (Service, err) == ParseOutcome(ServiceKind, old(ServiceData), old(Service), decode)
    {
      err := None;
      if ServiceData != None {
        var obj := decode(ServiceData.value);
        if obj.Err? {
          return Some(Wrap("Deserialize deployment error", obj.error));
        }
        if obj.value.ServiceObject? {
          Service := Some(obj.value.meta);
        }
      }
    }
  }
}
