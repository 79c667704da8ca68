/** api/handler.go: the request logic of the single-resource REST handlers.
    A created VNF instance is one deployment and one service, named after the
    instance's internal ID, and one directory entry under that ID whose value
    joins the two internal names with "|". Routing, JSON and the writing of
    status codes are not part of the model; a handler's outcome is a
    `Response` value.

    The directory calls of the handlers take the internal VNF ID as the key
    and are modelled as the Consul store's put, get and delete; the list
    handler goes through `ConsulDB.ReadAll`. The cluster client is the
    KubeCluster model, used with the namespace as given. */
module Handler {
  import opened Common
  import opened Kube
  import opened KubeCluster
  import opened Naming
  import opened Directory
  import Utils

  /** The request bodies validateBody tells apart; any other body passes. */
  datatype Body =
    | CreateVnfRequest(cloudRegionID: string, namespace: string, csarID: string)
    | UpdateVnfRequest(cloudRegionID: string, namespace: string, csarID: string)
    | OtherBody

  /** What a handler answers: the status it writes and the body it encodes. */
  datatype Response =
    | Created(vnfID: string, cloudRegionID: string, namespace: string, vnfComponents: seq<string>)  // 201
    | VnfList(vnfs: seq<string>)                                                                    // 200
    | VnfInfo(vnfID: string, cloudRegionID: string, namespace: string, vnfComponents: seq<string>)  // 200
    | Accepted                                                                                      // 202
    | NotFoundResponse                                                                              // 404
    | Unprocessable(message: string)                                                                // 422
    | InternalError(message: string)                                                                // 500
    | Panicked                                                  // a Go runtime panic; no answer is written

  const MissingPost := Wrap("CreateVnfRequest bad request", "Invalid/Missing Data in POST request")
  const BarInCreate := Wrap("CreateVnfRequest bad request", "Character \"|\" not allowed in CSAR ID")
  const MissingPut := Wrap("UpdateVnfRequest bad request", "Invalid/Missing Data in PUT request")

  /** A create request needs a cloud region and a CSAR, and no "|" in the
      cloud region or the namespace (they become part of the "|"-joined
      directory value); an update request needs a cloud region and a CSAR. */
  function ValidateBody(body: Body): (err: Option<string>)
    ensures err == None <==>
      match body
      case CreateVnfRequest(c, n, id) => c != "" && id != "" && '|' !in c && '|' !in n
      case UpdateVnfRequest(c, _, id) => c != "" && id != ""
      case OtherBody => true
    ensures body.CreateVnfRequest? && (body.cloudRegionID == "" || body.csarID == "") ==> err == Some(MissingPost)
    ensures (body.CreateVnfRequest? && body.cloudRegionID != "" && body.csarID != ""
             && ('|' in body.cloudRegionID || '|' in body.namespace)) ==> err == Some(BarInCreate)
    ensures body.UpdateVnfRequest? && (body.cloudRegionID == "" || body.csarID == "") ==> err == Some(MissingPut)
  {
    match body
    case CreateVnfRequest(c, n, id) =>
      ContainsChar(c, '|');
      ContainsChar(n, '|');
      if c == "" || id == "" then Some(MissingPost)
      else if Contains(c, "|") || Contains(n, "|") then Some(BarInCreate)
      else None
    case UpdateVnfRequest(c, _, id) =>
      if c == "" || id == "" then Some(MissingPut) else None
    case OtherBody => None
  }

  /** A handler's response with the cluster objects and directory entries it leaves. */
  datatype Effect = Effect(response: Response, state: State, store: map<string, string>)

  /** CreateHandler on cluster state `st` and directory `store`, given what
      reading the CSAR returned. */
  function CreateSpec(resource: Body, externalVNFID: string, kubeData: Result<Utils.KubernetesData>,
                      st: State, store: map<string, string>): Effect
    requires resource.CreateVnfRequest?
  {
    match ValidateBody(resource)
    case Some(e) => Effect(Unprocessable(e), st, store)
    case None =>
      match kubeData
      case Err(e) => Effect(InternalError(Wrap("Read Kubernetes Data information error", e)), st, store)
      case Ok(data) =>
        if data.deployment.None? then Effect(InternalError("Read kubeData.Deployment error"), st, store)
        else if data.service.None? then Effect(InternalError("Read kubeData.Service error"), st, store)
        else
          var ns := resource.namespace;
          var internalVNFID := InternalVNFID(resource.cloudRegionID, ns, externalVNFID);
          var deployName := InternalName(internalVNFID, data.deployment.value.name);
          var serviceName := InternalName(internalVNFID, data.service.value.name);
          if deployName in st.Listed(DeploymentKind, ns) then
            Effect(InternalError(Wrap("Create VNF deployment error", AlreadyExists(deployName))), st, store)
          else
            var st1 := st.Created(DeploymentKind, ns, deployName);
            if serviceName in st1.Listed(ServiceKind, ns) then
              Effect(InternalError(Wrap("Create VNF service error", AlreadyExists(serviceName))), st1, store)
            else
              Effect(Created(externalVNFID, resource.cloudRegionID, ns,
                             [data.deployment.value.name, data.service.value.name]),
                     st1.Created(ServiceKind, ns, serviceName),
                     store[internalVNFID := CombinedID(deployName, serviceName)])
  }

  /** Create the deployment and the service of the CSAR under the internal
      names of instance `externalVNFID`, then record the pair. */
  method CreateHandler(resource: Body, externalVNFID: string, csarRoot: string, fs: FileSystem,
                       parse: Utils.OrderParser, decode: Decoder, cluster: Cluster, db: KVStore)
      returns (response: Response)
    requires resource.CreateVnfRequest?
    requires db.Valid()
    modifies cluster, db
    ensures db.Valid()
    ensures ValidateBody(resource) != None ==> cluster.namespaces == old(cluster.namespaces)
    ensures ValidateBody(resource) == None ==> cluster.namespaces == old(cluster.namespaces) + {resource.namespace}
    ensures Effect(response, cluster.state, db.store)
         == CreateSpec(resource, externalVNFID, Utils.ReadCSAR(csarRoot, resource.csarID, fs, parse, decode),
                       old(cluster.state), old(db.store))
  {
    var err := ValidateBody(resource);
    if err != None {
      return Unprocessable(err.value);
    }

    var present := cluster.CheckNamespace(resource.namespace);
    if !present {
      cluster.CreateNamespace(resource.namespace);
    }

    var kubeData := Utils.ReadCSARFromFileSystem(csarRoot, resource.csarID, fs, parse, decode);
    if kubeData.Err? {
      return InternalError(Wrap("Read Kubernetes Data information error", kubeData.error));
    }
    // The source wraps the (nil) read error here, and pkgerrors.Wrap of nil
    // is nil, so writing its message panics; the model answers with the
    // message the source composes.
    if kubeData.value.deployment == None {
      return InternalError("Read kubeData.Deployment error");
    }
    // The source reads the service's name (handler.go:152) before it checks
    // the service for nil (handler.go:163); the model checks first.
    if kubeData.value.service == None {
      return InternalError("Read kubeData.Service error");
    }
    var deployment, service := kubeData.value.deployment.value, kubeData.value.service.value;

    var internalVNFID := InternalVNFID(resource.cloudRegionID, resource.namespace, externalVNFID);
    var internalDeploymentName := InternalName(internalVNFID, deployment.name);
    var internalServiceName := InternalName(internalVNFID, service.name);
    var yamlDeploymentName, yamlServiceName := deployment.name, service.name;

    deployment := Renamed(deployment, internalDeploymentName, resource.namespace);
    service := Renamed(service, internalServiceName, resource.namespace);

    var created, e := cluster.Create(DeploymentKind, resource.namespace, deployment.name);
    if e != None {
      return InternalError(Wrap("Create VNF deployment error", e.value));
    }
    created, e := cluster.Create(ServiceKind, resource.namespace, service.name);
    if e != None {
      return InternalError(Wrap("Create VNF service error", e.value));
    }

    var internalCombinedID := CombinedID(internalDeploymentName, internalServiceName);
    db.Put(internalVNFID, internalCombinedID);

    return Created(externalVNFID, resource.cloudRegionID, resource.namespace, [yamlDeploymentName, yamlServiceName]);
  }

  /** DeleteHandler on cluster state `st` and directory `store`: the
      service goes first, then the deployment, then the entry. */
  function DeleteSpec(cloudRegionID: string, namespace: string, externalVNFID: string,
                      st: State, store: map<string, string>): Effect
    requires var id := InternalVNFID(cloudRegionID, namespace, externalVNFID); id in store ==> '|' in store[id]
  {
    var internalVNFID := InternalVNFID(cloudRegionID, namespace, externalVNFID);
    if internalVNFID !in store then Effect(NotFoundResponse, st, store)
    else
      var (deployName, serviceName) := SplitCombined(store[internalVNFID]);
      if serviceName !in st.Listed(ServiceKind, namespace) then
        Effect(InternalError(Wrap("Delete VNF error", NotFound(serviceName))), st, store)
      else
        var st1 := st.Deleted(ServiceKind, namespace, serviceName);
        if deployName !in st1.Listed(DeploymentKind, namespace) then
          Effect(InternalError(Wrap("Delete VNF error", NotFound(deployName))), st1, store)
        else Effect(Accepted, st1.Deleted(DeploymentKind, namespace, deployName), store - {internalVNFID})
  }

  /** Delete the service and the deployment an entry names, then the entry.
      Go indexes the second piece of the split, so a stored value must hold "|". */
  method DeleteHandler(cloudRegionID: string, namespace: string, externalVNFID: string, cluster: Cluster, db: KVStore)
      returns (response: Response)
    requires db.Valid()
    requires var id := InternalVNFID(cloudRegionID, namespace, externalVNFID); id in db.store ==> '|' in db.store[id]
    modifies cluster, db
    ensures db.Valid()
    ensures cluster.namespaces == old(cluster.namespaces)
    ensures Effect(response, cluster.state, db.store)
         == DeleteSpec(cloudRegionID, namespace, externalVNFID, old(cluster.state), old(db.store))
  {
    var internalVNFID := InternalVNFID(cloudRegionID, namespace, externalVNFID);
    var internalCombinedID := db.Get(internalVNFID);
    if internalCombinedID == None {
      return NotFoundResponse;
    }
    var (internalDeploymentName, internalServiceName) := SplitCombined(internalCombinedID.value);

    var err := cluster.Delete(ServiceKind, namespace, internalServiceName);
    if err != None {
      return InternalError(Wrap("Delete VNF error", err.value));
    }
    err := cluster.Delete(DeploymentKind, namespace, internalDeploymentName);
    if err != None {
      return InternalError(Wrap("Delete VNF error", err.value));
    }
    db.Delete(internalVNFID);
    return Accepted;
  }

  /** A stored value Get can read without a Go panic: empty, or two pieces
      around "|" each of which holds the internal ID followed by at least
      one character. */
  predicate Readable(value: string, internalVNFID: string) {
    |value| > 0 ==>
      '|' in value
      && Recoverable(SplitCombined(value).0, internalVNFID)
      && Recoverable(SplitCombined(value).1, internalVNFID)
  }

  /** The declared names GetHandler reports for a stored value. */
  function Components(value: string, internalVNFID: string): seq<string>
    requires Readable(value, internalVNFID)
  {
    if |value| == 0 then ["", ""]
    else [DeclaredName(SplitCombined(value).0, internalVNFID), DeclaredName(SplitCombined(value).1, internalVNFID)]
  }

  function GetSpec(cloudRegionID: string, namespace: string, externalVNFID: string, store: map<string, string>): Response
    requires var id := InternalVNFID(cloudRegionID, namespace, externalVNFID);
      id in store ==> Readable(store[id], id)
  {
    var internalVNFID := InternalVNFID(cloudRegionID, namespace, externalVNFID);
    if internalVNFID !in store then NotFoundResponse
    else VnfInfo(externalVNFID, cloudRegionID, namespace, Components(store[internalVNFID], internalVNFID))
  }

  /** Report the declared names of the deployment and service an entry records. */
  method GetHandler(cloudRegionID: string, namespace: string, externalVNFID: string, db: KVStore)
      returns (response: Response)
    requires var id := InternalVNFID(cloudRegionID, namespace, externalVNFID);
      id in db.store ==> Readable(db.store[id], id)
    ensures response == GetSpec(cloudRegionID, namespace, externalVNFID, db.store)
  {
    var internalVNFID := InternalVNFID(cloudRegionID, namespace, externalVNFID);
    var deployname, servicename := "", "";
    var name := db.Get(internalVNFID);
    if name == None {
      return NotFoundResponse;
    }
    if |name.value| > 0 {
      var (d, s) := SplitCombined(name.value);
      deployname := DeclaredName(d, internalVNFID);
      servicename := DeclaredName(s, internalVNFID);
    }
    return VnfInfo(externalVNFID, cloudRegionID, namespace, [deployname, servicename]);
  }

  /** A create succeeds only on a valid request and a CSAR holding both
      objects whose internal names are free; it then adds exactly those two
      objects and the entry joining their names under the internal ID. */
  lemma CreateSucceeded(resource: Body, externalVNFID: string, kubeData: Result<Utils.KubernetesData>,
                        st: State, store: map<string, string>)
    requires resource.CreateVnfRequest?
    requires CreateSpec(resource, externalVNFID, kubeData, st, store).response.Created?
    ensures ValidateBody(resource) == None
    ensures kubeData.Ok? && kubeData.value.deployment.Some? && kubeData.value.service.Some?
    ensures var e := CreateSpec(resource, externalVNFID, kubeData, st, store);
      var ns := resource.namespace;
      var id := InternalVNFID(resource.cloudRegionID, ns, externalVNFID);
      var d, s := kubeData.value.deployment.value.name, kubeData.value.service.value.name;
      var dn, sn := InternalName(id, d), InternalName(id, s);
      && dn !in st.Listed(DeploymentKind, ns)
      && sn !in st.Created(DeploymentKind, ns, dn).Listed(ServiceKind, ns)
      && e.response == Created(externalVNFID, resource.cloudRegionID, ns, [d, s])
      && e.state == st.Created(DeploymentKind, ns, dn).Created(ServiceKind, ns, sn)
      && e.store == store[id := CombinedID(dn, sn)]
  {
  }

  /** No "|" in the parts means no "|" in the internal name. */
  lemma NoBarInInternalName(cloudRegionID: string, namespace: string, externalVNFID: string, declaredName: string)
    requires '|' !in cloudRegionID && '|' !in namespace && '|' !in externalVNFID && '|' !in declaredName
    ensures '|' !in InternalName(InternalVNFID(cloudRegionID, namespace, externalVNFID), declaredName)
  {
  }

  /** A record written by CreateHandler is found by GetHandler with the same
      (cloud region, namespace, external ID), which reports the declared
      names of the deployment and the service, in that order, exactly as
      the create response did. */
  lemma CreateThenGet(resource: Body, externalVNFID: string, data: Utils.KubernetesData,
                      st: State, store: map<string, string>)
    requires resource.CreateVnfRequest? && data.deployment.Some? && data.service.Some?
    requires '|' !in externalVNFID && '|' !in data.deployment.value.name && '|' !in data.service.value.name
    requires var id := InternalVNFID(resource.cloudRegionID, resource.namespace, externalVNFID);
      !Contains("-" + data.deployment.value.name, id) && !Contains("-" + data.service.value.name, id)
    requires CreateSpec(resource, externalVNFID, Ok(data), st, store).response.Created?
    ensures var e := CreateSpec(resource, externalVNFID, Ok(data), st, store);
      var id := InternalVNFID(resource.cloudRegionID, resource.namespace, externalVNFID);
      id in e.store && Readable(e.store[id], id)
      && GetSpec(resource.cloudRegionID, resource.namespace, externalVNFID, e.store)
         == VnfInfo(externalVNFID, resource.cloudRegionID, resource.namespace, e.response.vnfComponents)
  {
    var c, ns := resource.cloudRegionID, resource.namespace;
    var id := InternalVNFID(c, ns, externalVNFID);
    var d, s := data.deployment.value.name, data.service.value.name;
    var dn, sn := InternalName(id, d), InternalName(id, s);
    CreateSucceeded(resource, externalVNFID, Ok(data), st, store);
    NoBarInInternalName(c, ns, externalVNFID, d);
    NoBarInInternalName(c, ns, externalVNFID, s);
    CombinedRoundTrip(dn, sn);
    DeclaredNameRoundTrip(id, d);
    DeclaredNameRoundTrip(id, s);
    var e := CreateSpec(resource, externalVNFID, Ok(data), st, store);
    assert e.store[id] == CombinedID(dn, sn);
    assert Components(e.store[id], id) == [d, s];
  }

  /** A record written by CreateHandler is found by DeleteHandler with the
      same triple, which removes exactly the service and deployment it
      created and then the entry. */
  lemma CreateThenDelete(resource: Body, externalVNFID: string, data: Utils.KubernetesData,
                         st: State, store: map<string, string>)
    requires resource.CreateVnfRequest? && data.deployment.Some? && data.service.Some?
    requires '|' !in externalVNFID && '|' !in data.deployment.value.name && '|' !in data.service.value.name
    requires CreateSpec(resource, externalVNFID, Ok(data), st, store).response.Created?
    ensures var e := CreateSpec(resource, externalVNFID, Ok(data), st, store);
      var c, ns := resource.cloudRegionID, resource.namespace;
      var id := InternalVNFID(c, ns, externalVNFID);
      var dn, sn := InternalName(id, data.deployment.value.name), InternalName(id, data.service.value.name);
      id in e.store && '|' in e.store[id]
      && DeleteSpec(c, ns, externalVNFID, e.state, e.store)
         == Effect(Accepted, e.state.Deleted(ServiceKind, ns, sn).Deleted(DeploymentKind, ns, dn), store - {id})
  {
    var c, ns := resource.cloudRegionID, resource.namespace;
    var id := InternalVNFID(c, ns, externalVNFID);
    var d, s := data.deployment.value.name, data.service.value.name;
    var dn, sn := InternalName(id, d), InternalName(id, s);
    CreateSucceeded(resource, externalVNFID, Ok(data), st, store);
    NoBarInInternalName(c, ns, externalVNFID, d);
    NoBarInInternalName(c, ns, externalVNFID, s);
    CombinedRoundTrip(dn, sn);
    var e := CreateSpec(resource, externalVNFID, Ok(data), st, store);
    assert sn in e.state.Listed(ServiceKind, ns);
    var st1 := e.state.Deleted(ServiceKind, ns, sn);
    assert st1.Listed(DeploymentKind, ns) == e.state.Listed(DeploymentKind, ns);
    assert dn in st1.Listed(DeploymentKind, ns);
    assert e.store - {id} == store - {id};
  }

  /** The directory entry is written only when both creates succeed, and
      only under the instance's internal ID; a failed service create leaves
      the created deployment in the cluster with no entry for it. */
  lemma EntryWrittenOnlyOnSuccess(resource: Body, externalVNFID: string, kubeData: Result<Utils.KubernetesData>,
                                  st: State, store: map<string, string>)
    requires resource.CreateVnfRequest?
    ensures var e := CreateSpec(resource, externalVNFID, kubeData, st, store);
      var id := InternalVNFID(resource.cloudRegionID, resource.namespace, externalVNFID);
      (!e.response.Created? ==> e.store == store)
      && (e.response.Created? ==> e.store.Keys == store.Keys + {id}
                                  && forall k :: k in store && k != id ==> e.store[k] == store[k])
    ensures var e := CreateSpec(resource, externalVNFID, kubeData, st, store);
      var ns := resource.namespace;
      e.response.InternalError? && e.state != st ==>
        kubeData.Ok? && kubeData.value.deployment.Some?
        && e.state == st.Created(DeploymentKind, ns,
             InternalName(InternalVNFID(resource.cloudRegionID, ns, externalVNFID), kubeData.value.deployment.value.name))
  {
  }

  /** pkgerrors.Wrap, which returns nil for a nil error. */
  function WrapError(err: Option<string>, msg: string): Option<string> {
    match err
    case None => None
    case Some(e) => Some(Wrap(msg, e))
  }

  /** CreateHandler as written, where it differs from `CreateSpec`: once
      the CSAR read has succeeded its error is nil, so the missing-deployment
      check wraps nil into nil and panics writing its message; and the
      internal service name is built from `kubeData.Service` before the
      check for a missing service, which panics on the nil pointer. */
  function CreateSpecAsWritten(resource: Body, externalVNFID: string, kubeData: Result<Utils.KubernetesData>,
                               st: State, store: map<string, string>): Effect
    requires resource.CreateVnfRequest?
  {
    if ValidateBody(resource) == None && kubeData.Ok?
       && (kubeData.value.deployment.None? || kubeData.value.service.None?) then
      var readErr: Option<string> := None;
      if kubeData.value.deployment.None? then
        match WrapError(readErr, "Read kubeData.Deployment error")
        case None => Effect(Panicked, st, store)
        case Some(m) => Effect(InternalError(m), st, store)
      else Effect(Panicked, st, store)
    else CreateSpec(resource, externalVNFID, kubeData, st, store)
  }

  /** For a CSAR without a sequence file the read succeeds with no
      deployment: the handler as written panics, where the evidently
      intended handler answers "Read kubeData.Deployment error". */
  lemma NilDeploymentAsWritten(resource: Body, externalVNFID: string, csarRoot: string, fs: FileSystem,
                               parse: Utils.OrderParser, decode: Decoder, st: State, store: map<string, string>)
    requires resource.CreateVnfRequest? && ValidateBody(resource) == None
    requires csarRoot + "/" + resource.csarID + "/sequence.yaml" !in fs
    ensures var kubeData := Utils.ReadCSAR(csarRoot, resource.csarID, fs, parse, decode);
      CreateSpecAsWritten(resource, externalVNFID, kubeData, st, store) == Effect(Panicked, st, store)
      && CreateSpec(resource, externalVNFID, kubeData, st, store)
         == Effect(InternalError("Read kubeData.Deployment error"), st, store)
  {
    Utils.NoSequenceFile(csarRoot, resource.csarID, fs, parse, decode);
  }

  /** The check as evidently intended: a CSAR without a deployment is
      refused with the message the source composes, nothing is created and
      nothing is recorded. */
  lemma NilDeploymentReported(resource: Body, externalVNFID: string, data: Utils.KubernetesData,
                              st: State, store: map<string, string>)
    requires resource.CreateVnfRequest? && ValidateBody(resource) == None && data.deployment.None?
    ensures CreateSpec(resource, externalVNFID, Ok(data), st, store)
         == Effect(InternalError("Read kubeData.Deployment error"), st, store)
  {
  }

  /** For a CSAR that yields a deployment but no service, the handler as
      written panics on the nil service before its own check. */
  lemma NilServiceAsWritten(resource: Body, externalVNFID: string, data: Utils.KubernetesData,
                            st: State, store: map<string, string>)
    requires resource.CreateVnfRequest? && ValidateBody(resource) == None
    requires data.deployment.Some? && data.service.None?
    ensures CreateSpecAsWritten(resource, externalVNFID, Ok(data), st, store) == Effect(Panicked, st, store)
  {
  }

  /** The check as evidently intended: a CSAR without a service is refused
      with the message the source composes, before anything is created. */
  lemma NilServiceReported(resource: Body, externalVNFID: string, data: Utils.KubernetesData,
                           st: State, store: map<string, string>)
    requires resource.CreateVnfRequest? && ValidateBody(resource) == None
    requires data.deployment.Some? && data.service.None?
    ensures CreateSpec(resource, externalVNFID, Ok(data), st, store)
         == Effect(InternalError("Read kubeData.Service error"), st, store)
  {
  }

  /** The prefix ListHandler strips: `cloudRegionID + "-" + namespace`. */
  function ListPrefix(cloudRegionID: string, namespace: string): string {
    cloudRegionID + "-" + namespace
  }

  /** Go's `strings.TrimPrefix(id, prefix)[1:]` does not panic on `id`. */
  predicate Trimmable(id: string, prefix: string) {
    |id| > 0 ==> |TrimPrefix(id, prefix)| > 0
  }

  /** The list entry of one stored key: none for an empty key, otherwise
      the key without the prefix and the character after it. */
  function Edited(ids: seq<string>, prefix: string): seq<string>
    requires forall i :: 0 <= i < |ids| ==> Trimmable(ids[i], prefix)
    decreases |ids|
  {
    if ids == [] then []
    else
      var last := ids[|ids| - 1];
      assert Trimmable(last, prefix);
      Edited(ids[..|ids| - 1], prefix) + (if |last| > 0 then [TrimPrefix(last, prefix)[1..]] else [])
  }

  function ListSpec(ids: seq<string>, prefix: string): Response
    requires forall i :: 0 <= i < |ids| ==> Trimmable(ids[i], prefix)
  {
    if ids == [] then NotFoundResponse
    else
      var edited := Edited(ids, prefix);
      VnfList(if edited == [] then [""] else edited)
  }

  /** The part of ListHandler after the directory read: an empty result is
      not found; otherwise each non-empty key loses the prefix and one more
      character, and a list left empty becomes `[""]`. */
  method ListVNFs(internalVNFIDs: seq<string>, prefix: string) returns (response: Response)
    requires forall i :: 0 <= i < |internalVNFIDs| ==> Trimmable(internalVNFIDs[i], prefix)
    ensures response == ListSpec(internalVNFIDs, prefix)
  {
    if |internalVNFIDs| == 0 {
      return NotFoundResponse;
    }
    var editedList: seq<string> := [];
    for i := 0 to |internalVNFIDs|
      invariant editedList == Edited(internalVNFIDs[..i], prefix)
    {
      var id := internalVNFIDs[i];
      assert internalVNFIDs[..i + 1][..i] == internalVNFIDs[..i];
      if |id| > 0 {
        editedList := editedList + [TrimPrefix(id, prefix)[1..]];
      }
    }
    assert internalVNFIDs[..|internalVNFIDs|] == internalVNFIDs;
    if |editedList| == 0 {
      editedList := editedList + [""];
    }
    return VnfList(editedList);
  }

  /** List the instances of a cloud region and namespace. The directory
      returns every key it holds; a key equal to the prefix would make Go
      panic, hence the precondition. */
  method ListHandler(cloudRegionID: string, namespace: string, db: ConsulDB) returns (response: Response)
    requires db.Valid()
    requires ListPrefix(cloudRegionID, namespace) !in db.consulClient.store
    ensures var ids := if db.consulClient.store == map[] then [""] else db.consulClient.keys;
      (forall i :: 0 <= i < |ids| ==> Trimmable(ids[i], ListPrefix(cloudRegionID, namespace)))
      && response == ListSpec(ids, ListPrefix(cloudRegionID, namespace))
  {
    var prefix := ListPrefix(cloudRegionID, namespace);
    var internalVNFIDs := db.ReadAll(prefix);
    forall i | 0 <= i < |internalVNFIDs|
      ensures Trimmable(internalVNFIDs[i], prefix)
    {
      var id := internalVNFIDs[i];
      if |id| > 0 && prefix <= id {
        assert id != prefix;
      }
    }
    response := ListVNFs(internalVNFIDs, prefix);
  }

  /** Keys of the form `prefix-x` list as `x`, in directory order. */
  lemma {:induction false} ListStripsPrefix(ids: seq<string>, prefix: string, xs: seq<string>)
    requires |ids| == |xs|
    requires forall i :: 0 <= i < |ids| ==> ids[i] == prefix + "-" + xs[i]
    ensures forall i :: 0 <= i < |ids| ==> Trimmable(ids[i], prefix)
    ensures Edited(ids, prefix) == xs
    decreases |ids|
  {
    forall i | 0 <= i < |ids|
      ensures Trimmable(ids[i], prefix) && TrimPrefix(ids[i], prefix)[1..] == xs[i]
    {
      assert ids[i] == prefix + ("-" + xs[i]);
    }
    if ids != [] {
      var n := |ids| - 1;
      ListStripsPrefix(ids[..n], prefix, xs[..n]);
      assert xs == xs[..n] + [xs[n]];
    }
  }

  /** Empty keys are skipped; when nothing is left the list is `[""]`. */
  lemma {:induction false} ListOfEmptyKeys(ids: seq<string>, prefix: string)
    requires ids != [] && forall i :: 0 <= i < |ids| ==> ids[i] == ""
    ensures ListSpec(ids, prefix) == VnfList([""])
  {
    EditedOfEmptyKeys(ids, prefix);
  }

  lemma {:induction false} EditedOfEmptyKeys(ids: seq<string>, prefix: string)
    requires forall i :: 0 <= i < |ids| ==> ids[i] == ""
    ensures Edited(ids, prefix) == []
    decreases |ids|
  {
    if ids != [] {
      EditedOfEmptyKeys(ids[..|ids| - 1], prefix);
    }
  }

  /** A key that does not start with the prefix (an instance of another
      namespace, say) is not filtered out: TrimPrefix leaves it whole and
      only its first character is cut off. */
  lemma KeyWithoutPrefixListed(id: string, prefix: string)
    requires |id| > 0 && !(prefix <= id)
    ensures Trimmable(id, prefix) && Edited([id], prefix) == [id[1..]]
  {
    assert [id][..0] == [];
  }

  /** Listing cloud1's default namespace also lists the instance of its
      other namespace, less its first character. */
  lemma ListDoesNotFilterByNamespace()
    ensures Edited(["cloud1-default-uuid1", "cloud1-other-uuid2"], "cloud1-default") == ["uuid1", "loud1-other-uuid2"]
  {
    var ids := ["cloud1-default-uuid1", "cloud1-other-uuid2"];
    var prefix := "cloud1-default";
    assert prefix <= ids[0];
    assert !(prefix <= ids[1]) by { assert ids[1][7] != prefix[7]; }
    KeyWithoutPrefixListed(ids[1], prefix);
    assert ids[..1][..0] == [];
    assert ids[..2][..1] == ids[..1];
  }

  /** The directory of the handler's tests: two instances of cloud region
      "cloudregion1" in namespace "testnamespace" list as their external IDs. */
  lemma ListOfTwoInstances()
    ensures ListSpec(["cloudregion1-testnamespace-key1", "cloudregion1-testnamespace-key2"],
                     ListPrefix("cloudregion1", "testnamespace"))
         == VnfList(["key1", "key2"])
  {
    var prefix := ListPrefix("cloudregion1", "testnamespace");
    var ids := ["cloudregion1-testnamespace-key1", "cloudregion1-testnamespace-key2"];
    assert ids[0] == prefix + "-" + "key1" && ids[1] == prefix + "-" + "key2";
    ListStripsPrefix(ids, prefix, ["key1", "key2"]);
  }

  /** The entry of the handler's tests reads back as the declared names. */
  lemma GetOfRecordedInstance()
    ensures var id := InternalVNFID("cloudregion1", "testnamespace", "1");
      var store := map[id := CombinedID(InternalName(id, "deployName"), InternalName(id, "serviceName"))];
      Readable(store[id], id)
      && GetSpec("cloudregion1", "testnamespace", "1", store)
         == VnfInfo("1", "cloudregion1", "testnamespace", ["deployName", "serviceName"])
  {
    var id := InternalVNFID("cloudregion1", "testnamespace", "1");
    var dn, sn := InternalName(id, "deployName"), InternalName(id, "serviceName");
    NoBarInInternalName("cloudregion1", "testnamespace", "1", "deployName");
    NoBarInInternalName("cloudregion1", "testnamespace", "1", "serviceName");
    CombinedRoundTrip(dn, sn);
    ShorterNotContains("-" + "deployName", id);
    ShorterNotContains("-" + "serviceName", id);
    DeclaredNameRoundTrip(id, "deployName");
    DeclaredNameRoundTrip(id, "serviceName");
  }
}
