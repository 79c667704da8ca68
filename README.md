# VNF instance identity and bookkeeping over Kubernetes

A Dafny model of the core of the MultiCloud Kubernetes plugin. The plugin
creates and destroys VNF (virtual network function) instances on a
Kubernetes cluster. The model covers five parts:

- **Identity.** Each instance gets an internal ID,
  `cloudRegionID-namespace-externalVNFID`, and each resource is named
  `internalVNFID-<declared name>`.
- **Directory record.** The single-resource variant joins its deployment
  and service names with `"|"`, and splits them back when it deletes or
  gets an instance.
- **Orchestrators.** The CSAR orchestrators read a sequence file and
  manifests from the file system, then create or delete resources kind by
  kind.
- **Instance directory.** This is the Consul key-value store.
- **Per-kind clients.** Clients and data structs for deployments and
  services sit over an abstract Kubernetes API server.

Modules follow the source files:

| module | file | content |
|---|---|---|
| `Common` | common.dfy | `Option`, `Result`, error wrapping, and the Go `strings` functions the core uses |
| `Naming` | naming.dfy | the internal ID, internal names, the `"\|"` record and the splits that read it back |
| `Kube` | kube.dfy | objects (kind, name, namespace), the file system as a map from path to bytes, the manifest decoder |
| `KubeCluster` | cluster.dfy | the API server: a class holding, per kind and namespace, the names in listing order |
| `Directory` | directory.dfy | the Consul store as a class over a map, and `ConsulDB` of db/consul.go |
| `Plugins` | plugins.dfy | plugins/deployment.go and plugins/service.go |
| `DeploymentPlugin` | deployment_plugin.dfy | plugins/deployment/deployment.go |
| `ServicePlugin` | service_plugin.dfy | plugins/service/service.go |
| `Utils` | utils.dfy | utils/utils.go: the sequence file and `ReadCSARFromFileSystem` |
| `CsarParser` | csar_parser.dfy | csarParser/csarParser.go: `CreateVNF`, `DestroyVNF`, the sequence file |
| `Handler` | handler.dfy | api/handler.go: validation and the create, delete, get and list handlers |
| `VnfInstance` | vnf_instance.dfy | vnf_instance.go: `String` and `ConvertToDeployment` |

**How stateful code is modelled.**

- Code that updates state in place becomes a class:
  - the cluster
  - the key-value store
  - the plugin clients and data structs
- Each orchestrator loop is a method with loop invariants. Each is proved equal to a recursive function over the old state: `CreateVNFRun`, `DestroyKinds`, `ReadCSAR`, `CreateSpec`, `DeleteSpec`, `GetSpec`, `ListSpec`.
- The properties are lemmas about those functions.

**Inputs.** The model takes these as parameters:

- the external ID (Go generates a UUID)
- the CSAR root directory (Go reads it from the environment)
- the file system
- the sequence-file parser and the manifest decoder
- the registry of loaded plugins
- the order in which Go iterates over a map

Where the source's comments and its code disagree, the model follows the code:

- db/consul.go:84 says `ReadAll` gets the IDs of one namespace. The code ignores its namespace argument and returns every key (`ConsulDB.ReadAll`).
- `ListHandler` strips the prefix plus the following dash from keys that carry the prefix. A key without the prefix, such as one of another namespace, is listed with only its first character cut off (`KeyWithoutPrefixListed`). The TODO at api/handler.go:243-245 acknowledges a related trimming defect.

## Model

| member | source | states |
|---|---|---|
| `Naming.CombinedRoundTrip` | api/handler.go:305-306 | when neither name holds "\|", the combined record `d\|s` holds "\|" and splits back into exactly `(d, s)` |
| `Naming.DeclaredNameRoundTrip` | api/handler.go:430-431 | for an internal name `id-d` where `-d` does not contain `id`, splitting on the ID and dropping one character recovers exactly `d`, without a Go panic |
| `Naming.DashThenName` | api/handler.go:430-431 | when `d` does not contain the ID and the ID does not start with "-", neither does `-d` |
| `Naming.InternalVNFIDInjective` | api/handler.go:146 | when the cloud region and namespace hold no "-", the internal ID determines all three of its parts |
| `Naming.InternalNameInjective` | api/handler.go:149-152 | different declared names of one instance get different internal names |
| `Kube.ParseTwice` | plugins/deployment.go:141-158 | parsing the same data a second time leaves what the first parse left |
| `KubeCluster.EffectiveNamespace` | plugins/deployment.go:31-33 | an empty namespace means "default"; any other is kept |
| `KubeCluster.Page` | plugins/deployment.go:43-67 | a listing with a limit is a prefix of the full listing, at most `limit` long; it is the whole listing when the limit is 0 or not reached |
| `Directory.KeyInjective` | db/consul.go:42 | when the namespaces hold no "/", equal keys mean equal (namespace, externalID) pairs |
| `Directory.ConsulDB.CreateEntry` | db/consul.go:41-54 | stores internalID under `namespace/externalID`, replacing any earlier value; every other key is unchanged |
| `Directory.ConsulDB.ReadEntry` | db/consul.go:57-68 | found exactly when the key is stored, and then the stored value; otherwise `"No value found for ID: " + key` |
| `Directory.ConsulDB.DeleteEntry` | db/consul.go:71-82 | removes that key and only that key |
| `Directory.ConsulDB.ReadAll` | db/consul.go:85-101 | every stored key in full whatever the namespace argument, each exactly once; `[""]` for an empty store |
| `Directory.EntryLifecycle` | db/consul.go:41-82 | an entry reads back after it is created, is gone after it is deleted, and no other key changes |
| `Plugins.KubeDeploymentClient.CreateResource` | plugins/deployment.go:30-40 | creates the deployment in the effective namespace and returns its name; when the name is taken, returns "" and the error wrapped with "Create Deployment error", and changes nothing |
| `Plugins.KubeDeploymentClient.ListResources` | plugins/deployment.go:43-67 | the deployment names of the effective namespace, in listing order, limited to `limit` |
| `Plugins.KubeDeploymentClient.DeleteResource` | plugins/deployment.go:70-85 | removes exactly the named deployment; when it is absent, returns the error wrapped with "Delete Deployment error" and changes nothing |
| `Plugins.KubeDeploymentClient.GetResource` | plugins/deployment.go:88-110 | returns the name exactly when it is among the first 10 listed deployments; otherwise "" |
| `Plugins.KubeDeploymentData.ReadYAML` | plugins/deployment.go:122-138 | a path that does not exist returns nil and changes neither field; otherwise it stores the bytes and parses them |
| `Plugins.KubeDeploymentData.ParseYAML` | plugins/deployment.go:141-158 | no data, or data that is not a Deployment, leaves `Deployment` unchanged and returns nil; a decode error is wrapped |
| `Plugins.KubeServiceClient.CreateResource` | plugins/service.go:30-40 | as for deployments, with "Create Service error" |
| `Plugins.KubeServiceClient.ListResources` | plugins/service.go:43-64 | the service names of the effective namespace, in listing order, limited to `limit` |
| `Plugins.KubeServiceClient.DeleteResource` | plugins/service.go:67-81 | removes exactly the named service; otherwise the error is wrapped with "Delete Service error" |
| `Plugins.KubeServiceClient.GetResource` | plugins/service.go:84-107 | returns the name exactly when it is among the first 10 listed services; otherwise "" |
| `Plugins.KubeServiceData.ReadYAML` | plugins/service.go:116-132 | a path that does not exist returns nil and changes neither field; otherwise it stores the bytes and parses them |
| `Plugins.KubeServiceData.ParseYAML` | plugins/service.go:135-152 | no data, or data that is not a Service, leaves `Service` unchanged and returns nil |
| `DeploymentPlugin.KubeDeploymentClient.CreateResource` | plugins/deployment/deployment.go:24-35 | creates the deployment through the given client in the effective namespace and returns its name, or "" and the wrapped error with nothing changed |
| `DeploymentPlugin.KubeDeploymentClient.ListResources` | plugins/deployment/deployment.go:38-62 | the names in listing order, limited to `limit` |
| `DeploymentPlugin.KubeDeploymentClient.DeleteResource` | plugins/deployment/deployment.go:65-80 | removes exactly the named deployment, or returns the wrapped error with nothing changed |
| `DeploymentPlugin.KubeDeploymentClient.GetResource` | plugins/deployment/deployment.go:83-105 | returns the name exactly when it is among the first 10 listed; otherwise "" |
| `DeploymentPlugin.CreateKubeData` | plugins/deployment/deployment.go:114-117 | a fresh struct with no data and no deployment |
| `DeploymentPlugin.KubeDeploymentData.ReadYAML` | plugins/deployment/deployment.go:120-136 | a missing path changes nothing and returns nil; otherwise it stores the bytes and parses them |
| `DeploymentPlugin.KubeDeploymentData.ParseYAML` | plugins/deployment/deployment.go:139-156 | no data, or data that is not a Deployment, leaves the struct unchanged and returns nil |
| `ServicePlugin.CreateResource` | plugins/service/service.go:19-58 | an empty namespace becomes "default" first; a missing file gives `"File <path> not found"` and a decode error gives "Deserialize service error", both with no cluster call; otherwise the service is renamed `InternalVNFID-<declared>`, placed in the namespace and created, and its name is returned |
| `ServicePlugin.ListResources` | plugins/service/service.go:61-82 | the service names of the effective namespace, in listing order |
| `ServicePlugin.DeleteResource` | plugins/service/service.go:85-101 | defaults the namespace and removes exactly the named service, or returns the wrapped error with nothing changed |
| `ServicePlugin.GetResource` | plugins/service/service.go:104-127 | returns the name exactly when it is among the first 10 listed services; otherwise "" |
| `VnfInstance.ToInt32` | vnf_instance.go:59 | Go's `int32(...)` conversion: a value in int32 range congruent to the input modulo 2^32 |
| `VnfInstance.ConvertToDeploymentShape` | vnf_instance.go:30-74 | the name is `v.Name`, the same as `String(v)`; replicas are set exactly when `v.Replicas > 1`, and are then `int32(v.Replicas)`, which lies in the int32 range and equals `v.Replicas` whenever it fits; the selector is set exactly when labels are, with MatchLabels equal to the labels; exactly one container "web", image "nginx:1.12", with one TCP port "http" on 80 |
| `VnfInstance.InRangeInt32` | vnf_instance.go:56-60 | the int32 conversion keeps values in range |
| `VnfInstance.ReplicasWrap` | vnf_instance.go:56-60 | replicas of 2^32+3 become 3 |
| `Utils.ReadSequenceFile` | utils/utils.go:216-245 | no sequence file gives two empty lists and no error; a parse error gives the wrapped error; otherwise the parsed lists, element for element, in order |
| `Utils.ReadCSARFromFileSystem` | utils/utils.go:162-207 | the data the sequence file's deployment manifests and then its service manifests leave, each in listed order, or the first error |
| `Utils.LoadFilesLastWins` | utils/utils.go:174-188 | when every listed manifest exists and decodes, the object is that of the last manifest of the kind; manifests of another kind are skipped |
| `Utils.LoadFilesMissing` | utils/utils.go:177-180 | the first missing manifest aborts with `"File <path> does not exists"`, and no later file is read |
| `Utils.NoSequenceFile` | utils/utils.go:222-244 | without a sequence file the CSAR yields neither object, and no error |
| `Utils.SequenceErrorIsMissing` | utils/utils.go:169-172 | any error reading the sequence file is reported as `"File <path> does not exists"` |
| `Utils.DeploymentsFirst` | utils/utils.go:174-204 | a failing deployment manifest decides the result before any service manifest is consulted, and no data is returned |
| `Utils.MockCsar` | csarParser/csarParser_test.go:138-151 | the mock CSAR gives a deployment named sise-deploy and a service named sise-svc |
| `CsarParser.ReadSequenceFile` | csarParser/csarParser.go:275-292 | a missing file gives an empty sequence without error; a parse error is wrapped with "Sequence YAML file read error" |
| `CsarParser.KindOf` | csarParser/csarParser.go:53-54 | "deployment" and "service" select their kinds, and no other name does |
| `CsarParser.CreateWithClient` | csarParser/csarParser.go:112-115 | creating through the plugin client of a kind is the client's create in the given namespace |
| `CsarParser.LoadManifest` | csarParser/csarParser.go:82-90 | a fresh plugin data struct reads and parses the manifest; the declared object and the two errors, as `ParseOutcome` gives them |
| `CsarParser.ProcessFile` | csarParser/csarParser.go:58-126 | one loop iteration has the outcome and cluster state of `CreateFile`, with every check in source order |
| `CsarParser.CreateVNF` | csarParser/csarParser.go:32-213 | the result and cluster state are those of `CreateVNFRun`: the external ID and the per-kind record on success, the first error otherwise |
| `CsarParser.CreateFileCreatesInternalName` | csarParser/csarParser.go:96-100 | a successful file creates exactly `internalVNFID-<declared name>` in the request's namespace; nothing else changes |
| `CsarParser.InternalNamesPrefixed` | csarParser/csarParser.go:97 | every internal name of an instance starts with `internalVNFID-` |
| `CsarParser.CreateFilesGrows` | csarParser/csarParser.go:58-126 | the files of one kind only add names, all in the namespace and prefixed by the internal ID |
| `CsarParser.CreateFilesRecord` | csarParser/csarParser.go:118-125 | on success the kind's record is the earlier names followed by the files' internal names in file order; other kinds' records are as before |
| `CsarParser.FilesRecordedInOrder` | csarParser/csarParser.go:56-125 | within one entry a kind's record is the internal names of its files in order; an earlier entry's list for that kind is replaced, not extended |
| `CsarParser.CreateKindsGrows` | csarParser/csarParser.go:52-200 | one entry only adds names, all in the namespace and prefixed by the internal ID |
| `CsarParser.CreateEntriesGrows` | csarParser/csarParser.go:51-202 | all entries together only add names, all in the namespace and prefixed by the internal ID |
| `CsarParser.CreatedResourcesAreNamedForInstance` | csarParser/csarParser.go:32-213 | whatever the outcome, CreateVNF keeps every earlier listing as a prefix, and everything it adds, and every recorded name, is `internalVNFID-<declared>` in the request's namespace |
| `CsarParser.NoSequenceFileCreatesNothing` | csarParser/csarParser.go:278-291 | without a sequence file CreateVNF creates nothing and succeeds with an empty record |
| `CsarParser.UnsupportedKindFails` | csarParser/csarParser.go:198-199 | another kind fails with `"<kind> resource type not supported."` before any of its files |
| `CsarParser.MissingFileAborts` | csarParser/csarParser.go:61-64 | a missing listed file fails with its path before it is decoded or created |
| `CsarParser.FailedFileKeepsCluster` | csarParser/csarParser.go:112-115 | a failed create fails with `"Error creating <kind>"` around the client's error, and leaves the cluster as it was before that file |
| `CsarParser.ExistingNameAborts` | csarParser/csarParser.go:96-115 | a manifest whose internal name already exists in the namespace fails with exactly `Error creating <kind>: Create <Kind> error: "<name>" already exists`, the plugin client's wrap of the cluster's refusal, and the cluster is unchanged |
| `CsarParser.DeleteNamesRemovesNames` | csarParser/csarParser.go:237-242 | deleting a kind's names in order removes only listed names of that kind and namespace; on success each one was present and is gone |
| `CsarParser.DestroyKindsRemovesRecorded` | csarParser/csarParser.go:223-265 | walking the record's kinds removes only recorded names of each kind; on success all of them are gone |
| `CsarParser.DestroyRemovesOnlyRecorded` | csarParser/csarParser.go:216-267 | DestroyVNF deletes only names the record lists for their kind, and only in the given namespace, in any visiting order |
| `CsarParser.DestroySuccessRemovesAll` | csarParser/csarParser.go:216-267 | on success every recorded name existed and is gone, and each listing keeps exactly the names the record does not list |
| `CsarParser.DestroyUnsupportedFails` | csarParser/csarParser.go:262-263 | a record holding another kind cannot be destroyed without error, in any visiting order |
| `CsarParser.DeleteWithClient` | csarParser/csarParser.go:238-241 | deleting through the plugin client of a kind is the client's delete |
| `CsarParser.DestroyVNF` | csarParser/csarParser.go:216-267 | the error and the cluster state are those of `DestroyKinds` over the old state |
| `Handler.ValidateBody` | api/handler.go:61-79 | a create request passes exactly when the region and CSAR are non-empty and the region and namespace hold no "\|"; an update request passes exactly when the region and CSAR are non-empty; any other body passes; each error has the source's message |
| `Handler.CreateHandler` | api/handler.go:82-219 | the namespace is added exactly for a valid request; the response, cluster state and directory are those of `CreateSpec` over the old state |
| `Handler.DeleteHandler` | api/handler.go:275-331 | the response, cluster state and directory are those of `DeleteSpec`: the service is deleted first, then the deployment, then the entry |
| `Handler.GetHandler` | api/handler.go:403-454 | the response is `GetSpec`: not found for an absent entry, else the two declared names (`["", ""]` for an empty value) |
| `Handler.ListVNFs` | api/handler.go:238-257 | the response is `ListSpec` of the keys |
| `Handler.ListHandler` | api/handler.go:222-272 | the keys `ReadAll` returns can be trimmed without a Go panic, and the response is `ListSpec` of them |
| `Handler.CreateSucceeded` | api/handler.go:173-202 | a create succeeds only on a valid request and a CSAR holding both objects whose internal names are free; it then adds exactly those two objects and writes the entry `deployName\|serviceName` under the internal ID; the response lists the declared names, deployment then service |
| `Handler.NoBarInInternalName` | api/handler.go:68-71 | when no part holds "\|", the internal name holds none |
| `Handler.CreateThenGet` | api/handler.go:414-437 | after a successful create, get with the same triple reports the declared names the create response listed |
| `Handler.CreateThenDelete` | api/handler.go:283-322 | after a successful create, delete with the same triple removes exactly the created service and deployment and then the entry |
| `Handler.EntryWrittenOnlyOnSuccess` | api/handler.go:173-197 | the directory changes only when both creates succeed, and then only under the internal ID; a failed service create leaves the deployment created and unrecorded |
| `Handler.NilDeploymentAsWritten` | api/handler.go:136-139 | for a valid request whose CSAR has no sequence file, the handler as written (`CreateSpecAsWritten`) panics, while `CreateSpec` answers "Read kubeData.Deployment error" and changes nothing |
| `Handler.NilDeploymentReported` | api/handler.go:136-140 | a CSAR without a deployment gets "Read kubeData.Deployment error"; nothing is created and nothing is recorded |
| `Handler.NilServiceAsWritten` | api/handler.go:151-152 | for a CSAR with a deployment but no service, the handler as written panics |
| `Handler.NilServiceReported` | api/handler.go:163-167 | a CSAR with a deployment but no service gets "Read kubeData.Service error"; nothing is created and nothing is recorded |
| `Handler.ListStripsPrefix` | api/handler.go:249-253 | keys `prefix-x` list as `x`, in directory order |
| `Handler.ListOfEmptyKeys` | api/handler.go:255-257 | when every key is empty, the list is `[""]` |
| `Handler.KeyWithoutPrefixListed` | api/handler.go:249-253 | any non-empty key that does not start with the prefix is kept, with only its first character cut off |
| `Handler.ListDoesNotFilterByNamespace` | api/handler.go:243-253 | listing "cloud1-default" also lists "cloud1-other-uuid2", as "loud1-other-uuid2" |
| `Handler.ListOfTwoInstances` | api/handler_test.go:164-268 | the test directory's two keys list as key1 and key2 |
| `Handler.GetOfRecordedInstance` | api/handler_test.go:156 | the test entry reads back as deployName and serviceName |

## Left out

- The HTTP layer is not modelled: routing, JSON decoding and encoding of bodies, status-code writing, and the body-empty and JSON-decode error paths. A handler's outcome is a `Response` value.
- Every transport error is left out: failures of the Kubernetes API, of Consul and of the kubeconfig lookup, beyond "already exists" on create and "not found" on delete.
- The handlers' `NewVNFInstanceService` client (krd) is not part of this model. Its create, delete and namespace calls are modelled by the cluster model, with the namespace as given.
- The handlers call the directory with two-argument `CreateEntry`/`ReadEntry`/`DeleteEntry`. These are modelled as put, get and delete on the Consul store under the internal VNF ID.
- `UpdateHandler` is not part of the core. Only its request validation is modelled, in `ValidateBody`.
- UUID generation, environment variables (`CSAR_DIR`, `KUBE_CONFIG_DIR`) and logging are left out. The external ID and the CSAR root are parameters.
- File I/O is modelled as a map from path to bytes. `os.Stat` succeeds exactly for keys, and reading never fails. `CSARFile.Download`/`Unzip`/`Delete` (network and zip I/O) are left out.
- YAML and JSON decoding, and `SerializeMap`/`DeSerializeMap`, are library calls. The decoder and the sequence parsers are parameters. No round trip is claimed for `DeSerializeMap`, which discards its result.
- `krd.KubernetesData.ReadDeploymentYAML`/`ReadServiceYAML` are not part of this model. They are modelled like the plugins' `ReadYAML`: decode, and keep the object when it has the right kind.
- Go plugin loading and type assertion are modelled as a registry map from resource name to exported symbols.
  - A plugin that was never loaded is taken to export nothing, so the lookup fails.
  - Go would dereference a nil plugin there.
- Go map iteration order is an input sequence: the kinds of a record in `DestroyVNF`, and the pairs of a sequence entry in `CreateVNF`. The order-independent properties hold for any order.
- `CsarParser.CreateVNF`: csarParser.go:49 declares the result map without making it, so the first assignment would panic in Go. The model starts from an empty map.
- `Handler.CreateHandler` answers a missing deployment or service with the composed message. As written, the source panics in both cases (see Findings and `CreateSpecAsWritten`).
- `Handler.GetHandler`, `Handler.DeleteHandler` and `Handler.ListHandler` have preconditions where Go would panic:
  - a stored value without "\|"
  - a name without the internal ID followed by at least one character
  - a directory key equal to the list prefix
- `Plugins.KubeDeploymentClient.ListResources` and the other `ListResources` require `limit >= 0`, because Go's `make` panics on a negative capacity.
- `ServicePlugin.CreateResource` requires that a decoded manifest leaves a service to rename, because Go dereferences a nil `ServiceData` otherwise.
- csarParser.go asserts the plugin's client symbol to `krd.KubeResourceClient`, whose methods take three arguments (krd/plugins.go:14-19), but calls them with two: the data struct and the namespace. The clientset argument is missing, so that code would not compile as written. The model routes these calls through the two-argument clients of plugins/deployment.go and plugins/service.go, passing the renamed object.
- `CsarParser.SymbolNotFound` gives Go's `plugin: symbol <name> not found` without the ` in plugin <path>` suffix that Go's plugin package appends.
- `Directory.KVStore` lists keys in insertion order. Consul's `KV().List` returns them sorted by key. The listing order in `ConsulDB.ReadAll`, `ListStripsPrefix` and `ListOfTwoInstances` is therefore the model's choice, not Consul's.
- `InitializeDatabase` and `CheckDatabase` (environment and network reachability) are left out.

## Findings

| source | as written | input that shows it | evidently intended | confidence | as-written member | corrected member |
|---|---|---|---|---|---|---|
| api/handler.go:136-139 | the missing-deployment check wraps the CSAR read's error, which is nil on that path; `pkgerrors.Wrap(nil, ...)` is nil, and calling `Error()` on it panics | a create request whose CSAR directory has no sequence.yaml: the read succeeds with no deployment | a 500 answer with "Read kubeData.Deployment error", nothing created, nothing recorded | high; not executed | `Handler.NilDeploymentAsWritten` | `Handler.NilDeploymentReported` |
| api/handler.go:152 | the internal service name reads `kubeData.Service.Name` before the nil check at line 163 | a create request whose CSAR yields a deployment but no service | a 500 answer with "Read kubeData.Service error", nothing created, nothing recorded | high; not executed | `Handler.NilServiceAsWritten` | `Handler.NilServiceReported` |
