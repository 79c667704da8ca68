/** An abstract Kubernetes API server: per resource kind and namespace, the
    names of the existing objects in listing order, and the set of
    namespaces. Creating a name that exists fails (AlreadyExists) and
    deleting one that does not fails (NotFound); other transport failures of
    the real API are not modelled. */
module KubeCluster {
  import opened Common
  import opened Kube

  /** namespace -> names of the objects of one kind, in listing order. */
  type Listing = map<string, seq<string>>

  function NamesIn(l: Listing, namespace: string): seq<string> {
    if namespace in l then l[namespace] else []
  }

  datatype State = State(deployments: Listing, services: Listing) {

    function Of(kind: Kind): Listing {
      match kind
      case DeploymentKind => deployments
      case ServiceKind => services
    }

    function Listed(kind: Kind, namespace: string): seq<string> {
      NamesIn(Of(kind), namespace)
    }

    function With(kind: Kind, namespace: string, names: seq<string>): (st: State)
      ensures st.Listed(kind, namespace) == names
      ensures forall k, ns :: (k, ns) != (kind, namespace) ==> st.Listed(k, ns) == Listed(k, ns)
    {
      match kind
      case DeploymentKind => this.(deployments := deployments[namespace := names])
      case ServiceKind => this.(services := services[namespace := names])
    }

    /** The state after a successful create of `name`: appended to its listing. */
    function Created(kind: Kind, namespace: string, name: string): State {
      With(kind, namespace, Listed(kind, namespace) + [name])
    }

    /** The state after a delete of `name`: gone from its listing. */
    function Deleted(kind: Kind, namespace: string, name: string): State {
      With(kind, namespace, Without(Listed(kind, namespace), name))
    }

    /** No listing names one object twice. */
    ghost predicate Valid() {
      forall kind, namespace :: Unique(Listed(kind, namespace))
    }
  }

  /** `DefaultNamespace`: the namespace every client uses for an empty one. */
  const DefaultNamespace := "default"

  function EffectiveNamespace(namespace: string): (ns: string)
    ensures namespace == "" ==> ns == DefaultNamespace
    ensures namespace != "" ==> ns == namespace
  {
    if namespace == "" then DefaultNamespace else namespace
  }

  /** The first `limit` items of a listing; a limit of 0 or less lists all. */
  function Page(names: seq<string>, limit: int): (page: seq<string>)
    ensures |page| <= |names| && page <= names
    ensures limit > 0 ==> |page| <= limit
    ensures limit <= 0 || |names| <= limit ==> page == names
  {
    if limit > 0 && limit < |names| then names[..limit] else names
  }

  function AlreadyExists(name: string): string {
    "\"" + name + "\" already exists"
  }

  function NotFound(name: string): string {
    "\"" + name + "\" not found"
  }

  /** Creating a new name and deleting any name keep listings duplicate-free. */
  lemma CreateDeleteKeepValid(st: State, kind: Kind, namespace: string, name: string)
    ensures st.Valid() && name !in st.Listed(kind, namespace) ==> st.Created(kind, namespace, name).Valid()
    ensures st.Valid() ==> st.Deleted(kind, namespace, name).Valid()
  {
    if st.Valid() {
      WithoutKeepsUnique(st.Listed(kind, namespace), name);
    }
  }

  /** The API server of one cluster. */
  class Cluster {
    var state: State
    var namespaces: set<string>

    constructor ()
      ensures state == State(map[], map[]) && namespaces == {}
      ensures state.Valid()
    {
      state := State(map[], map[]);
      namespaces := {};
    }

    /** Create an object named `name` in `namespace`; returns the name the
        server gave it, or the error. */
    method Create(kind: Kind, namespace: string, name: string) returns (created: string, err: Option<string>)
      modifies this
      ensures old(state).Valid() ==> state.Valid()
      ensures namespaces == old(namespaces)
      ensures name in old(state.Listed(kind, namespace)) ==>
        err == Some(AlreadyExists(name)) && state == old(state)
      ensures name !in old(state.Listed(kind, namespace)) ==>
        err == None && created == name && state == old(state).Created(kind, namespace, name)
    {
      if name in state.Listed(kind, namespace) {
        created, err := "", Some(AlreadyExists(name));
      } else {
        CreateDeleteKeepValid(state, kind, namespace, name);
        state := state.Created(kind, namespace, name);
        created, err := name, None;
      }
    }

    /** Delete the object named `name` from `namespace`. */
    method Delete(kind: Kind, namespace: string, name: string) returns (err: Option<string>)
      modifies this
      ensures old(state).Valid() ==> state.Valid()
      ensures namespaces == old(namespaces)
      ensures name !in old(state.Listed(kind, namespace)) ==>
        err == Some(NotFound(name)) && state == old(state)
      ensures name in old(state.Listed(kind, namespace)) ==>
        err == None && state == old(state).Deleted(kind, namespace, name)
    {
      if name in state.Listed(kind, namespace) {
        CreateDeleteKeepValid(state, kind, namespace, name);
        state := state.Deleted(kind, namespace, name);
        err := None;
      } else {
        err := Some(NotFound(name));
      }
    }

    /** List the names in `namespace`, at most `limit` of them when `limit` > 0. */
    method List(kind: Kind, namespace: string, limit: int) returns (items: seq<string>)
      ensures items == Page(state.Listed(kind, namespace), limit)
    {
      items := Page(state.Listed(kind, namespace), limit);
    }

    method CheckNamespace(namespace: string) returns (present: bool)
      ensures present <==> namespace in namespaces
    {
      present := namespace in namespaces;
    }

    method CreateNamespace(namespace: string)
      modifies this
      ensures namespaces == old(namespaces) + {namespace} && state == old(state)
    {
      namespaces := namespaces + {namespace};
    }
  }
}
