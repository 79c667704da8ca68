/** The Kubernetes objects the core handles, reduced to what it reads and
    writes (kind, name, namespace), and the collaborators it reads them
    through: the file system and the manifest decoder. */
module Kube {
  import opened Common

  newtype byte = x: int | 0 <= x < 256
  type Bytes = seq<byte>

  /** The files visible to the process: `os.Stat` succeeds on a path exactly
      when it is a key, and reading it gives the mapped bytes. */
  type FileSystem = map<string, Bytes>

  /** The resource kinds the core knows. */
  datatype Kind = DeploymentKind | ServiceKind

  datatype ObjectMeta = ObjectMeta(name: string, namespace: string)

  /** A decoded manifest: a Deployment, a Service, or some other kind. */
  datatype KubeObject =
    | DeploymentObject(meta: ObjectMeta)
    | ServiceObject(meta: ObjectMeta)
    | OtherObject(kind: string)

  /** `scheme.Codecs.UniversalDeserializer().Decode`, a library call the
      model takes as a parameter: bytes to an object or an error text. */
  type Decoder = Bytes -> Result<KubeObject>

  function Renamed(meta: ObjectMeta, name: string, namespace: string): (m: ObjectMeta)
    ensures m.name == name && m.namespace == namespace
  {
    meta.(name := name, namespace := namespace)
  }

  /** The metadata of `obj` when it is an object of `kind`. */
  function MetaOfKind(kind: Kind, obj: KubeObject): Option<ObjectMeta> {
    match (kind, obj)
    case (DeploymentKind, DeploymentObject(m)) => Some(m)
    case (ServiceKind, ServiceObject(m)) => Some(m)
    case _ => None
  }

  /** What `ParseYAML` of the deployment and service data structs leaves in
      the object field, and the error it returns: nothing to decode or an
      object of another kind leaves `current` as it was; a decode error is
      wrapped (the service variant uses the same words). */
  function ParseOutcome(kind: Kind, data: Option<Bytes>, current: Option<ObjectMeta>, decode: Decoder)
    : (r: (Option<ObjectMeta>, Option<string>))
  {
    match data
    case None => (current, None)
    case Some(b) =>
      match decode(b)
      case Err(e) => (current, Some(Wrap("Deserialize deployment error", e)))
      case Ok(obj) =>
        match MetaOfKind(kind, obj)
        case Some(m) => (Some(m), None)
        case None => (current, None)
  }

  /** Decoding is a function of the bytes: parsing the same data a second
      time leaves what the first parse left and fails the same way. */
  lemma ParseTwice(kind: Kind, data: Option<Bytes>, current: Option<ObjectMeta>, decode: Decoder)
    ensures var (obj, err) := ParseOutcome(kind, data, current, decode);
      err == None ==> ParseOutcome(kind, data, obj, decode) == (obj, None)
  {
  }
}
