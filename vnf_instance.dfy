/** vnf_instance.go: a VNF instance resource and its conversion into a
    Kubernetes Deployment with a fixed single-container pod template. */
module VnfInstance {
  import opened Common

  /** `Labels` is a Go map, which may be nil (`None`). */
  datatype VNFInstanceResource = VNFInstanceResource(name: string, replicas: int, labels: Option<map<string, string>>)

  datatype ContainerPort = ContainerPort(name: string, protocol: string, containerPort: int)
  datatype Container = Container(name: string, image: string, ports: seq<ContainerPort>)
  datatype LabelSelector = LabelSelector(matchLabels: map<string, string>)

  /** The parts of a Deployment the conversion sets; a nil pointer field is
      `None`. */
  datatype DeploymentSpec = DeploymentSpec(replicas: Option<int>, selector: Option<LabelSelector>, containers: seq<Container>)
  datatype Deployment = Deployment(name: string, spec: DeploymentSpec)

  const Int32Min: int := -0x8000_0000
  const Int32Max: int := 0x7fff_ffff

  /** Go's `int32(x)`: keeps the low 32 bits, read as two's complement. */
  function ToInt32(x: int): (r: int)
    ensures Int32Min <= r <= Int32Max
    ensures (r - x) % 0x1_0000_0000 == 0
  {
    (x - Int32Min) % 0x1_0000_0000 + Int32Min
  }

  /** The one container every converted deployment runs. */
  const WebContainer := Container("web", "nginx:1.12", [ContainerPort("http", "TCP", 80)])

  /** `String()` reports the resource's name. */
  function String(v: VNFInstanceResource): (s: string)
    ensures |s| == |v.name| && forall i :: 0 <= i < |s| ==> s[i] == v.name[i]
  {
    v.name
  }

  function ConvertToDeployment(v: VNFInstanceResource): (d: Deployment)
  {
    var replicas := if v.replicas > 1 then Some(ToInt32(v.replicas)) else None;
    var selector := if v.labels.Some? then Some(LabelSelector(v.labels.value)) else None;
    Deployment(v.name, DeploymentSpec(replicas, selector, [WebContainer]))
  }

  /** What the conversion promises for every input: the name carries over
      (it is what `String()` reports), replicas are set exactly when more
      than one is asked for (converted to int32), the selector exactly when
      labels are given, and the pod runs the one web container. */
  lemma ConvertToDeploymentShape(v: VNFInstanceResource)
    ensures ConvertToDeployment(v).name == v.name
    ensures ConvertToDeployment(v).name == String(v)
    ensures ConvertToDeployment(v).spec.replicas.Some? <==> v.replicas > 1
    ensures v.replicas > 1 ==> ConvertToDeployment(v).spec.replicas == Some(ToInt32(v.replicas))
    ensures v.replicas > 1 ==> Int32Min <= ConvertToDeployment(v).spec.replicas.value <= Int32Max
    ensures v.replicas > 1 && v.replicas <= Int32Max ==> ConvertToDeployment(v).spec.replicas == Some(v.replicas)
    ensures ConvertToDeployment(v).spec.selector.Some? <==> v.labels.Some?
    ensures v.labels.Some? ==> ConvertToDeployment(v).spec.selector.value.matchLabels == v.labels.value
    ensures |ConvertToDeployment(v).spec.containers| == 1
    ensures ConvertToDeployment(v).spec.containers[0].name == "web"
    ensures ConvertToDeployment(v).spec.containers[0].image == "nginx:1.12"
    ensures ConvertToDeployment(v).spec.containers[0].ports == [ContainerPort("http", "TCP", 80)]
  {
    if v.replicas > 1 && v.replicas <= Int32Max {
      InRangeInt32(v.replicas);
    }
  }

  /** A value that fits in 32 bits is unchanged by the conversion. */
  lemma InRangeInt32(x: int)
    requires Int32Min <= x <= Int32Max
    ensures ToInt32(x) == x
  {
    assert 0 <= x - Int32Min < 0x1_0000_0000;
  }

  /** A replica count past the 32-bit range wraps: 2^32 + 3 becomes 3. */
  lemma ReplicasWrap()
    ensures ConvertToDeployment(VNFInstanceResource("vnf", 0x1_0000_0003, None)).spec.replicas == Some(3)
  {
    assert ToInt32(0x1_0000_0003) == 3;
  }
}
