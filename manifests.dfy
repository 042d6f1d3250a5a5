/**
 * The manifests `KubernetesContainerManager` submits for one service request:
 * the Deployment (`_create_deployment_config`) and the NodePort Service
 * (`_create_service_config`).  Each nested dict of the source is a record here;
 * a key the source leaves out of a dict is a `None` field.
 */
module Manifests {
  import opened Wrappers
  import Decimal

  /** A Python dict with string keys and values, in insertion (iteration) order */
  type Mapping = seq<(string, string)>

  /** The arguments of `create_service` */
  datatype ServiceRequest = ServiceRequest(
    serviceName: string,
    dockerImage: string,
    replicas: int,
    args: seq<string>,
    environmentVars: Mapping,
    mounts: Mapping,                  // host path -> path inside the container
    publishPort: Option<(int, int)>,  // (node port, container port)
    gpus: int)

  type Labels = map<string, string>

  const GPU_RESOURCE: string := "nvidia.com/gpu"
  const NODE_PORT: string := "NodePort"

  datatype ObjectMeta = ObjectMeta(name: string, labels: Labels)
  datatype TemplateMeta = TemplateMeta(labels: Labels)
  datatype EnvVar = EnvVar(name: string, value: string)
  datatype VolumeMount = VolumeMount(name: string, mountPath: string)
  datatype HostPathSource = HostPathSource(path: string)
  datatype Volume = Volume(name: string, hostPath: HostPathSource)
  datatype ResourceRequirements = ResourceRequirements(limits: map<string, int>)
  datatype Container = Container(
    name: string,
    image: string,
    volumeMounts: seq<VolumeMount>,
    env: seq<EnvVar>,
    resources: Option<ResourceRequirements>)
  datatype PodSpec = PodSpec(containers: seq<Container>, volumes: seq<Volume>)
  datatype PodTemplate = PodTemplate(metadata: TemplateMeta, spec: PodSpec)
  datatype LabelSelector = LabelSelector(matchLabels: Labels)
  datatype DeploymentSpec = DeploymentSpec(replicas: int, selector: LabelSelector, template: PodTemplate)
  datatype Deployment = Deployment(apiVersion: string, kind: string, metadata: ObjectMeta, spec: DeploymentSpec)

  datatype ServicePort = ServicePort(port: int, targetPort: int, nodePort: int)
  datatype ServiceSpec = ServiceSpec(serviceType: Option<string>, ports: Option<seq<ServicePort>>, selector: Labels)
  datatype Service = Service(apiVersion: string, kind: string, metadata: ObjectMeta, spec: ServiceSpec)

  /** `{'name': service_name}`, the one label every object of a service carries */
  function NameLabel(serviceName: string): Labels {
    map["name" := serviceName]
  }

  /** `'v' + str(i)` */
  function VolumeName(i: nat): string {
    "v" + Decimal.NatToString(i)
  }

  lemma VolumeNameInjective(i: nat, j: nat)
    ensures VolumeName(i) == VolumeName(j) <==> i == j
  {
    if VolumeName(i) == VolumeName(j) {
      assert Decimal.NatToString(i) == VolumeName(i)[1..];
      assert Decimal.NatToString(j) == VolumeName(j)[1..];
      Decimal.NatToStringInjective(i, j);
    }
  }

  /** `[{'name': k, 'value': v} for (k, v) in environment_vars.items()]` */
  function EnvList(env: Mapping): seq<EnvVar> {
    seq(|env|, i requires 0 <= i < |env| => EnvVar(env[i].0, env[i].1))
  }

  function MountEntry(i: nat, mount: (string, string)): VolumeMount {
    VolumeMount(VolumeName(i), mount.1)
  }

  function VolumeEntry(i: nat, mount: (string, string)): Volume {
    Volume(VolumeName(i), HostPathSource(mount.0))
  }

  function MountList(mounts: Mapping): seq<VolumeMount> {
    seq(|mounts|, i requires 0 <= i < |mounts| => MountEntry(i, mounts[i]))
  }

  function VolumeList(mounts: Mapping): seq<Volume> {
    seq(|mounts|, i requires 0 <= i < |mounts| => VolumeEntry(i, mounts[i]))
  }

  function GpuResources(gpus: int): Option<ResourceRequirements> {
    if gpus > 0 then Some(ResourceRequirements(map[GPU_RESOURCE := gpus])) else None
  }

  /** The Deployment `_create_deployment_config` returns (its `args` are never used) */
  function DeploymentConfig(req: ServiceRequest): Deployment {
    var container := Container(req.serviceName, req.dockerImage, MountList(req.mounts),
                               EnvList(req.environmentVars), GpuResources(req.gpus));
    Deployment("apps/v1", "Deployment",
      ObjectMeta(req.serviceName, NameLabel(req.serviceName)),
      DeploymentSpec(req.replicas, LabelSelector(NameLabel(req.serviceName)),
        PodTemplate(TemplateMeta(NameLabel(req.serviceName)),
          PodSpec([container], VolumeList(req.mounts)))))
  }

  /** `_create_deployment_config`, with its loop over `mounts.items()` and its `mounts_count` */
  method CreateDeploymentConfig(req: ServiceRequest) returns (d: Deployment)
    ensures d == DeploymentConfig(req)
  {
    var volumeMounts: seq<VolumeMount> := [];
    var volumes: seq<Volume> := [];
    var mountsCount: nat := 0;
    while mountsCount < |req.mounts|
      invariant mountsCount <= |req.mounts|
      invariant |volumeMounts| == |volumes| == mountsCount
      invariant forall i :: 0 <= i < mountsCount ==> volumeMounts[i] == MountEntry(i, req.mounts[i])
      invariant forall i :: 0 <= i < mountsCount ==> volumes[i] == VolumeEntry(i, req.mounts[i])
    {
      var (k, v) := req.mounts[mountsCount];
      volumeMounts := volumeMounts + [VolumeMount(VolumeName(mountsCount), v)];
      volumes := volumes + [Volume(VolumeName(mountsCount), HostPathSource(k))];
      mountsCount := mountsCount + 1;
    }
    assert volumeMounts == MountList(req.mounts);
    assert volumes == VolumeList(req.mounts);
    var env := EnvList(req.environmentVars);
    var resources := None;
    if req.gpus > 0 {
      resources := Some(ResourceRequirements(map[GPU_RESOURCE := req.gpus]));
    }
    var container := Container(req.serviceName, req.dockerImage, volumeMounts, env, resources);
    d := Deployment("apps/v1", "Deployment",
      ObjectMeta(req.serviceName, NameLabel(req.serviceName)),
      DeploymentSpec(req.replicas, LabelSelector(NameLabel(req.serviceName)),
        PodTemplate(TemplateMeta(NameLabel(req.serviceName)),
          PodSpec([container], volumes))));
  }

  /** The Service `_create_service_config` returns (it reads only the name and the port) */
  function ServiceConfig(req: ServiceRequest): Service {
    var spec :=
      match req.publishPort
      case None => ServiceSpec(None, None, NameLabel(req.serviceName))
      case Some(p) => ServiceSpec(Some(NODE_PORT), Some([ServicePort(p.1, p.1, p.0)]), NameLabel(req.serviceName));
    Service("v1", "Service", ObjectMeta(req.serviceName, NameLabel(req.serviceName)), spec)
  }

  // ---------------------------------------------------------------------------
  // Readings of a manifest, as the cluster interprets it
  // ---------------------------------------------------------------------------

  /** A label selector picks the objects whose labels include all of its pairs */
  predicate Selects(selector: Labels, labels: Labels) {
    forall k :: k in selector ==> k in labels && labels[k] == selector[k]
  }

  /** The one container of a Deployment's pod template */
  function PodContainer(d: Deployment): Option<Container> {
    if |d.spec.template.spec.containers| == 1 then Some(d.spec.template.spec.containers[0]) else None
  }

  /** Host directory `hostPath` appears inside the container at `mountPath`:
      some volume on that host path is mounted, by its name, at that path */
  predicate MountsHostPath(d: Deployment, hostPath: string, mountPath: string)
    requires PodContainer(d).Some?
  {
    var volumes := d.spec.template.spec.volumes;
    var mounts := PodContainer(d).value.volumeMounts;
    exists i, j :: 0 <= i < |volumes| && 0 <= j < |mounts| &&
      volumes[i].hostPath.path == hostPath && mounts[j].name == volumes[i].name &&
      mounts[j].mountPath == mountPath
  }

  /** The environment a container starts with, as (name, value) pairs in order */
  function EnvOf(c: Container): Mapping {
    seq(|c.env|, i requires 0 <= i < |c.env| => (c.env[i].name, c.env[i].value))
  }

  /** How many GPUs the scheduler must reserve for a container */
  function GpuLimitOf(c: Container): int {
    if c.resources.Some? && GPU_RESOURCE in c.resources.value.limits
    then c.resources.value.limits[GPU_RESOURCE] else 0
  }

  /** The (node port, container port) pair a Service publishes, if any */
  function PublishedPorts(s: Service): Option<(int, int)> {
    if s.spec.serviceType == Some(NODE_PORT) && s.spec.ports.Some? && |s.spec.ports.value| == 1
       && s.spec.ports.value[0].port == s.spec.ports.value[0].targetPort
    then Some((s.spec.ports.value[0].nodePort, s.spec.ports.value[0].targetPort))
    else None
  }

  // ---------------------------------------------------------------------------
  // Properties of the Deployment
  // ---------------------------------------------------------------------------

  /** The Deployment, its pod template and its one container are all named after the
      service; the Deployment's selector picks exactly the pods labelled with that name,
      so it manages its own template's pods; the replica count is copied. */
  lemma DeploymentIdentity(req: ServiceRequest)
    ensures var d := DeploymentConfig(req);
      && d.metadata.name == req.serviceName
      && d.metadata.labels["name"] == req.serviceName
      && PodContainer(d).Some?
      && PodContainer(d).value.name == req.serviceName
      && PodContainer(d).value.image == req.dockerImage
      && d.spec.replicas == req.replicas
      && Selects(d.spec.selector.matchLabels, d.spec.template.metadata.labels)
      && (forall labels :: Selects(d.spec.selector.matchLabels, labels) <==>
            "name" in labels && labels["name"] == req.serviceName)
  {
    var d := DeploymentConfig(req);
    forall labels | "name" in labels && labels["name"] == req.serviceName
      ensures Selects(d.spec.selector.matchLabels, labels)
    {
    }
  }

  /** One volume and one mount per entry of `mounts`, in order: the i-th pair is named
      `v<i>`, the volume on the i-th host path, the mount at the i-th container path;
      the generated names are pairwise distinct. */
  lemma VolumeLayout(req: ServiceRequest)
    ensures var d := DeploymentConfig(req);
      var volumes := d.spec.template.spec.volumes;
      var mounts := d.spec.template.spec.containers[0].volumeMounts;
      && |volumes| == |mounts| == |req.mounts|
      && (forall i :: 0 <= i < |volumes| ==>
            && volumes[i].name == mounts[i].name == "v" + Decimal.NatToString(i)
            && volumes[i].hostPath.path == req.mounts[i].0
            && mounts[i].mountPath == req.mounts[i].1)
      && (forall i, j :: 0 <= i < j < |volumes| ==> volumes[i].name != volumes[j].name)
  {
    var volumes := DeploymentConfig(req).spec.template.spec.volumes;
    forall i, j | 0 <= i < j < |volumes| ensures volumes[i].name != volumes[j].name {
      VolumeNameInjective(i, j);
    }
  }

  /** The Deployment mounts host path `h` at container path `m` exactly when `(h, m)`
      is an entry of `mounts`: no entry is lost and no two entries are crossed. */
  lemma MountPairing(req: ServiceRequest, h: string, m: string)
    ensures PodContainer(DeploymentConfig(req)).Some?
    ensures MountsHostPath(DeploymentConfig(req), h, m) <==> (h, m) in req.mounts
  {
    var d := DeploymentConfig(req);
    var volumes := d.spec.template.spec.volumes;
    var mounts := PodContainer(d).value.volumeMounts;
    if MountsHostPath(d, h, m) {
      var i, j :| 0 <= i < |volumes| && 0 <= j < |mounts| &&
        volumes[i].hostPath.path == h && mounts[j].name == volumes[i].name &&
        mounts[j].mountPath == m;
      VolumeNameInjective(i, j);
      assert req.mounts[i] == (h, m);
    }
    if (h, m) in req.mounts {
      var i :| 0 <= i < |req.mounts| && req.mounts[i] == (h, m);
      assert volumes[i].hostPath.path == h && mounts[i].name == volumes[i].name && mounts[i].mountPath == m;
    }
  }

  /** The container's environment is `environment_vars`, entry for entry, in order */
  lemma EnvRoundTrip(req: ServiceRequest)
    ensures PodContainer(DeploymentConfig(req)).Some?
    ensures EnvOf(PodContainer(DeploymentConfig(req)).value) == req.environmentVars
  {
    var c := PodContainer(DeploymentConfig(req)).value;
    assert forall i :: 0 <= i < |req.environmentVars| ==> EnvOf(c)[i] == req.environmentVars[i];
  }

  /** A GPU limit of `gpus` exactly when `gpus > 0`; otherwise no `resources` key at all.
      Only `limits` is set, under the single key `nvidia.com/gpu`. */
  lemma GpuPolicy(req: ServiceRequest)
    ensures PodContainer(DeploymentConfig(req)).Some?
    ensures var c := PodContainer(DeploymentConfig(req)).value;
      && (c.resources.Some? <==> req.gpus > 0)
      && (c.resources.Some? ==> c.resources.value.limits.Keys == {GPU_RESOURCE})
      && GpuLimitOf(c) == if req.gpus > 0 then req.gpus else 0
  {
  }

  /** `args` never reaches the Deployment */
  lemma DeploymentIgnoresArgs(req: ServiceRequest, args: seq<string>)
    ensures DeploymentConfig(req.(args := args)) == DeploymentConfig(req)
  {
  }

  // ---------------------------------------------------------------------------
  // Properties of the Service
  // ---------------------------------------------------------------------------

  /** With `publish_port = (p0, p1)` the Service is of type NodePort with the single rule
      `{port: p1, targetPort: p1, nodePort: p0}`; without one it has neither a type nor
      ports.  Reading the ports back gives `publish_port`. */
  lemma ServicePortRule(req: ServiceRequest)
    ensures var s := ServiceConfig(req);
      && s.metadata.name == req.serviceName
      && (req.publishPort.None? ==> s.spec.serviceType.None? && s.spec.ports.None?)
      && (req.publishPort.Some? ==>
            && s.spec.serviceType == Some(NODE_PORT)
            && s.spec.ports.Some? && |s.spec.ports.value| == 1
            && s.spec.ports.value[0] == ServicePort(req.publishPort.value.1, req.publishPort.value.1, req.publishPort.value.0))
      && PublishedPorts(s) == req.publishPort
  {
  }

  /** The Service's selector is exactly `{name: service_name}`: it routes to the pods of
      the Deployment built from the same request, to every pod carrying the service's
      name label and to no other, so it picks the same pods as the Deployment's selector. */
  lemma ServiceTargetsDeployment(req: ServiceRequest)
    ensures var s := ServiceConfig(req);
      var d := DeploymentConfig(req);
      && s.metadata.name == d.metadata.name
      && s.spec.selector == NameLabel(req.serviceName)
      && Selects(s.spec.selector, d.spec.template.metadata.labels)
      && (forall labels :: Selects(s.spec.selector, labels) <==>
            "name" in labels && labels["name"] == req.serviceName)
      && (forall labels :: Selects(s.spec.selector, labels) <==> Selects(d.spec.selector.matchLabels, labels))
  {
    var s := ServiceConfig(req);
    forall labels | "name" in labels && labels["name"] == req.serviceName
      ensures Selects(s.spec.selector, labels)
    {
    }
  }

  /** The Service depends on nothing but the service name and the published port */
  lemma ServiceIgnoresWorkload(req: ServiceRequest, other: ServiceRequest)
    requires other.serviceName == req.serviceName && other.publishPort == req.publishPort
    ensures ServiceConfig(other) == ServiceConfig(req)
  {
  }
}
