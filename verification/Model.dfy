/**
 The objects the operator works on: the PeerDBCluster with its persisted status, the objects it manages,
 and everything the rest of the world may do to them. Messages, reasons and timestamps of conditions,
 metrics and events are left out.
 */
module Model {
  import opened Basics
  import opened JobNames
  import opened LiveObject
  import opened MaintenanceWindow

  // ----- PeerDBCluster -----

  datatype Phase =
    | Complete | Waiting | Blocked | StartMaintenance | Config | InitJobs
    | FlowAPI | PeerDBServer | UI | EndMaintenance

  /** A condition: absent, True or False. */
  datatype Cond = Unset | Yes | No

  datatype Conditions = Conditions(
    ready: Cond, catalogReady: Cond, temporalReady: Cond, initialized: Cond, componentsReady: Cond,
    reconciling: Cond, degraded: Cond, upgradeInProgress: Cond, backupSafe: Cond, maintenanceMode: Cond)

  datatype Upgrade = Upgrade(from: string, to: string, phase: Phase, startedAt: Option<int>)

  datatype Status = Status(observedGeneration: nat, conditions: Conditions, upgrade: Option<Upgrade>)

  const NO_CONDITIONS := Conditions(Unset, Unset, Unset, Unset, Unset, Unset, Unset, Unset, Unset, Unset)
  const NEW_STATUS := Status(0, NO_CONDITIONS, None)

  datatype Policy = Automatic | Manual

  datatype JobSwitch = JobSwitch(enabled: Option<bool>)
  datatype InitSpec = InitSpec(nsRegister: Option<JobSwitch>, searchAttr: Option<JobSwitch>)

  datatype Component = Api | Server | Ui

  /** What the spec says about one component; env, ports and resources as the builder renders them. */
  datatype ComponentSpec = ComponentSpec(
    image: Option<string>, replicas: Option<nat>, env: string, ports: string, resources: string, service: string)

  datatype Spec = Spec(
    version: string, paused: bool, policy: Option<Policy>, window: Option<Window>, maintenance: bool,
    init: Option<InitSpec>, api: ComponentSpec, server: ComponentSpec, ui: ComponentSpec,
    serviceAccount: Option<string>, config: map<string, string>, secretName: string)

  /** `backup` is the value of the backup-in-progress annotation, "" when absent. */
  datatype Cluster = Cluster(
    name: string, spec: Spec, backup: string, generation: nat, rv: nat, status: Status)

  predicate Fenced(c: Cluster) { c.backup != "" }

  // ----- what the builders in internal/resources derive from the cluster -----

  function SpecOf(spec: Spec, k: Component): ComponentSpec {
    match k case Api => spec.api case Server => spec.server case Ui => spec.ui
  }

  function ImageName(k: Component): string {
    match k case Api => "flow-api" case Server => "peerdb-server" case Ui => "peerdb-ui"
  }

  /** The component label. */
  function LabelName(k: Component): string {
    match k case Api => "flow-api" case Server => "server" case Ui => "ui"
  }

  /** CommonLabels */
  function LabelsOf(cluster: string, component: string): map<string, string> {
    map["app.kubernetes.io/name" := "peerdb",
        "app.kubernetes.io/instance" := cluster,
        "app.kubernetes.io/component" := component,
        "app.kubernetes.io/managed-by" := "peerdb-operator"]
  }

  /** BuildFlowAPIDeployment, BuildPeerDBServerDeployment, BuildUIDeployment */
  function Build(c: Cluster, k: Component, hash: string): DeploymentSpec {
    var cs := SpecOf(c.spec, k);
    var image := if cs.image.Some? then cs.image.value
                 else "ghcr.io/peerdb-io/" + ImageName(k) + ":stable-" + c.spec.version;
    DeploymentSpec(
      Some(if cs.replicas.Some? then cs.replicas.value else 1),
      Template(LabelsOf(c.name, LabelName(k)), map[CONFIG_HASH := hash], c.name,
               [Container(image, cs.env, c.name + "-config", cs.ports, cs.resources, "")], ""),
      "")
  }

  /** The other objects a reconcile writes: create when absent, update when the content differs. */
  datatype Plain = ServiceAccount | ConfigMap | Service(k: Component)
  datatype Content = Text(text: string) | Data(data: map<string, string>)

  /** None: the ServiceAccount is not managed. */
  function DesiredPlain(c: Cluster, o: Plain): Option<Content> {
    match o
    case ServiceAccount => if c.spec.serviceAccount.Some? then Some(Text(c.spec.serviceAccount.value)) else None
    case ConfigMap => Some(Data(c.spec.config))
    case Service(k) => Some(Text(SpecOf(c.spec, k).service))
  }

  /** isInitJobEnabled */
  predicate SwitchedOn(s: Option<JobSwitch>) {
    s.None? || s.value.enabled.None? || s.value.enabled.value
  }

  /** Whether the spec asks for jobs of a family, with the nil checks of the callers. */
  predicate Enabled(spec: Spec, f: Family) {
    match f
    case NsRegister => spec.init.None? || SwitchedOn(spec.init.value.nsRegister)
    case SearchAttr => spec.init.None? || SwitchedOn(spec.init.value.searchAttr)
    case MaintenanceStart => spec.maintenance
    case MaintenanceEnd => spec.maintenance
  }

  // ----- the API server and the cluster around the operator -----

  /** A Job never reports both Complete and Failed. */
  datatype JobStatus = Running | Succeeded | Failed

  datatype World = World(
    cluster: Cluster, secret: Option<string>, clock: int,
    plain: map<Plain, Content>, deps: map<Component, Deployment>, jobs: map<JobKey, JobStatus>,
    nextRv: nat)

  /** Everything that happens outside the operator. */
  datatype Env =
    | EditSpec(spec: Spec)
    | Annotate(backup: string)
    | TouchCluster
    | SetSecret(version: Option<string>)
    | Tick(minutes: nat)
    | JobEnds(key: JobKey, ok: bool)
    | JobRemoved(key: JobKey)
    | RolloutAdvances(k: Component, status: Rollout)
    | EditDeployment(k: Component, template: DeploymentSpec)
    | DeploymentRemoved(k: Component)
    | EditPlain(o: Plain, content: Option<Content>)

  function ApplyEnv(w: World, e: Env): World {
    match e
    case EditSpec(spec) =>
      w.(cluster := w.cluster.(spec := spec, generation := w.cluster.generation + 1, rv := w.nextRv), nextRv := w.nextRv + 1)
    case Annotate(b) => w.(cluster := w.cluster.(backup := b, rv := w.nextRv), nextRv := w.nextRv + 1)
    case TouchCluster => w.(cluster := w.cluster.(rv := w.nextRv), nextRv := w.nextRv + 1)
    case SetSecret(v) => w.(secret := v)
    case Tick(m) => w.(clock := w.clock + m)
    case JobEnds(key, ok) =>
      if key in w.jobs && w.jobs[key] == Running
      then w.(jobs := w.jobs[key := if ok then Succeeded else Failed]) else w
    case JobRemoved(key) => w.(jobs := w.jobs - {key})
    case RolloutAdvances(k, status) =>
      if k in w.deps && status.observedGeneration <= w.deps[k].generation
      then w.(deps := w.deps[k := w.deps[k].(status := status, rv := w.nextRv)], nextRv := w.nextRv + 1) else w
    case EditDeployment(k, spec) =>
      if k in w.deps
      then w.(deps := w.deps[k := w.deps[k].(spec := spec, generation := w.deps[k].generation + 1, rv := w.nextRv)],
              nextRv := w.nextRv + 1)
      else w
    case DeploymentRemoved(k) => w.(deps := w.deps - {k})
    case EditPlain(o, content) =>
      if content.Some? then w.(plain := w.plain[o := content.value]) else w.(plain := w.plain - {o})
  }

  /** A freshly created PeerDBCluster; what else exists is left open. */
  predicate Fresh(w: World) {
    && w.cluster.status == NEW_STATUS
    && w.cluster.rv < w.nextRv
    && forall k :: k in w.deps ==> w.deps[k].rv < w.nextRv && w.deps[k].status.observedGeneration <= w.deps[k].generation
  }
}
