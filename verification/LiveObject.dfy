/**
 The live-object merge of reconcileDeployment: the managed fields of the desired
 Deployment are written over the object read from the API server, every other
 field is kept, and an update is issued only when the spec really changed.
 Env lists, ports and resource quantities are kept as opaque text; `rest` stands
 for the fields the operator does not manage (probes, pull policy, defaults).
 */
module LiveObject {
  import opened Basics

  const CONFIG_HASH := "peerdb.peerdb.io/config-hash"

  datatype Container = Container(
    image: string, env: string, envFrom: string, ports: string, resources: string, rest: string)

  datatype Template = Template(
    labels: map<string, string>, annotations: map<string, string>, serviceAccount: string,
    containers: seq<Container>, rest: string)

  datatype DeploymentSpec = DeploymentSpec(replicas: Option<nat>, template: Template, rest: string)

  /** The counters the Deployment controller reports. */
  datatype Rollout = Rollout(
    observedGeneration: nat, replicas: nat, updated: nat, available: nat, ready: nat)

  datatype Deployment = Deployment(
    labels: map<string, string>, spec: DeploymentSpec, generation: nat, rv: nat, status: Rollout)

  function MergeAnnotations(live: map<string, string>, desired: map<string, string>): map<string, string> {
    if CONFIG_HASH in desired then live[CONFIG_HASH := desired[CONFIG_HASH]] else live
  }

  function MergeContainer(live: Container, desired: Container): Container {
    desired.(rest := live.rest)
  }

  function MergeContainers(live: seq<Container>, desired: seq<Container>): seq<Container> {
    if |live| > 0 && |desired| > 0 then live[0 := MergeContainer(live[0], desired[0])] else live
  }

  /** What reconcileDeployment leaves in `existing.Spec` before it decides whether to write. */
  function Merge(live: DeploymentSpec, desired: DeploymentSpec): DeploymentSpec {
    DeploymentSpec(
      desired.replicas,
      Template(
        desired.template.labels,
        MergeAnnotations(live.template.annotations, desired.template.annotations),
        desired.template.serviceAccount,
        MergeContainers(live.template.containers, desired.template.containers),
        live.template.rest),
      live.rest)
  }

  /** The live object needs no write for this desired object. */
  predicate UpToDate(live: DeploymentSpec, desired: DeploymentSpec) {
    Merge(live, desired) == live
  }

  /** A declarative reading of the merge: the managed fields come from `desired`, the others from `live`. */
  ghost predicate ManagedFrom(r: DeploymentSpec, live: DeploymentSpec, desired: DeploymentSpec) {
    && r.replicas == desired.replicas
    && r.template.labels == desired.template.labels
    && r.template.serviceAccount == desired.template.serviceAccount
    && r.rest == live.rest && r.template.rest == live.template.rest
    && (forall k: string ::
          k in r.template.annotations <==>
          k in live.template.annotations || (k == CONFIG_HASH && k in desired.template.annotations))
    && (forall k: string | k in r.template.annotations ::
          r.template.annotations[k] == (
            if k == CONFIG_HASH && k in desired.template.annotations
            then desired.template.annotations[k]
            else live.template.annotations[k]))
    && |r.template.containers| == |live.template.containers|
    && (forall i :: 0 <= i < |live.template.containers| ==>
          r.template.containers[i] == (
            if i == 0 && |desired.template.containers| > 0
            then desired.template.containers[0].(rest := live.template.containers[0].rest)
            else live.template.containers[i]))
  }

  /** The merge yields the one spec that takes the managed fields from `desired` and the rest from `live`. */
  lemma MergeIsManagedFrom(r: DeploymentSpec, live: DeploymentSpec, desired: DeploymentSpec)
    ensures r == Merge(live, desired) <==> ManagedFrom(r, live, desired)
  {
    var m := Merge(live, desired);
    assert ManagedFrom(m, live, desired);
    if ManagedFrom(r, live, desired) {
      assert r.template.annotations.Keys == m.template.annotations.Keys;
      assert r.template.annotations == m.template.annotations;
      assert r.template.containers == m.template.containers;
    }
  }

  /** Merging twice with the same desired object changes nothing more, so a second reconcile issues no write. */
  lemma MergeIdempotent(live: DeploymentSpec, desired: DeploymentSpec)
    ensures UpToDate(Merge(live, desired), desired)
  {
    MergeIsManagedFrom(Merge(live, desired), Merge(live, desired), desired);
  }

  /**
   A later merge absorbs an earlier one exactly when the later desired object carries everything the
   earlier one wrote: a config hash if the earlier set one, a container if the earlier changed one.
   */
  lemma MergeAbsorbs(live: DeploymentSpec, d1: DeploymentSpec, d2: DeploymentSpec)
    ensures Merge(Merge(live, d1), d2) == Merge(live, d2) <==>
            && (CONFIG_HASH in d2.template.annotations ||
                MergeAnnotations(live.template.annotations, d1.template.annotations) == live.template.annotations)
            && (|d2.template.containers| > 0 ||
                MergeContainers(live.template.containers, d1.template.containers) == live.template.containers)
  {
    var a, a1, a2 := live.template.annotations, d1.template.annotations, d2.template.annotations;
    assert CONFIG_HASH in a2 ==> MergeAnnotations(MergeAnnotations(a, a1), a2) == MergeAnnotations(a, a2);
    var c, c1, c2 := live.template.containers, d1.template.containers, d2.template.containers;
    assert |c2| > 0 ==> MergeContainers(MergeContainers(c, c1), c2) == MergeContainers(c, c2);
  }

  function DesiredReplicas(desired: DeploymentSpec): nat {
    if desired.replicas.Some? then desired.replicas.value else 1
  }

  /** deploymentRolledOut */
  predicate RolledOut(d: Deployment, replicas: nat) {
    && d.status.observedGeneration >= d.generation
    && d.status.updated == replicas
    && d.status.available == replicas
  }

  /** The Go object `existing`, whose fields reconcileDeployment assigns one by one. */
  class LiveDeployment {
    var labels: map<string, string>
    var replicas: Option<nat>
    var templateLabels: map<string, string>
    var annotations: map<string, string>
    var serviceAccount: string
    var containers: seq<Container>
    const templateRest: string
    const specRest: string

    constructor (d: Deployment)
      ensures labels == d.labels && Spec() == d.spec
    {
      labels := d.labels;
      replicas := d.spec.replicas;
      templateLabels := d.spec.template.labels;
      annotations := d.spec.template.annotations;
      serviceAccount := d.spec.template.serviceAccount;
      containers := d.spec.template.containers;
      templateRest := d.spec.template.rest;
      specRest := d.spec.rest;
    }

    function Spec(): DeploymentSpec
      reads this
    {
      DeploymentSpec(replicas,
                     Template(templateLabels, annotations, serviceAccount, containers, templateRest),
                     specRest)
    }

    /** The assignments between the DeepCopy and the DeepEqual of reconcileDeployment. */
    method SetManagedFields(desiredLabels: map<string, string>, desired: DeploymentSpec)
      modifies this
      ensures labels == desiredLabels
      ensures Spec() == Merge(old(Spec()), desired)
    {
      labels := desiredLabels;
      replicas := desired.replicas;
      templateLabels := desired.template.labels;
      serviceAccount := desired.template.serviceAccount;
      if CONFIG_HASH in desired.template.annotations {
        annotations := annotations[CONFIG_HASH := desired.template.annotations[CONFIG_HASH]];
      }
      if |containers| > 0 && |desired.template.containers| > 0 {
        var dc := desired.template.containers[0];
        containers := containers[0 := containers[0].(
          image := dc.image, env := dc.env, envFrom := dc.envFrom, ports := dc.ports, resources := dc.resources)];
      }
    }
  }
}
