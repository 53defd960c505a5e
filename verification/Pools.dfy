/**
 The worker-pool and snapshot-pool controllers beside the cluster controller. Each reconcile of a pool is a
 sequence of API calls of its own, interleaved with the calls of the others, with the autoscaler and with
 everybody else. Pool status and events are left out.
 */
module Pools {
  import opened Basics
  import opened Model
  import opened ClusterMachine
  import opened ReconcileFacts
  import opened PhaseGraph
  import Versions
  import ConfigHash
  import LiveObject

  datatype Kind = Worker | Snapshot
  datatype PoolId = PoolId(kind: Kind, name: string)

  datatype PoolSpec = PoolSpec(image: string, replicas: Option<nat>, autoscaling: bool, rest: string)

  datatype PodTemplate = PodTemplate(image: string, configHash: string, rest: string)

  /** A worker pool's Deployment or a snapshot pool's StatefulSet. */
  datatype Workload = Workload(template: PodTemplate, replicas: nat, rv: nat)

  datatype PoolPc =
    | ClusterGet | ServiceGet | ServicePut | PoolSecretGet | WorkGet | WorkPost | WorkPut(read: Workload)

  /** A pool reconcile in flight: the pool spec it read, then the cluster it read. */
  datatype Flight = Flight(pc: PoolPc, spec: PoolSpec, cluster: Option<Cluster>, hash: string)

  datatype PoolWorld = PoolWorld(
    specs: map<PoolId, PoolSpec>, works: map<PoolId, Workload>, services: set<PoolId>,
    flights: map<PoolId, Flight>, nextRv: nat)

  datatype Whole = Whole(sys: Sys, p: PoolWorld)

  // ----- what the builders derive -----

  function DesiredTemplate(kind: Kind, spec: PoolSpec, cluster: Cluster, hash: string): PodTemplate {
    var image := if spec.image != "" then spec.image
                 else match kind
                      case Worker => Versions.DefaultWorkerImage(cluster.spec.version)
                      case Snapshot => Versions.DefaultSnapshotImage(cluster.spec.version);
    PodTemplate(image, hash, spec.rest)
  }

  function DesiredReplicas(kind: Kind, spec: PoolSpec): nat {
    if spec.replicas.Some? then spec.replicas.value else match kind case Worker => 2 case Snapshot => 1
  }

  /** The object `existing` once its template and replicas have been set; the autoscaler owns a worker's replicas. */
  function Updated(kind: Kind, spec: PoolSpec, cluster: Cluster, hash: string, existing: Workload): Workload {
    existing.(
      template := DesiredTemplate(kind, spec, cluster, hash),
      replicas := if kind == Worker && spec.autoscaling then existing.replicas else DesiredReplicas(kind, spec))
  }

  // ----- the calls -----

  function Continue(p: PoolWorld, id: PoolId, f: Flight): PoolWorld { p.(flights := p.flights[id := f]) }

  function EndFlight(p: PoolWorld, id: PoolId): PoolWorld { p.(flights := p.flights - {id}) }

  function AfterPoolSecret(f: Flight, c: Cluster, secret: Option<string>): Flight {
    f.(hash := ConfigHash.PoolText(c.spec.config, c.spec.secretName, secret), pc := WorkGet)
  }

  function WorkGetStep(p: PoolWorld, id: PoolId, f: Flight, c: Cluster): PoolWorld {
    if id !in p.works then Continue(p, id, f.(pc := WorkPost))
    else
      var d := p.works[id];
      if !Fenced(c) && Updated(id.kind, f.spec, c, f.hash, d) != d then Continue(p, id, f.(pc := WorkPut(d)))
      else EndFlight(p, id)
  }

  function WorkPostStep(p: PoolWorld, id: PoolId, f: Flight, c: Cluster): PoolWorld {
    if id in p.works then EndFlight(p, id)
    else
      var d := Workload(DesiredTemplate(id.kind, f.spec, c, f.hash), DesiredReplicas(id.kind, f.spec), p.nextRv);
      EndFlight(p.(works := p.works[id := d], nextRv := p.nextRv + 1), id)
  }

  /** The version-checked update; on a conflict the reconcile returns the error. */
  function WorkPutStep(p: PoolWorld, id: PoolId, f: Flight, c: Cluster, read: Workload): PoolWorld {
    if id !in p.works || p.works[id].rv != read.rv then EndFlight(p, id)
    else
      var d := Updated(id.kind, f.spec, c, f.hash, read).(rv := p.nextRv);
      EndFlight(p.(works := p.works[id := d], nextRv := p.nextRv + 1), id)
  }

  function PoolStep(w: World, p: PoolWorld, id: PoolId, f: Flight, fails: bool): PoolWorld {
    if f.pc.ClusterGet? then
      if fails then EndFlight(p, id)
      else Continue(p, id, f.(cluster := Some(w.cluster), pc := if id.kind == Snapshot then ServiceGet else PoolSecretGet))
    else if f.cluster.None? then EndFlight(p, id)
    else if f.pc.PoolSecretGet? then
      Continue(p, id, AfterPoolSecret(f, f.cluster.value, if fails then None else w.secret))
    else if fails then EndFlight(p, id)
    else match f.pc
      case ServiceGet => Continue(p, id, f.(pc := ServicePut))
      case ServicePut => Continue(p.(services := p.services + {id}), id, f.(pc := PoolSecretGet))
      case WorkGet => WorkGetStep(p, id, f, f.cluster.value)
      case WorkPost => WorkPostStep(p, id, f, f.cluster.value)
      case WorkPut(read) => WorkPutStep(p, id, f, f.cluster.value, read)
      case _ => EndFlight(p, id)
  }

  // ----- acts -----

  datatype PoolAct =
    | ClusterAct(a: Act)
    | PoolStart(id: PoolId)
    | PoolCall(id: PoolId, fails: bool)
    | PoolCrash(id: PoolId)
    | EditPool(id: PoolId, spec: PoolSpec)
    | Autoscale(id: PoolId, replicas: nat)
    | WorkTouched(id: PoolId)
    | WorkRemoved(id: PoolId)

  function Do(g: Whole, a: PoolAct): Whole {
    var p := g.p;
    match a
    case ClusterAct(c) => g.(sys := Apply(g.sys, c))
    case PoolStart(id) =>
      if id in p.specs && id !in p.flights then g.(p := Continue(p, id, Flight(ClusterGet, p.specs[id], None, ""))) else g
    case PoolCall(id, fails) =>
      if id in p.flights then g.(p := PoolStep(g.sys.w, p, id, p.flights[id], fails)) else g
    case PoolCrash(id) => g.(p := EndFlight(p, id))
    case EditPool(id, spec) => g.(p := p.(specs := p.specs[id := spec]))
    case Autoscale(id, n) =>
      if id in p.works && id.kind == Worker
      then g.(p := p.(works := p.works[id := p.works[id].(replicas := n, rv := p.nextRv)], nextRv := p.nextRv + 1))
      else g
    case WorkTouched(id) =>
      if id in p.works
      then g.(p := p.(works := p.works[id := p.works[id].(rv := p.nextRv)], nextRv := p.nextRv + 1)) else g
    case WorkRemoved(id) => g.(p := p.(works := p.works - {id}))
  }

  function DoAll(g: Whole, acts: seq<PoolAct>): Whole {
    if acts == [] then g else Do(DoAll(g, acts[..|acts| - 1]), acts[|acts| - 1])
  }

  ghost predicate WholeInitial(g: Whole) {
    && Initial(g.sys) && g.p.flights == map[]
    && forall id :: id in g.p.works ==> g.p.works[id].rv < g.p.nextRv
  }

  // ----- no lost update of the autoscaler -----

  /** Autoscaling is enabled for the worker pool, and was when the reconcile in flight read it. */
  ghost predicate Autoscaled(g: Whole, id: PoolId) {
    && id.kind == Worker
    && (id in g.p.specs ==> g.p.specs[id].autoscaling)
    && (id in g.p.flights ==> g.p.flights[id].spec.autoscaling)
  }

  ghost predicate StaysAutoscaled(a: PoolAct, id: PoolId) { a.EditPool? && a.id == id ==> a.spec.autoscaling }

  /** An equal resource version means an unchanged object. */
  ghost predicate Versioned(p: PoolWorld, id: PoolId) {
    && (id in p.works ==> p.works[id].rv < p.nextRv)
    && (id in p.flights && p.flights[id].pc.WorkPut? ==>
          var read := p.flights[id].pc.read;
          read.rv < p.nextRv && (id in p.works && p.works[id].rv == read.rv ==> p.works[id] == read))
  }

  /** What a call of a reconcile leaves alone: versions stay truthful, and reconciles in flight keep what they read. */
  ghost predicate KeepsVersions(p: PoolWorld, q: PoolWorld, id: PoolId) {
    && Versioned(q, id) && q.specs == p.specs
    && (id in q.flights ==> id in p.flights && q.flights[id].spec == p.flights[id].spec)
  }

  /** An existing workload of pool id still exists with its replicas. */
  ghost predicate KeepsReplicas(p: PoolWorld, q: PoolWorld, id: PoolId) {
    id in p.works ==> id in q.works && q.works[id].replicas == p.works[id].replicas
  }

  ghost predicate ScalesItself(p: PoolWorld, id: PoolId) {
    id.kind == Worker && (id in p.flights ==> p.flights[id].spec.autoscaling)
  }

  lemma WorkGetKeeps(p: PoolWorld, o: PoolId, f: Flight, c: Cluster, id: PoolId)
    requires o in p.flights && f == p.flights[o] && Versioned(p, id)
    ensures var q := WorkGetStep(p, o, f, c); KeepsVersions(p, q, id) && KeepsReplicas(p, q, id)
  {
    hide Updated;
  }

  lemma WorkPostKeeps(p: PoolWorld, o: PoolId, f: Flight, c: Cluster, id: PoolId)
    requires o in p.flights && f == p.flights[o] && Versioned(p, id)
    ensures var q := WorkPostStep(p, o, f, c); KeepsVersions(p, q, id) && KeepsReplicas(p, q, id)
  {
    hide DesiredTemplate;
  }

  lemma WorkPutKeeps(p: PoolWorld, o: PoolId, f: Flight, c: Cluster, id: PoolId)
    requires o in p.flights && f == p.flights[o] && Versioned(p, id) && f.pc.WorkPut?
    ensures var q := WorkPutStep(p, o, f, c, f.pc.read); KeepsVersions(p, q, id) && (ScalesItself(p, id) ==> KeepsReplicas(p, q, id))
  {
    hide DesiredTemplate;
  }

  /** No call of any reconcile changes the replicas of a worker that scales itself. */
  lemma PoolStepKeeps(w: World, p: PoolWorld, o: PoolId, fails: bool, id: PoolId)
    requires o in p.flights && Versioned(p, id)
    ensures var q := PoolStep(w, p, o, p.flights[o], fails);
            KeepsVersions(p, q, id) && (ScalesItself(p, id) ==> KeepsReplicas(p, q, id))
  {
    hide ConfigHash.PoolText, WorkGetStep, WorkPostStep, WorkPutStep;
    var f := p.flights[o];
    if f.cluster.Some? {
      match f.pc {
        case WorkGet => WorkGetKeeps(p, o, f, f.cluster.value, id);
        case WorkPost => WorkPostKeeps(p, o, f, f.cluster.value, id);
        case WorkPut(_) => WorkPutKeeps(p, o, f, f.cluster.value, id);
        case _ =>
      }
    }
  }

  /** Resource versions are truthful over every run, autoscaled or not. */
  lemma {:induction false} VersionsHold(g: Whole, acts: seq<PoolAct>, id: PoolId)
    requires WholeInitial(g)
    ensures Versioned(DoAll(g, acts).p, id)
  {
    hide PoolStep, Apply, Initial;
    if acts != [] {
      var mid, a := DoAll(g, acts[..|acts| - 1]), acts[|acts| - 1];
      VersionsHold(g, acts[..|acts| - 1], id);
      if a.PoolCall? && a.id in mid.p.flights { PoolStepKeeps(mid.sys.w, mid.p, a.id, a.fails, id); }
    }
  }

  /** The replicas the worker had at g, or the autoscaler's last since then; None while it does not exist or is new. */
  ghost function LastScale(g: Whole, acts: seq<PoolAct>, id: PoolId): Option<nat> {
    if acts == [] then if id in g.p.works then Some(g.p.works[id].replicas) else None
    else
      var before, a := acts[..|acts| - 1], acts[|acts| - 1];
      if a.Autoscale? && a.id == id && id in DoAll(g, before).p.works then Some(a.replicas)
      else if a == WorkRemoved(id) then None
      else LastScale(g, before, id)
  }

  ghost predicate Scaled(p: PoolWorld, id: PoolId, n: Option<nat>) {
    n.Some? ==> id in p.works && p.works[id].replicas == n.value
  }

  lemma DoScaled(g: Whole, a: PoolAct, id: PoolId, n: Option<nat>)
    requires Autoscaled(g, id) && StaysAutoscaled(a, id) && Versioned(g.p, id) && Scaled(g.p, id, n)
    ensures Autoscaled(Do(g, a), id) && Versioned(Do(g, a).p, id)
    ensures a != WorkRemoved(id) && !(a.Autoscale? && a.id == id) ==> Scaled(Do(g, a).p, id, n)
  {
    hide PoolStep, Apply;
    if a.PoolCall? && a.id in g.p.flights { PoolStepKeeps(g.sys.w, g.p, a.id, a.fails, id); }
  }

  lemma {:induction false} ScaledFrom(mid: Whole, acts: seq<PoolAct>, id: PoolId)
    requires Versioned(mid.p, id) && Autoscaled(mid, id) && forall i :: 0 <= i < |acts| ==> StaysAutoscaled(acts[i], id)
    ensures var n := DoAll(mid, acts); Autoscaled(n, id) && Versioned(n.p, id) && Scaled(n.p, id, LastScale(mid, acts, id))
  {
    hide PoolStep, Apply, Autoscaled, Versioned;
    if acts != [] {
      var before, a := acts[..|acts| - 1], acts[|acts| - 1];
      ScaledFrom(mid, before, id);
      hide Do;
      DoScaled(DoAll(mid, before), a, id, LastScale(mid, before, id));
      if a.Autoscale? && a.id == id { AutoscaleWrites(DoAll(mid, before), a, id); }
    }
  }

  lemma AutoscaleWrites(g: Whole, a: PoolAct, id: PoolId)
    requires a.Autoscale? && a.id == id && Autoscaled(g, id)
    ensures if id in g.p.works then Scaled(Do(g, a).p, id, Some(a.replicas)) else Do(g, a) == g
  {
  }

  /**
   No lost update of the autoscaler: after any beginning of a run, from a moment at which autoscaling is enabled for the
   pool and for the reconcile in flight that read it, and for as long as it stays enabled, the replicas of the existing
   Deployment are in every interleaving the ones the autoscaler wrote last, or those it had at that moment.
   */
  lemma AutoscalerWins(g: Whole, before: seq<PoolAct>, acts: seq<PoolAct>, id: PoolId)
    requires WholeInitial(g) && Autoscaled(DoAll(g, before), id)
    requires forall i :: 0 <= i < |acts| ==> StaysAutoscaled(acts[i], id)
    ensures var mid := DoAll(g, before); Scaled(DoAll(mid, acts).p, id, LastScale(mid, acts, id))
  {
    hide DoAll;
    VersionsHold(g, before, id);
    ScaledFrom(DoAll(g, before), acts, id);
  }

  /** The condition on the reconcile in flight is needed: one that read the pool without autoscaling overwrites the value. */
  lemma StaleReadOverwrites(g: Whole, id: PoolId, n: nat)
    requires id in g.p.flights && id in g.p.works && id.kind == Worker
    requires var f := g.p.flights[id];
             && f.pc == WorkGet && !f.spec.autoscaling && f.cluster.Some? && !Fenced(f.cluster.value)
             && n != DesiredReplicas(Worker, f.spec)
    ensures var t := DoAll(g, [Autoscale(id, n), PoolCall(id, false), PoolCall(id, false)]);
            id in t.p.works && t.p.works[id].replicas == DesiredReplicas(Worker, g.p.flights[id].spec) != n
  {
    hide DesiredTemplate, Apply;
    var acts := [Autoscale(id, n), PoolCall(id, false), PoolCall(id, false)];
    assert acts[..2] == [Autoscale(id, n), PoolCall(id, false)] && acts[..2][..1] == [Autoscale(id, n)];
    assert acts[..2][..1][..0] == [];
    var one := Do(g, acts[0]);
    assert DoAll(g, acts[..2][..1]) == one;
    var two := Do(one, acts[1]);
    assert DoAll(g, acts[..2]) == two;
    assert two.p.flights[id].pc == WorkPut(one.p.works[id]);
  }

  // ----- what a reconcile leaves of the workload -----

  /** The Deployment or StatefulSet of a pool, spelled out. */
  predicate Fitting(d: Workload, kind: Kind, spec: PoolSpec, cluster: Cluster, hash: string) {
    && d.template.image == (if spec.image != "" then spec.image else match kind
                            case Worker => "ghcr.io/peerdb-io/flow-worker:stable-" + cluster.spec.version
                            case Snapshot => "ghcr.io/peerdb-io/flow-snapshot-worker:stable-" + cluster.spec.version)
    && d.template.configHash == hash && d.template.rest == spec.rest
    && ((kind == Worker && spec.autoscaling) ||
        d.replicas == match spec.replicas case Some(n) => n case None => if kind == Worker then 2 else 1)
  }

  lemma DesiredFits(kind: Kind, spec: PoolSpec, cluster: Cluster, hash: string, rv: nat)
    ensures Fitting(Workload(DesiredTemplate(kind, spec, cluster, hash), DesiredReplicas(kind, spec), rv), kind, spec, cluster, hash)
  {
  }

  lemma UpdatedFits(kind: Kind, spec: PoolSpec, cluster: Cluster, hash: string, existing: Workload)
    ensures Fitting(Updated(kind, spec, cluster, hash, existing), kind, spec, cluster, hash)
  {
  }

  /** Its version was taken by somebody else since it was looked at. */
  predicate Rejected(p: PoolWorld, id: PoolId, f: Flight) {
    (f.pc.WorkPost? && id in p.works) || (f.pc.WorkPut? && (id !in p.works || p.works[id].rv != f.pc.read.rv))
  }

  /**
   A successful call that ends a pool's reconcile, of a cluster read without a fence and not rejected, leaves a workload
   that fits the pool, the version and the configuration that were read.
   */
  lemma EndsFitting(w: World, p: PoolWorld, id: PoolId, f: Flight, c: Cluster)
    requires f.cluster == Some(c) && c.backup == "" && (f.pc.WorkGet? || f.pc.WorkPost? || f.pc.WorkPut?) && !Rejected(p, id, f)
    ensures var q := PoolStep(w, p, id, f, false);
            id !in q.flights ==> id in q.works && Fitting(q.works[id], id.kind, f.spec, c, f.hash)
  {
    hide ConfigHash.PoolText, Updated, DesiredTemplate, DesiredReplicas, Fitting;
    DesiredFits(id.kind, f.spec, c, f.hash, p.nextRv);
    if f.pc.WorkPut? {
      UpdatedFits(id.kind, f.spec, c, f.hash, f.pc.read);
      FittingIgnoresVersion(Updated(id.kind, f.spec, c, f.hash, f.pc.read), p.nextRv, id.kind, f.spec, c, f.hash);
    }
    if f.pc.WorkGet? && id in p.works { UpdatedFits(id.kind, f.spec, c, f.hash, p.works[id]); }
  }

  lemma FittingIgnoresVersion(d: Workload, rv: nat, kind: Kind, spec: PoolSpec, c: Cluster, hash: string)
    ensures Fitting(d.(rv := rv), kind, spec, c, hash) == Fitting(d, kind, spec, c, hash)
  {
  }

  // ----- the fence -----

  /** A fence is up, and every reconcile still in flight that has read the cluster has seen it. */
  ghost predicate FenceSeen(g: Whole) {
    && Fenced(g.sys.w.cluster)
    && (g.sys.ctl.Busy? ==> Fenced(g.sys.ctl.r.c))
    && (forall id :: id in g.p.flights && g.p.flights[id].cluster.Some? ==> Fenced(g.p.flights[id].cluster.value))
    && (forall id :: id in g.p.flights ==> !g.p.flights[id].pc.WorkPut?)
  }

  ghost predicate KeepsFence(a: PoolAct) {
    a.ClusterAct? && a.a.Outside? && a.a.e.Annotate? ==> a.a.e.backup != ""
  }

  /** An act of one of the three controllers. */
  ghost predicate ByOperator(a: PoolAct) {
    a.PoolStart? || a.PoolCall? || a.PoolCrash? || (a.ClusterAct? && !a.a.Outside?)
  }

  /** Existing workloads are as they were; the cluster controller's Deployments and Jobs are exactly as they were. */
  ghost predicate Untouchable(g: Whole, n: Whole) {
    && n.sys.w.deps == g.sys.w.deps && n.sys.w.jobs == g.sys.w.jobs
    && (forall id :: id in g.p.works ==> id in n.p.works && n.p.works[id] == g.p.works[id])
  }

  lemma FencedStep(w: World, b: Run, fails: bool)
    requires Facts(b) && Fenced(b.c)
    ensures Step(w, b, fails).w.deps == w.deps && Step(w, b, fails).w.jobs == w.jobs
  {
    hide ConfigHash.ClusterText, AfterPlain, AfterJob, FailuresDone, MaintenanceDone, RolledOutPhase, AfterFencedGet,
         Build, LabelsOf, LiveObject.UpToDate, LiveObject.Merge, LiveObject.RolledOut, DesiredPlain, Reads, NewPass, Quiet,
         CurrentRecord, Opens, Record, Successor, Earned, Own;
  }

  /** A fenced reconcile persists the record it read. */
  lemma FencedPersists(b: Run)
    requires Facts(b) && Fenced(b.c) && Persistable(b) && b.c.status.upgrade.Some?
    ensures b.upgrade == b.c.status.upgrade
  {
    hide GateOpen, Own, Successor, Record, Earned;
  }

  lemma FencedApply(s: Sys, a: Act)
    requires Inv(s) && Fenced(s.w.cluster) && (s.ctl.Busy? ==> Fenced(s.ctl.r.c))
    requires a.Outside? && a.e.Annotate? ==> a.e.backup != ""
    ensures var n := Apply(s, a);
            && Fenced(n.w.cluster) && (n.ctl.Busy? ==> Fenced(n.ctl.r.c))
            && (!a.Outside? ==> n.w.deps == s.w.deps && n.w.jobs == s.w.jobs)
            && (RecordAt(s).Some? ==> RecordAt(n) == RecordAt(s))
  {
    hide Step, Facts;
    ApplyInv(s, a);
    if a.Call? && s.ctl.Busy? {
      StatusWrites(s.w, s.ctl.r, a.fails);
      StepFacts(s.w, s.ctl.r, a.fails);
      FencedStep(s.w, s.ctl.r, a.fails);
    }
    if Persists(s, a) && RecordAt(s).Some? { FencedPersists(s.ctl.r); }
  }

  ghost predicate OnlyFlight(p: PoolWorld, q: PoolWorld, id: PoolId) {
    && (forall o :: o != id ==> (o in q.flights <==> o in p.flights) && (o in p.flights ==> q.flights[o] == p.flights[o]))
    && (forall o :: o in p.works ==> o in q.works && q.works[o] == p.works[o])
  }

  ghost predicate SeesFence(q: PoolWorld, id: PoolId) {
    id in q.flights ==>
      !q.flights[id].pc.WorkPut? && (q.flights[id].cluster.Some? ==> Fenced(q.flights[id].cluster.value))
  }

  lemma FencedWorkStep(p: PoolWorld, id: PoolId, f: Flight, c: Cluster)
    requires id in p.flights && f == p.flights[id] && f.cluster == Some(c) && Fenced(c)
    ensures var q := WorkGetStep(p, id, f, c); OnlyFlight(p, q, id) && SeesFence(q, id)
    ensures var q := WorkPostStep(p, id, f, c); OnlyFlight(p, q, id) && SeesFence(q, id)
  {
    hide DesiredTemplate, Updated, DesiredReplicas;
  }

  lemma FencedPoolStep(w: World, p: PoolWorld, id: PoolId, fails: bool)
    requires id in p.flights && Fenced(w.cluster) && SeesFence(p, id)
    ensures var q := PoolStep(w, p, id, p.flights[id], fails); OnlyFlight(p, q, id) && SeesFence(q, id)
  {
    hide ConfigHash.PoolText, WorkGetStep, WorkPostStep, WorkPutStep, Continue, EndFlight, OnlyFlight;
    var f := p.flights[id];
    FlightOnly(p, id);
    if f.cluster.Some? { FencedWorkStep(p, id, f, f.cluster.value); }
  }

  /** Going on or ending touches nothing but the pool's own reconcile. */
  lemma FlightOnly(p: PoolWorld, id: PoolId)
    ensures forall f: Flight :: OnlyFlight(p, Continue(p, id, f), id)
    ensures forall f: Flight :: (f.cluster.Some? ==> Fenced(f.cluster.value)) && !f.pc.WorkPut? ==> SeesFence(Continue(p, id, f), id)
    ensures var q := p.(services := p.services + {id}); forall f: Flight :: OnlyFlight(p, Continue(q, id, f), id)
    ensures var q := p.(services := p.services + {id});
            forall f: Flight :: (f.cluster.Some? ==> Fenced(f.cluster.value)) && !f.pc.WorkPut? ==> SeesFence(Continue(q, id, f), id)
    ensures OnlyFlight(p, EndFlight(p, id), id) && SeesFence(EndFlight(p, id), id)
  {
  }

  lemma FencedDo(g: Whole, a: PoolAct)
    requires Inv(g.sys) && FenceSeen(g) && KeepsFence(a)
    ensures var n := Do(g, a);
            && Inv(n.sys) && FenceSeen(n)
            && (ByOperator(a) ==> Untouchable(g, n))
            && (RecordAt(g.sys).Some? ==> RecordAt(n.sys) == RecordAt(g.sys))
  {
    hide PoolStep, Apply, Facts;
    if a.ClusterAct? { FencedApply(g.sys, a.a); ApplyInv(g.sys, a.a); }
    if a.PoolCall? && a.id in g.p.flights { FencedPoolStep(g.sys.w, g.p, a.id, a.fails); }
  }

  /**
   Fence safety: once every reconcile in flight has seen the fence, and for as long as the annotation stays, no call
   of any controller changes or deletes a Deployment, StatefulSet or Job that exists, the cluster controller creates
   none, and the upgrade record is frozen.
   */
  lemma {:induction false} FenceHolds(g: Whole, acts: seq<PoolAct>, i: nat)
    requires Inv(g.sys) && FenceSeen(g) && i <= |acts|
    requires forall j :: 0 <= j < |acts| ==> KeepsFence(acts[j])
    ensures var at := DoAll(g, acts[..i]);
            && Inv(at.sys) && FenceSeen(at)
            && (i < |acts| && ByOperator(acts[i]) ==> Untouchable(at, DoAll(g, acts[..i + 1])))
            && (RecordAt(g.sys).Some? ==> RecordAt(at.sys) == RecordAt(g.sys))
  {
    hide Do, Inv, FenceSeen, Untouchable, RecordAt;
    if i > 0 {
      FenceHolds(g, acts, i - 1);
      assert acts[..i][..i - 1] == acts[..i - 1];
      FencedDo(DoAll(g, acts[..i - 1]), acts[i - 1]);
    }
    if i < |acts| {
      assert acts[..i + 1][..i] == acts[..i];
      FencedDo(DoAll(g, acts[..i]), acts[i]);
    }
  }

  // ----- from the beginning of a run -----

  /** Only a reconcile that read the cluster without a fence is about to update. */
  ghost predicate SoundFlight(f: Flight) { f.pc.WorkPut? ==> f.cluster.Some? && !Fenced(f.cluster.value) }

  ghost predicate SoundFlights(p: PoolWorld) { forall id :: id in p.flights ==> SoundFlight(p.flights[id]) }

  lemma PoolStepSound(w: World, p: PoolWorld, id: PoolId, fails: bool)
    requires id in p.flights && SoundFlights(p)
    ensures SoundFlights(PoolStep(w, p, id, p.flights[id], fails))
  {
    hide ConfigHash.PoolText, DesiredTemplate, Updated, Fenced;
  }

  lemma {:induction false} FlightsStaySound(g: Whole, acts: seq<PoolAct>)
    requires SoundFlights(g.p)
    ensures SoundFlights(DoAll(g, acts).p)
  {
    hide PoolStep, Apply, SoundFlight;
    if acts != [] {
      var mid, a := DoAll(g, acts[..|acts| - 1]), acts[|acts| - 1];
      FlightsStaySound(g, acts[..|acts| - 1]);
      if a.PoolCall? && a.id in mid.p.flights { PoolStepSound(mid.sys.w, mid.p, a.id, a.fails); }
      if a.PoolStart? { NewFlightSound(mid.p.specs, a.id); }
    }
  }

  lemma NewFlightSound(specs: map<PoolId, PoolSpec>, id: PoolId)
    ensures id in specs ==> SoundFlight(Flight(ClusterGet, specs[id], None, ""))
  {
  }

  /** The cluster controller's part of a run of the whole. */
  ghost function ClusterActs(acts: seq<PoolAct>): seq<Act> {
    if acts == [] then []
    else ClusterActs(acts[..|acts| - 1]) + if acts[|acts| - 1].ClusterAct? then [acts[|acts| - 1].a] else []
  }

  /** The pool controllers do not disturb the cluster controller: its part of the run is a run of its own machine. */
  lemma {:induction false} ClusterPart(g: Whole, acts: seq<PoolAct>)
    ensures DoAll(g, acts).sys == Exec(g.sys, ClusterActs(acts))
  {
    hide PoolStep, Apply;
    if acts != [] {
      ClusterPart(g, acts[..|acts| - 1]);
      var before := ClusterActs(acts[..|acts| - 1]);
      if acts[|acts| - 1].ClusterAct? {
        assert (before + [acts[|acts| - 1].a])[..|before|] == before;
      } else {
        assert before + [] == before;
      }
    }
  }

  /** A fence is up, and every reconcile in flight that has read the cluster read it with the fence. */
  ghost predicate FenceKnown(g: Whole) {
    && g.sys.w.cluster.backup != ""
    && (g.sys.ctl.Busy? ==> g.sys.ctl.r.c.backup != "")
    && (forall id :: id in g.p.flights && g.p.flights[id].cluster.Some? ==> g.p.flights[id].cluster.value.backup != "")
  }

  /**
   Fence safety over every run: however the run began, once the fence is known and for as long as the annotation
   stays, no act of a controller changes or deletes a Deployment, StatefulSet or Job that exists, the cluster
   controller creates none, and the upgrade record is frozen.
   */
  lemma FenceSafety(g: Whole, before: seq<PoolAct>, acts: seq<PoolAct>, i: nat)
    requires WholeInitial(g) && FenceKnown(DoAll(g, before)) && i < |acts|
    requires forall j :: 0 <= j < |acts| ==> KeepsFence(acts[j])
    ensures var up := DoAll(g, before); var at := DoAll(up, acts[..i]); var next := DoAll(up, acts[..i + 1]);
            && (ByOperator(acts[i]) ==> Untouchable(at, next))
            && (RecordAt(up.sys).Some? ==> RecordAt(next.sys) == RecordAt(up.sys))
  {
    hide Do, Facts, Untouchable, RecordAt;
    FlightsStaySound(g, before);
    ClusterPart(g, before);
    ExecInv(g.sys, ClusterActs(before));
    FenceHolds(DoAll(g, before), acts, i);
    FenceHolds(DoAll(g, before), acts, i + 1);
  }
}
