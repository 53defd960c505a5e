/**
 The worker-pool and snapshot-pool controllers in their own form: methods that read, edit a local copy of the
 Deployment or StatefulSet under a needsUpdate flag, and write it back. Each reconcile is proved to be a run of
 the machine in Pools, interleaved with anything the rest of the world does.
 */
module PoolReconcilers {
  import opened Basics
  import opened Model
  import opened ClusterMachine
  import opened Pools
  import CH = ConfigHash

  /** What everybody else does before a call, and whether the call fails. */
  datatype PoolTurn = PoolTurn(acts: seq<PoolAct>, fails: bool)

  datatype Reply<T> = Ok(value: T) | NotFound | Conflict | Error

  /** Not an act of the controller on this pool: one pool is never reconciled twice at a time. */
  predicate Foreign(a: PoolAct, id: PoolId) {
    !((a.PoolStart? || a.PoolCall? || a.PoolCrash?) && a.id == id)
  }

  ghost function Add(p: PoolWorld, id: PoolId, f: Flight): PoolWorld { p.(flights := p.flights[id := f]) }

  ghost function With(g: Whole, id: PoolId, f: Option<Flight>): Whole {
    if f.None? then g else g.(p := Add(g.p, id, f.value))
  }

  lemma AddCommutes(id: PoolId, f: Flight, o: PoolId)
    requires o != id
    ensures forall p, x :: Continue(Add(p, id, f), o, x) == Add(Continue(p, o, x), id, f)
    ensures forall p :: EndFlight(Add(p, id, f), o) == Add(EndFlight(p, o), id, f)
  {
    forall p, x ensures Continue(Add(p, id, f), o, x) == Add(Continue(p, o, x), id, f) {
      assert p.flights[id := f][o := x] == p.flights[o := x][id := f];
    }
    forall p ensures EndFlight(Add(p, id, f), o) == Add(EndFlight(p, o), id, f) {
      assert p.flights[id := f] - {o} == (p.flights - {o})[id := f];
    }
  }

  /** The rest of the world neither sees nor touches this pool's reconcile in flight. */
  lemma ForeignCall(w: World, p: PoolWorld, id: PoolId, f: Flight, o: PoolId, x: Flight, fails: bool)
    requires id != o
    ensures PoolStep(w, Add(p, id, f), o, x, fails) == Add(PoolStep(w, p, o, x, fails), id, f)
  {
    hide Updated, DesiredTemplate, AfterPoolSecret, Continue, EndFlight;
    AddCommutes(id, f, o);
    var c := x.cluster;
    if c.Some? { ForeignWork(p, id, f, o, x, c.value); }
  }

  lemma ForeignWork(p: PoolWorld, id: PoolId, f: Flight, o: PoolId, x: Flight, c: Cluster)
    requires id != o
    ensures WorkGetStep(Add(p, id, f), o, x, c) == Add(WorkGetStep(p, o, x, c), id, f)
    ensures WorkPostStep(Add(p, id, f), o, x, c) == Add(WorkPostStep(p, o, x, c), id, f)
    ensures x.pc.WorkPut? ==> WorkPutStep(Add(p, id, f), o, x, c, x.pc.read) == Add(WorkPutStep(p, o, x, c, x.pc.read), id, f)
  {
    hide Updated, DesiredTemplate, Continue, EndFlight;
    AddCommutes(id, f, o);
  }

  lemma ForeignAct(g: Whole, id: PoolId, f: Option<Flight>, a: PoolAct)
    requires id !in g.p.flights && Foreign(a, id)
    ensures id !in Do(g, a).p.flights
    ensures Do(With(g, id, f), a) == With(Do(g, a), id, f)
  {
    hide PoolStep, Apply;
    if a.PoolCall? && a.id in g.p.flights { StaysForeign(g, id, a.id, a.fails); }
    if f.Some? && !a.ClusterAct? && a.id != id {
      AddCommutes(id, f.value, a.id);
      if a.PoolCall? && a.id in g.p.flights {
        ForeignCall(g.sys.w, g.p, id, f.value, a.id, g.p.flights[a.id], a.fails);
      }
    }
  }

  lemma StaysForeign(g: Whole, id: PoolId, o: PoolId, fails: bool)
    requires id !in g.p.flights && o in g.p.flights
    ensures id !in PoolStep(g.sys.w, g.p, o, g.p.flights[o], fails).flights
  {
    hide Updated, DesiredTemplate, AfterPoolSecret;
  }

  /** Since `before`, the pool's controller has only made calls. */
  ghost predicate Continues(before: seq<PoolAct>, now: seq<PoolAct>, id: PoolId) {
    before <= now && forall i :: |before| <= i < |now| ==> (now[i].PoolCall? && now[i].id == id) || Foreign(now[i], id)
  }

  lemma {:induction false} DoAllConcat(g: Whole, acts: seq<PoolAct>, more: seq<PoolAct>)
    ensures DoAll(g, acts + more) == DoAll(DoAll(g, acts), more)
  {
    hide Do;
    if more == [] {
      assert acts + more == acts;
    } else {
      var all := acts + more;
      assert all[..|all| - 1] == acts + more[..|more| - 1];
      DoAllConcat(g, acts, more[..|more| - 1]);
    }
  }

  lemma OwnFlight(p: PoolWorld, id: PoolId, f: Flight)
    requires id !in p.flights
    ensures forall x :: Continue(Add(p, id, f), id, x) == Add(p, id, x)
    ensures EndFlight(Add(p, id, f), id) == p
  {
    forall x ensures Continue(Add(p, id, f), id, x) == Add(p, id, x) {
      assert p.flights[id := f][id := x] == p.flights[id := x];
    }
    assert p.flights[id := f] - {id} == p.flights;
  }

  /** The hash is of the cluster's configuration and the secret as act i read it, or without a secret if that call failed. */
  ghost predicate HashRead(g: Whole, acts: seq<PoolAct>, id: PoolId, i: nat, cluster: Cluster, hash: string) {
    && i < |acts| && acts[i].PoolCall? && acts[i].id == id
    && hash == CH.PoolText(cluster.spec.config, cluster.spec.secretName,
                           if acts[i].fails then None else DoAll(g, acts[..i + 1]).sys.w.secret)
  }

  /** The cluster was read at act j, and its hash computed at act i. */
  ghost predicate ReadSince(
    g: Whole, acts: seq<PoolAct>, id: PoolId, since: nat, j: nat, i: nat, cluster: Cluster, hash: string)
  {
    since <= j <= i && i < |acts| && cluster == DoAll(g, acts[..j]).sys.w.cluster && HashRead(g, acts, id, i, cluster, hash)
  }

  lemma ReadEarlier(
    g: Whole, acts: seq<PoolAct>, more: seq<PoolAct>, id: PoolId, since: nat, j: nat, i: nat, cluster: Cluster, hash: string)
    requires ReadSince(g, acts, id, since, j, i, cluster, hash) && acts <= more
    ensures ReadSince(g, more, id, since, j, i, cluster, hash)
  {
    hide DoAll, CH.PoolText;
    assert more[..j] == acts[..j] && more[..i + 1] == acts[..i + 1];
  }

  class PoolReconciler {
    const id: PoolId
    /** The world; the reconcile of this pool in flight is kept apart. */
    var g: Whole
    var script: seq<PoolTurn>

    ghost const origin: Whole
    ghost var acts: seq<PoolAct>
    ghost var flight: Option<Flight>

    constructor (pool: PoolId, whole: Whole, turns: seq<PoolTurn>)
      requires pool !in whole.p.flights
      ensures Valid() && flight.None? && id == pool && g == whole && origin == whole && acts == []
    {
      id, g, script := pool, whole, turns;
      origin, acts, flight := whole, [], None;
    }

    /** The world is the one the machine reaches by the acts logged so far. */
    ghost predicate Valid()
      reads this
    {
      id !in g.p.flights && With(g, id, flight) == DoAll(origin, acts)
    }

    /** The workloads the last act found. */
    ghost function BeforeCall(): map<PoolId, Workload>
      requires acts != []
      reads this
    {
      DoAll(origin, acts[..|acts| - 1]).p.works
    }

    // ----- the API server -----

    ghost method Log(a: PoolAct)
      modifies this`acts
      ensures acts == old(acts) + [a] && DoAll(origin, acts) == Do(DoAll(origin, old(acts)), a)
    {
      acts := acts + [a];
      assert acts[..|acts| - 1] == old(acts);
    }

    /** Everybody else acts before the next call. */
    method Others() returns (fails: bool)
      requires Valid()
      modifies this`g, this`script, this`acts
      ensures Valid() && Continues(old(acts), acts, id)
    {
      hide Do, DoAll, With;
      fails := false;
      if script != [] {
        var turn := script[0];
        script := script[1..];
        for i := 0 to |turn.acts|
          invariant Valid() && Continues(old(acts), acts, id)
        {
          if Foreign(turn.acts[i], id) {
            ForeignAct(g, id, flight, turn.acts[i]);
            Log(turn.acts[i]);
            g := Do(g, turn.acts[i]);
          }
        }
        fails := turn.fails;
      }
    }

    method GetCluster(ghost f: Flight) returns (reply: Reply<Cluster>)
      requires Valid() && flight == Some(f) && f.pc == ClusterGet
      modifies this`g, this`script, this`acts, this`flight
      ensures Valid() && Continues(old(acts), acts, id)
      ensures reply == Error || reply == Ok(g.sys.w.cluster)
      ensures DoAll(origin, acts).sys == g.sys
      ensures reply == Error ==> flight.None?
      ensures reply.Ok? ==>
                flight == Some(f.(cluster := Some(reply.value), pc := if id.kind == Snapshot then ServiceGet else PoolSecretGet))
    {
      hide DoAll, Continue, EndFlight;
      var fails := Others();
      OwnFlight(g.p, id, f);
      Log(PoolCall(id, fails));
      reply := if fails then Error else Ok(g.sys.w.cluster);
      flight := if fails then None
                else Some(f.(cluster := Some(g.sys.w.cluster), pc := if id.kind == Snapshot then ServiceGet else PoolSecretGet));
    }

    method GetSecret(ghost f: Flight, ghost c: Cluster) returns (reply: Reply<string>)
      requires Valid() && flight == Some(f) && f.pc == PoolSecretGet && f.cluster == Some(c)
      modifies this`g, this`script, this`acts, this`flight
      ensures Valid() && Continues(old(acts), acts, id)
      ensures reply == Error || reply == (if g.sys.w.secret.Some? then Ok(g.sys.w.secret.value) else NotFound)
      ensures flight == Some(AfterPoolSecret(f, c, if reply.Ok? then Some(reply.value) else None))
      ensures acts != [] && acts[|acts| - 1] == PoolCall(id, reply == Error) && |acts| > |old(acts)|
      ensures DoAll(origin, acts).sys == g.sys
    {
      hide DoAll, Continue, EndFlight, AfterPoolSecret;
      var fails := Others();
      OwnFlight(g.p, id, f);
      Log(PoolCall(id, fails));
      reply := if fails then Error else if g.sys.w.secret.Some? then Ok(g.sys.w.secret.value) else NotFound;
      flight := Some(AfterPoolSecret(f, c, if fails then None else g.sys.w.secret));
    }

    method GetWork(ghost f: Flight, ghost c: Cluster) returns (reply: Reply<Workload>)
      requires Valid() && flight == Some(f) && f.pc == WorkGet && f.cluster == Some(c)
      modifies this`g, this`script, this`acts, this`flight
      ensures Valid() && Continues(old(acts), acts, id)
      ensures reply == Error || reply == (if id in g.p.works then Ok(g.p.works[id]) else NotFound)
      ensures reply == Error ==> flight.None?
      ensures reply == NotFound ==> flight == Some(f.(pc := WorkPost))
      ensures reply.Ok? ==>
                flight == if !Fenced(c) && Updated(id.kind, f.spec, c, f.hash, reply.value) != reply.value
                          then Some(f.(pc := WorkPut(reply.value))) else None
    {
      hide DoAll, Continue, EndFlight, Updated;
      var fails := Others();
      OwnFlight(g.p, id, f);
      Log(PoolCall(id, fails));
      reply := if fails then Error else if id in g.p.works then Ok(g.p.works[id]) else NotFound;
      flight := match reply
        case Ok(d) => if !Fenced(c) && Updated(id.kind, f.spec, c, f.hash, d) != d then Some(f.(pc := WorkPut(d))) else None
        case NotFound => Some(f.(pc := WorkPost))
        case Conflict => None
        case Error => None;
    }

    method CreateWork(template: PodTemplate, replicas: nat, ghost f: Flight, ghost c: Cluster) returns (reply: Reply<()>)
      requires Valid() && flight == Some(f) && f.pc == WorkPost && f.cluster == Some(c)
      requires template == DesiredTemplate(id.kind, f.spec, c, f.hash) && replicas == DesiredReplicas(id.kind, f.spec)
      modifies this`g, this`script, this`acts, this`flight
      ensures Valid() && Continues(old(acts), acts, id) && flight.None?
      ensures reply == Ok(()) ==> id in g.p.works && g.p.works[id].template == template && g.p.works[id].replicas == replicas
    {
      hide DoAll, Continue, EndFlight, DesiredTemplate, DesiredReplicas;
      var fails := Others();
      OwnFlight(g.p, id, f);
      Log(PoolCall(id, fails));
      flight := None;
      if fails { return Error; }
      if id in g.p.works { return Conflict; }
      ghost var p := g.p;
      g := g.(p := g.p.(works := g.p.works[id := Workload(template, replicas, g.p.nextRv)], nextRv := g.p.nextRv + 1));
      OwnFlight(g.p, id, f);
      reply := Ok(());
    }

    /** The version-checked update; a conflict is returned as an error. */
    method UpdateWork(d: Workload, ghost read: Workload, ghost f: Flight, ghost c: Cluster) returns (reply: Reply<()>)
      requires Valid() && flight == Some(f) && f.pc == WorkPut(read) && f.cluster == Some(c)
      requires d == Updated(id.kind, f.spec, c, f.hash, read)
      modifies this`g, this`script, this`acts, this`flight
      ensures Valid() && Continues(old(acts), acts, id) && flight.None?
      ensures |acts| > |old(acts)| && acts[|acts| - 1].PoolCall? && acts[|acts| - 1].id == id
      ensures reply == Ok(()) ==> id in g.p.works && g.p.works == BeforeCall()[id := d.(rv := g.p.works[id].rv)]
      ensures reply == Ok(()) ==> id in BeforeCall() && BeforeCall()[id].rv == d.rv
      ensures reply != Ok(()) ==> g.p.works == BeforeCall()
    {
      hide DoAll, Continue, EndFlight, DesiredTemplate, DesiredReplicas;
      var fails := Others();
      OwnFlight(g.p, id, f);
      ghost var now := acts;
      Log(PoolCall(id, fails));
      assert acts[..|acts| - 1] == now;
      flight := None;
      if fails { return Error; }
      if id !in g.p.works { return NotFound; }
      if g.p.works[id].rv != d.rv { return Conflict; }
      g := g.(p := g.p.(works := g.p.works[id := d.(rv := g.p.nextRv)], nextRv := g.p.nextRv + 1));
      OwnFlight(g.p, id, f);
      reply := Ok(());
    }

    /** reconcileService of the snapshot controller: create or update, whatever is there. */
    method ReconcileService(ghost f: Flight) returns (err: bool)
      requires Valid() && flight == Some(f) && f.pc == ServiceGet && f.cluster.Some?
      modifies this`g, this`script, this`acts, this`flight
      ensures Valid() && Continues(old(acts), acts, id)
      ensures err ==> flight.None?
      ensures !err ==> id in g.p.services && flight == Some(f.(pc := PoolSecretGet))
    {
      hide DoAll, Continue, EndFlight;
      err := Others();
      OwnFlight(g.p, id, f);
      Log(PoolCall(id, err));
      flight := if err then None else Some(f.(pc := ServicePut));
      if err { return; }
      err := Others();
      OwnFlight(g.p, id, f.(pc := ServicePut));
      Log(PoolCall(id, err));
      flight := if err then None else Some(f.(pc := PoolSecretGet));
      if err { return; }
      g := g.(p := g.p.(services := g.p.services + {id}));
      OwnFlight(g.p, id, f.(pc := ServicePut));
    }

    /** computePoolConfigHash: an unreadable secret is left out of the map. */
    method ComputePoolConfigHash(cluster: Cluster, ghost f: Flight) returns (hash: string)
      requires Valid() && flight == Some(f) && f.pc == PoolSecretGet && f.cluster == Some(cluster)
      modifies this`g, this`script, this`acts, this`flight
      ensures Valid() && Continues(old(acts), acts, id)
      ensures flight == Some(f.(hash := hash, pc := WorkGet))
      ensures |acts| > |old(acts)| && HashRead(origin, acts, id, |acts| - 1, cluster, hash)
    {
      hide CH.Text;
      var secretRVs := map[];
      var secret := GetSecret(f, cluster);
      if secret.Ok? { secretRVs := secretRVs[cluster.spec.secretName := secret.value]; }
      hash := CH.ComputeConfigText(cluster.spec.config, secretRVs);
      assert acts[..|acts| - 1 + 1] == acts;
    }

    // ----- the reconcilers -----

    /** What a reconcile that ended well leaves: a workload that fits, unless it read a fence. */
    ghost predicate Reconciled(pool: PoolSpec, cluster: Cluster, hash: string)
      reads this
    {
      && id in g.p.works
      && (cluster.backup == "" ==> Fitting(g.p.works[id], id.kind, pool, cluster, hash))
    }

    /**
     One reconcile. Without error it leaves the Deployment of the pool that was read, at the version and configuration of
     the cluster read at j, with the pool's replicas unless the autoscaler owns them; a fenced one leaves what there is.
     */
    method ReconcileWorker() returns (err: bool, ghost j: nat, ghost i: nat, ghost cluster: Cluster, ghost hash: string)
      requires Valid() && flight.None? && id.kind == Worker
      modifies this
      ensures Valid() && flight.None?
      ensures id !in old(g.p.specs) ==> !err && g == old(g) && acts == old(acts)
      ensures id in old(g.p.specs) ==> Continues(old(acts) + [PoolStart(id)], acts, id)
      ensures !err && id in old(g.p.specs) ==>
                ReadSince(origin, acts, id, |old(acts)|, j, i, cluster, hash) && Reconciled(old(g.p.specs)[id], cluster, hash)
    {
      hide DoAll, Do, DesiredTemplate, With, BeforeCall, Fitting, CH.PoolText;
      j, i, cluster, hash := 0, 0, g.sys.w.cluster, "";
      if id !in g.p.specs { return false, j, i, cluster, hash; }
      ghost var f := BeginFlight();
      var pool := g.p.specs[id];
      var read := GetCluster(f);
      if read == Error { return true, j, i, cluster, hash; }
      j, cluster := |acts|, read.value;
      ghost var prefix := acts;
      var text := ComputePoolConfigHash(read.value, flight.value);
      hash, i := text, |acts| - 1;
      ghost var known := acts;
      assert known[..j] == prefix;
      err := ReconcileDeployment(pool, read.value, text, flight.value);
      ReadEarlier(origin, known, acts, id, |old(acts)|, j, i, cluster, hash);
    }

    /** The Deployment half of the worker pool's Reconcile. */
    method ReconcileDeployment(pool: PoolSpec, cluster: Cluster, hash: string, ghost f: Flight) returns (err: bool)
      requires id.kind == Worker && Valid() && flight == Some(f) && f == Flight(WorkGet, pool, Some(cluster), hash)
      modifies this`g, this`script, this`acts, this`flight
      ensures Valid() && flight.None? && Continues(old(acts), acts, id)
      ensures !err ==> Reconciled(pool, cluster, hash)
    {
      hide DoAll, Do, DesiredTemplate, With, BeforeCall, Fitting, DesiredReplicas;
      var template, replicas := DesiredTemplate(Worker, pool, cluster, hash), DesiredReplicas(Worker, pool);
      var existing := GetWork(f, cluster);
      if existing == Error { return true; }
      if existing == NotFound {
        var reply := CreateWork(template, replicas, flight.value, cluster);
        DesiredFits(Worker, pool, cluster, hash, if id in g.p.works then g.p.works[id].rv else 0);
        return reply != Ok(());
      }
      UpdatedFits(Worker, pool, cluster, hash, existing.value);
      if !Fenced(cluster) {
        var needsUpdate, d := false, existing.value;
        if d.template != template {
          d := d.(template := template);
          needsUpdate := true;
        }
        if !pool.autoscaling && d.replicas != replicas {
          d := d.(replicas := replicas);
          needsUpdate := true;
        }
        if needsUpdate {
          var reply := UpdateWork(d, existing.value, flight.value, cluster);
          FittingIgnoresVersion(d, if id in g.p.works then g.p.works[id].rv else 0, Worker, pool, cluster, hash);
          return reply != Ok(());
        }
      }
      err := false;
    }

    /** The pool is read and its reconcile begins. */
    ghost method BeginFlight() returns (f: Flight)
      requires Valid() && flight.None? && id in g.p.specs
      modifies this`acts, this`flight
      ensures Valid() && flight == Some(f) && f == Flight(ClusterGet, g.p.specs[id], None, "")
      ensures acts == old(acts) + [PoolStart(id)]
    {
      hide DoAll;
      f := Flight(ClusterGet, g.p.specs[id], None, "");
      flight := Some(f);
      Log(PoolStart(id));
    }

    /** The same for a snapshot pool and its StatefulSet. */
    method ReconcileSnapshot() returns (err: bool, ghost j: nat, ghost i: nat, ghost cluster: Cluster, ghost hash: string)
      requires Valid() && flight.None? && id.kind == Snapshot
      modifies this
      ensures Valid() && flight.None?
      ensures id !in old(g.p.specs) ==> !err && g == old(g) && acts == old(acts)
      ensures id in old(g.p.specs) ==> Continues(old(acts) + [PoolStart(id)], acts, id)
      ensures !err && id in old(g.p.specs) ==>
                ReadSince(origin, acts, id, |old(acts)|, j, i, cluster, hash) && Reconciled(old(g.p.specs)[id], cluster, hash)
    {
      hide DoAll, Do, DesiredTemplate, With, BeforeCall, Fitting, CH.PoolText;
      j, i, cluster, hash := 0, 0, g.sys.w.cluster, "";
      if id !in g.p.specs { return false, j, i, cluster, hash; }
      ghost var f := BeginFlight();
      var pool := g.p.specs[id];
      var read := GetCluster(f);
      if read == Error { return true, j, i, cluster, hash; }
      j, cluster := |acts|, read.value;
      ghost var prefix := acts;
      err := ReconcileService(flight.value);
      if err { return; }
      var text := ComputePoolConfigHash(read.value, flight.value);
      hash, i := text, |acts| - 1;
      ghost var known := acts;
      assert known[..j] == prefix;
      err := ReconcileStatefulSet(pool, read.value, text, flight.value);
      ReadEarlier(origin, known, acts, id, |old(acts)|, j, i, cluster, hash);
    }

    /** The StatefulSet half of the snapshot pool's Reconcile. */
    method ReconcileStatefulSet(pool: PoolSpec, cluster: Cluster, hash: string, ghost f: Flight) returns (err: bool)
      requires id.kind == Snapshot && Valid() && flight == Some(f) && f == Flight(WorkGet, pool, Some(cluster), hash)
      modifies this`g, this`script, this`acts, this`flight
      ensures Valid() && flight.None? && Continues(old(acts), acts, id)
      ensures !err ==> Reconciled(pool, cluster, hash)
    {
      hide DoAll, Do, DesiredTemplate, With, BeforeCall, Fitting, DesiredReplicas;
      var template, replicas := DesiredTemplate(Snapshot, pool, cluster, hash), DesiredReplicas(Snapshot, pool);
      var existing := GetWork(f, cluster);
      if existing == Error { return true; }
      if existing == NotFound {
        var reply := CreateWork(template, replicas, flight.value, cluster);
        DesiredFits(Snapshot, pool, cluster, hash, if id in g.p.works then g.p.works[id].rv else 0);
        return reply != Ok(());
      }
      err := false;
      DesiredFits(Snapshot, pool, cluster, hash, existing.value.rv);
      if !Fenced(cluster) {
        err := UpdateStatefulSet(existing.value, template, replicas, f, cluster);
        DesiredFits(Snapshot, pool, cluster, hash, if id in g.p.works then g.p.works[id].rv else 0);
      }
    }

    method UpdateStatefulSet(existing: Workload, template: PodTemplate, replicas: nat, ghost f: Flight, ghost c: Cluster)
      returns (err: bool)
      requires id.kind == Snapshot && Valid() && f.cluster == Some(c)
      requires template == DesiredTemplate(Snapshot, f.spec, c, f.hash) && replicas == DesiredReplicas(Snapshot, f.spec)
      requires flight == if Updated(Snapshot, f.spec, c, f.hash, existing) != existing
                         then Some(f.(pc := WorkPut(existing))) else None
      modifies this`g, this`script, this`acts, this`flight
      ensures Valid() && flight.None? && Continues(old(acts), acts, id)
      ensures existing.template == template && existing.replicas == replicas ==> !err && acts == old(acts) && g == old(g)
      ensures !(existing.template == template && existing.replicas == replicas) ==>
                && acts != [] && (err ==> g.p.works == BeforeCall())
                && (!err ==> id in g.p.works &&
                             g.p.works == BeforeCall()[id := Workload(template, replicas, g.p.works[id].rv)])
    {
      hide DoAll, Do, DesiredTemplate;
      var needsUpdate, d := false, existing;
      if d.template != template {
        d := d.(template := template);
        needsUpdate := true;
      }
      if d.replicas != replicas {
        d := d.(replicas := replicas);
        needsUpdate := true;
      }
      err := false;
      if needsUpdate {
        var reply := UpdateWork(d, existing, flight.value, c);
        err := reply != Ok(());
      }
    }

    /**
     However often the worker pool is reconciled: from any moment m of the history at which autoscaling is enabled, and
     as long as it stays enabled, the Deployment has the replicas the autoscaler wrote last.
     */
    method ServeWorker(rounds: nat)
      requires Valid() && flight.None? && id.kind == Worker
      modifies this
      ensures Valid() && flight.None?
      ensures WholeInitial(origin) ==> forall m :: 0 <= m <= |acts| && AutoscaledSince(m) ==>
                Scaled(g.p, id, LastScale(DoAll(origin, acts[..m]), acts[m..], id))
    {
      hide DoAll;
      for i := 0 to rounds
        invariant Valid() && flight.None?
      {
        var err;
        ghost var j, l, cluster, hash;
        err, j, l, cluster, hash := ReconcileWorker();
      }
      forall m | WholeInitial(origin) && 0 <= m <= |acts| && AutoscaledSince(m)
        ensures Scaled(g.p, id, LastScale(DoAll(origin, acts[..m]), acts[m..], id))
      {
        AutoscalerWins(origin, acts[..m], acts[m..], id);
        DoAllConcat(origin, acts[..m], acts[m..]);
        assert acts[..m] + acts[m..] == acts;
      }
    }

    ghost predicate AutoscaledSince(m: nat)
      requires m <= |acts|
      reads this
    {
      Autoscaled(DoAll(origin, acts[..m]), id) && forall i :: m <= i < |acts| ==> StaysAutoscaled(acts[i], id)
    }
  }
}
