/**
 The cluster controller in its own form: an object whose methods call the API server, change the working copy
 of the status step by step and return errors. Each method is proved to perform transitions of ClusterMachine,
 so what holds of every run of the machine holds of the world this object leaves behind.
 */
module Reconciler {
  import opened Basics
  import opened JobNames
  import opened LiveObject
  import opened MaintenanceWindow
  import opened Model
  import opened ClusterMachine
  import opened JobConditions
  import CH = ConfigHash
  import ReconcileFacts
  import PhaseGraph
  import Guarantees

  /** What happens elsewhere before an API call, whether the call fails for a reason of its own, and what a Job reports
      besides its outcome. */
  datatype Turn = Turn(events: seq<Env>, fails: bool, before: seq<JobCondition>, after: seq<JobCondition>)

  datatype Reply<T> = Ok(value: T) | NotFound | Exists | Conflict | Error

  /** ctrl.Result: Requeue with no delay and the empty result are told apart from a positive RequeueAfter. */
  datatype Result = Done | Requeue | RequeueAfter(seconds: nat)

  const SHORTLY := RequeueAfter(10)
  const LATER := RequeueAfter(30)
  const WINDOW_CHECK := RequeueAfter(60)

  function Lookup<K, V>(m: map<K, V>, k: K): Reply<V> { if k in m then Ok(m[k]) else NotFound }

  /** The log grew by API calls and outside events alone. */
  ghost predicate Continues(before: seq<Act>, now: seq<Act>) {
    before <= now && forall i :: |before| <= i < |now| ==> now[i].Call? || now[i].Outside?
  }

  ghost predicate OnlyOutside(before: seq<Act>, now: seq<Act>) {
    before <= now && forall i :: |before| <= i < |now| ==> now[i].Outside?
  }

  /** One call was made, at the end. */
  ghost predicate OneCall(before: seq<Act>, now: seq<Act>) {
    |now| > 0 && now[|now| - 1].Call? && OnlyOutside(before, now[..|now| - 1])
  }

  /** What the helpers of a reconcile leave alone: everything but the program point, the ready flags and the history. */
  ghost predicate SameWork(b: Run, x: Run) {
    x.c == b.c && x.conds == b.conds && x.upgrade == b.upgrade && x.observed == b.observed && x.hash == b.hash
  }

  ghost predicate InPhase(u: Option<Upgrade>, p: Phase) { u.Some? && u.value.phase == p }

  /** The same record in another phase. */
  ghost predicate Advanced(before: Option<Upgrade>, now: Option<Upgrade>) {
    before.Some? && now.Some? && now.value.phase != before.value.phase && now.value == before.value.(phase := now.value.phase)
  }

  /** The same record in the same phase, or blocked by failed jobs or dependencies. */
  ghost predicate Held(before: Option<Upgrade>, now: Option<Upgrade>) {
    now == before || (InPhase(now, Blocked) && (InPhase(before, Waiting) || InPhase(before, InitJobs)) &&
                      now.value == before.value.(phase := Blocked))
  }

  ghost function JobsDone(x: Run, m: Mode): Run { if m == Std then StdJobsDone(x) else UpgJobsDone(x) }

  ghost function JobsFrom(b: Run, m: Mode): Run {
    match FirstJob(b.c.spec)
    case Some(f) => b.(pc := JobGet(f, m))
    case None => JobsDone(b, m)
  }

  ghost function NotFailed(b: Run, f: Family): Run {
    match NextJob(b.c.spec, f)
    case Some(g) => b.(pc := FailedGet(g))
    case None => FailuresDone(b, false)
  }

  lemma ExecNothing(s: Sys)
    ensures Exec(s, []) == s
  {
  }

  lemma DepPutCall(w: World, b: Run, fails: bool)
    requires b.pc.DepPut?
    ensures Step(w, b, fails) == if fails then Sys(w, Idle) else DepPutStep(w, b, b.pc.k, b.pc.m, b.pc.read)
  {
    hide DepPutStep;
  }

  lemma StatusPutCall(w: World, b: Run, fails: bool)
    requires b.pc.StatusPut? || b.pc.EarlyStatus?
    ensures Step(w, b, fails) ==
            if fails then Sys(w, Idle) else StatusPutStep(w, b, if b.pc.StatusPut? then b.pc.rv else b.c.rv)
  {
    hide StatusPutStep;
  }

  lemma IgnoresPc(b: Run, pc: Pc)
    ensures forall failed :: FailuresDone(b.(pc := pc), failed) == FailuresDone(b, failed)
  {
  }

  lemma MaintGetCall(w: World, b: Run, fails: bool)
    requires b.pc.MaintGet?
    ensures Step(w, b, fails) == if fails then Sys(w, Idle) else MaintGetStep(w, b, b.pc.f)
  {
    hide MaintGetStep;
  }

  lemma RolloutGetCall(w: World, b: Run, fails: bool)
    requires b.pc.RolloutGet?
    ensures Step(w, b, fails) == if fails then Sys(w, Idle) else RolloutGetStep(w, b, b.pc.k)
  {
    hide RolloutGetStep;
  }

  lemma StatusGetCall(w: World, b: Run, fails: bool)
    requires b.pc.StatusGet?
    ensures Step(w, b, fails) == if fails then Sys(w, Idle) else StatusGetStep(w, b, b.pc.last)
  {
    hide StatusGetStep;
  }

  lemma FencedGetCall(w: World, b: Run, fails: bool)
    requires b.pc.FencedGet?
    ensures Step(w, b, fails) == if fails then Sys(w, Idle) else FencedGetStep(w, b, b.pc.k)
  {
    hide FencedGetStep;
  }

  class ClusterReconciler {
    var w: World
    var script: seq<Turn>
    /** The PeerDBCluster as it was read, and the status fields the reconcile assigns. */
    var cluster: Cluster
    var conds: Conditions
    var upgrade: Option<Upgrade>
    var observed: nat

    ghost const origin: Sys
    ghost var acts: seq<Act>
    ghost var sys: Sys

    constructor (world: World, turns: seq<Turn>)
      ensures Valid() && sys.ctl.Idle? && w == world && origin == Sys(world, Idle) && acts == []
    {
      w, script, cluster := world, turns, world.cluster;
      conds, upgrade, observed := NO_CONDITIONS, None, 0;
      origin, acts, sys := Sys(world, Idle), [], Sys(world, Idle);
    }

    /** The world is the one the machine reaches by the acts logged so far. */
    ghost predicate Valid()
      reads this
    {
      sys == Exec(origin, acts) && sys.w == w
    }

    /** The working copy is the one of the machine's reconcile in flight. */
    ghost predicate Holds(b: Run)
      reads this
    {
      b.c == cluster && b.conds == conds && b.upgrade == upgrade && b.observed == observed
    }

    /** The world the last act found. */
    ghost function BeforeCall(): World
      requires acts != []
      reads this
    {
      Exec(origin, acts[..|acts| - 1]).w
    }

    ghost predicate Flying(b: Run)
      reads this
    {
      Valid() && sys.ctl == Busy(b)
    }

    // ----- the API server -----

    ghost method Log(a: Act)
      requires sys == Exec(origin, acts)
      modifies this`sys, this`acts
      ensures acts == old(acts) + [a]
      ensures sys == Apply(old(sys), a) && sys == Exec(origin, acts)
    {
      acts, sys := acts + [a], Apply(sys, a);
      assert acts[..|acts| - 1] == old(acts);
    }

    /** Everybody else acts before the next call. */
    method Others() returns (fails: bool)
      requires Valid()
      modifies this`w, this`script, this`sys, this`acts
      ensures Valid() && sys.ctl == old(sys.ctl) && Continues(old(acts), acts) && OnlyOutside(old(acts), acts)
    {
      hide Exec, ApplyEnv, Step;
      fails := false;
      if script != [] {
        var turn := script[0];
        script := script[1..];
        for i := 0 to |turn.events|
          invariant Valid() && sys.ctl == old(sys.ctl) && Continues(old(acts), acts) && OnlyOutside(old(acts), acts)
        {
          Log(Outside(turn.events[i]));
          w := ApplyEnv(w, turn.events[i]);
        }
        fails := turn.fails;
      }
    }

    /** The machine performs the call. */
    ghost method Called(fails: bool, b: Run)
      requires sys == Exec(origin, acts) && sys.ctl == Busy(b)
      modifies this`sys, this`acts
      ensures sys == Step(old(sys.w), b, fails) && sys == Exec(origin, acts)
      ensures acts == old(acts) + [Call(fails)]
    {
      Log(Call(fails));
    }

    method GetSecret(ghost b: Run) returns (reply: Reply<string>)
      requires Flying(b) && Reads(b.pc)
      modifies this`w, this`script, this`sys, this`acts
      ensures Valid() && Continues(old(acts), acts)
      ensures sys == Step(w, b, reply == Error)
      ensures reply == Error || reply == (if w.secret.Some? then Ok(w.secret.value) else NotFound)
    {
      var fails := Others();
      reply := if fails then Error else if w.secret.Some? then Ok(w.secret.value) else NotFound;
      ReadsOnly(w, b, fails);
      Called(fails, b);
    }

    method GetPlain(o: Plain, ghost b: Run) returns (reply: Reply<Content>)
      requires Flying(b) && Reads(b.pc)
      modifies this`w, this`script, this`sys, this`acts
      ensures Valid() && Continues(old(acts), acts)
      ensures sys == Step(w, b, reply == Error)
      ensures reply == Error || reply == Lookup(w.plain, o)
    {
      var fails := Others();
      reply := if fails then Error else Lookup(w.plain, o);
      ReadsOnly(w, b, fails);
      Called(fails, b);
    }

    method GetJob(key: JobKey, ghost b: Run) returns (reply: Reply<seq<JobCondition>>)
      requires Flying(b) && Reads(b.pc)
      modifies this`w, this`script, this`sys, this`acts
      ensures Valid() && Continues(old(acts), acts)
      ensures sys == Step(w, b, reply == Error)
      ensures reply == Error || reply.Ok? || reply == NotFound
      ensures reply.Ok? ==> key in w.jobs && Reports(reply.value, w.jobs[key])
      ensures reply == NotFound ==> key !in w.jobs
    {
      var before, after := [], [];
      if script != [] { before, after := script[0].before, script[0].after; }
      var fails := Others();
      reply := if fails then Error else if key in w.jobs then Ok(Report(before, w.jobs[key], after)) else NotFound;
      ReadsOnly(w, b, fails);
      Called(fails, b);
    }

    method GetDeployment(k: Component, ghost b: Run) returns (reply: Reply<Deployment>)
      requires Flying(b) && Reads(b.pc)
      modifies this`w, this`script, this`sys, this`acts
      ensures Valid() && Continues(old(acts), acts)
      ensures sys == Step(w, b, reply == Error)
      ensures reply == Error || reply == Lookup(w.deps, k)
    {
      var fails := Others();
      reply := if fails then Error else Lookup(w.deps, k);
      ReadsOnly(w, b, fails);
      Called(fails, b);
    }

    method GetCluster(ghost b: Run) returns (reply: Reply<Cluster>)
      requires Flying(b) && Reads(b.pc)
      modifies this`w, this`script, this`sys, this`acts
      ensures Valid() && Continues(old(acts), acts)
      ensures sys == Step(w, b, reply == Error)
      ensures reply == Error || reply == Ok(w.cluster)
      ensures acts != [] && acts[|acts| - 1] == Call(reply == Error)
    {
      var fails := Others();
      reply := if fails then Error else Ok(w.cluster);
      ReadsOnly(w, b, fails);
      Called(fails, b);
    }

    /** Create or update a ServiceAccount, ConfigMap or Service. */
    method PutPlain(o: Plain, content: Content, ghost b: Run) returns (reply: Reply<()>)
      requires Flying(b) && b.pc.PlainPut? && b.pc.o == o && DesiredPlain(b.c, o) == Some(content)
      modifies this`w, this`script, this`sys, this`acts
      ensures Valid() && Continues(old(acts), acts)
      ensures reply == Error || reply == Ok(())
      ensures reply == Error ==> sys.ctl.Idle?
      ensures reply == Ok(()) ==> o in w.plain && w.plain[o] == content
      ensures reply == Ok(()) ==> sys.ctl == Busy(AfterPlain(Note(b, WrotePlain(o)), o, b.pc.m, w.clock))
    {
      hide AfterPlain;
      var fails := Others();
      Called(fails, b);
      if fails { return Error; }
      w := w.(plain := w.plain[o := content]);
      reply := Ok(());
    }

    method CreateJob(key: JobKey, ghost b: Run) returns (reply: Reply<()>)
      requires Flying(b) && (b.pc.JobPost? || b.pc.MaintPost?) && KeyFor(b, b.pc.f) == key
      modifies this`w, this`script, this`sys, this`acts
      ensures Valid() && Continues(old(acts), acts)
      ensures reply != Ok(()) ==> sys.ctl.Idle?
      ensures reply == Ok(()) ==> key in w.jobs && w.jobs[key] == Running
      ensures reply == Ok(()) && b.pc.JobPost? ==> sys.ctl == Busy(AfterJob(Note(b, WroteJob(key)), b.pc.f, b.pc.m))
      ensures reply == Ok(()) && b.pc.MaintPost? ==> sys.ctl == Busy(Stop(Note(b, WroteJob(key))))
    {
      hide AfterJob, Stop;
      var fails := Others();
      Called(fails, b);
      if fails { return Error; }
      if key in w.jobs { return Exists; }
      w := w.(jobs := w.jobs[key := Running]);
      reply := Ok(());
    }

    /** NotFound on delete is no error to the callers. */
    method DeleteJob(key: JobKey, ghost b: Run) returns (reply: Reply<()>)
      requires Flying(b) && (b.pc.JobDelete? || b.pc.MaintDelete?) && KeyFor(b, b.pc.f) == key
      modifies this`w, this`script, this`sys, this`acts
      ensures Valid() && Continues(old(acts), acts)
      ensures reply == Error || reply == Ok(()) || reply == NotFound
      ensures reply == Error ==> sys.ctl.Idle?
      ensures reply != Error ==> key !in w.jobs
      ensures reply != Error && b.pc.JobDelete? ==>
                sys.ctl == Busy(AfterJob(Note(b.(initReady := false), WroteJob(key)), b.pc.f, b.pc.m))
      ensures reply != Error && b.pc.MaintDelete? ==> sys.ctl == Busy(Stop(Note(b, WroteJob(key))))
    {
      hide AfterJob, Stop;
      var fails := Others();
      Called(fails, b);
      if fails { return Error; }
      reply := if key in w.jobs then Ok(()) else NotFound;
      w := w.(jobs := w.jobs - {key});
    }

    method CreateDeployment(k: Component, labels: map<string, string>, spec: DeploymentSpec, ghost b: Run)
      returns (reply: Reply<()>)
      requires Flying(b) && b.pc.DepPost? && b.pc.k == k
      requires labels == LabelsOf(b.c.name, LabelName(k)) && spec == Build(b.c, k, b.hash)
      modifies this`w, this`script, this`sys, this`acts
      ensures Valid() && Continues(old(acts), acts)
      ensures reply != Ok(()) ==> sys.ctl.Idle?
      ensures reply == Ok(()) ==> k in w.deps && w.deps[k].spec == spec && w.deps[k].labels == labels
      ensures reply == Ok(()) ==> sys.ctl == Busy(Note(b, WroteDep(k)).(pc := PlainGet(Service(k), b.pc.m)))
    {
      hide LabelsOf, Build;
      var fails := Others();
      Called(fails, b);
      if fails { return Error; }
      if k in w.deps { return Exists; }
      var d := Deployment(labels, spec, 1, w.nextRv, Rollout(0, 0, 0, 0, 0));
      w := Bump(w.(deps := w.deps[k := d]));
      reply := Ok(());
    }

    /** The version-checked update of a Deployment whose spec differs from the one read. */
    method UpdateDeployment(k: Component, labels: map<string, string>, spec: DeploymentSpec, rv: nat, ghost b: Run)
      returns (reply: Reply<()>)
      requires Flying(b) && b.pc.DepPut? && b.pc.k == k && b.pc.read.rv == rv
      requires labels == LabelsOf(b.c.name, LabelName(k)) && spec == Merge(b.pc.read.spec, Build(b.c, k, b.hash))
      modifies this`w, this`script, this`sys, this`acts
      ensures Valid() && Continues(old(acts), acts)
      ensures reply == Error || reply == NotFound ==> sys.ctl.Idle?
      ensures reply == Conflict ==>
                sys.ctl == Busy(b.(h := b.h.(conflicts := b.h.conflicts + {Lost(k, b.pc.m)}), pc := PlainGet(Service(k), b.pc.m)))
      ensures reply == Ok(()) ==> k in w.deps && w.deps[k].spec == spec && w.deps[k].labels == labels
      ensures reply == Ok(()) ==> sys.ctl == Busy(Note(b, WroteDep(k)).(pc := PlainGet(Service(k), b.pc.m)))
      ensures reply == Ok(()) || reply == NotFound || reply == Conflict || reply == Error
      ensures OneCall(old(acts), acts) && (reply != Ok(()) ==> w == BeforeCall())
    {
      hide LabelsOf, Build, Merge, Step, Exec;
      var fails := Others();
      DepPutCall(w, b, fails);
      ghost var now, v := acts, w;
      Called(fails, b);
      assert acts[..|acts| - 1] == now && BeforeCall() == v;
      if fails { return Error; }
      if k !in w.deps { return NotFound; }
      var live := w.deps[k];
      if live.rv != rv { return Conflict; }
      w := Bump(w.(deps := w.deps[k := live.(labels := labels, spec := spec, generation := live.generation + 1, rv := w.nextRv)]));
      reply := Ok(());
    }

    /** Status().Update of an object read at `rv`. */
    method WriteStatusAt(rv: nat, ghost b: Run) returns (reply: Reply<()>)
      requires Flying(b) && Holds(b)
      requires b.pc.StatusPut? ==> b.pc.rv == rv
      requires b.pc.StatusPut? || (b.pc.EarlyStatus? && b.c.rv == rv)
      modifies this`w, this`script, this`sys, this`acts
      ensures Valid() && Continues(old(acts), acts) && sys.ctl.Idle?
      ensures reply == Ok(()) || reply == Conflict || reply == Error
      ensures reply == Ok(()) ==> w.cluster.status == Status(observed, conds, upgrade)
      ensures OneCall(old(acts), acts) && BeforeCall() == w.(cluster := BeforeCall().cluster, nextRv := BeforeCall().nextRv)
      ensures reply != Ok(()) ==> w == BeforeCall()
      ensures acts[|acts| - 1] == Call(reply == Error)
    {
      hide Step, Exec;
      var fails := Others();
      StatusPutCall(w, b, fails);
      ghost var now, v := acts, w;
      Called(fails, b);
      assert acts[..|acts| - 1] == now && BeforeCall() == v;
      if fails { return Error; }
      if w.cluster.rv != rv { return Conflict; }
      w := Bump(w.(cluster := w.cluster.(status := Status(observed, conds, upgrade), rv := w.nextRv)));
      reply := Ok(());
    }

    // ----- helpers of the controller -----

    method SetPhase(p: Phase)
      modifies this`upgrade
      ensures upgrade == if old(upgrade).Some? then Some(old(upgrade).value.(phase := p)) else None
    {
      if upgrade.Some? { upgrade := Some(upgrade.value.(phase := p)); }
    }

    method UpdateStatus(ghost last: bool, ghost b: Run) returns (reply: Reply<()>)
      requires Flying(b) && Holds(b) && b.pc == StatusGet(last)
      modifies this`w, this`script, this`sys, this`acts
      ensures Valid() && Continues(old(acts), acts) && sys.ctl.Idle?
      ensures reply == Ok(()) || reply == Conflict || reply == Error
      ensures reply == Ok(()) ==> w.cluster.status == Status(observed, conds, upgrade)
      ensures acts != [] && acts[|acts| - 1] == Call(reply == Error)
    {
      hide Step, Exec, BeforeCall;
      var latest := GetCluster(b);
      StatusGetCall(w, b, latest == Error);
      if latest == Error { return Error; }
      if latest.value.status == Status(observed, conds, upgrade) { return Ok(()); }
      ghost var x := b.(pc := StatusPut(last, latest.value.rv));
      reply := WriteStatusAt(latest.value.rv, x);
    }

    /** reconcileServiceAccount, reconcileConfigMap, reconcileService */
    method ReconcilePlain(o: Plain, desired: Content, ghost m: Mode, ghost b: Run) returns (err: bool, ghost x: Run)
      requires Flying(b) && b.pc == PlainGet(o, m) && DesiredPlain(b.c, o) == Some(desired)
      modifies this`w, this`script, this`sys, this`acts
      ensures Valid() && Continues(old(acts), acts)
      ensures err ==> sys.ctl.Idle?
      ensures !err ==> sys.ctl == Busy(AfterPlain(x, o, m, w.clock)) && SameWork(b, x)
      ensures !err ==> x.initReady == b.initReady && x.compReady == b.compReady
      ensures !err ==> o in w.plain && w.plain[o] == desired
    {
      hide AfterPlain, DesiredPlain;
      x := b;
      var existing := GetPlain(o, b);
      if existing == Error { return true, x; }
      if existing == NotFound || existing.value != desired {
        x := b.(pc := PlainPut(o, m));
        var reply := PutPlain(o, desired, x);
        x := Note(x, WrotePlain(o));
        return reply == Error, x;
      }
      err := false;
    }

    method ReconcileJob(f: Family, ghost m: Mode, ready: bool, ghost b: Run)
      returns (err: bool, stillReady: bool, ghost x: Run)
      requires Flying(b) && Holds(b) && b.pc == JobGet(f, m) && b.initReady == ready
      modifies this`w, this`script, this`sys, this`acts
      ensures Valid() && Continues(old(acts), acts)
      ensures err ==> sys.ctl.Idle?
      ensures !err ==> sys.ctl == Busy(AfterJob(x, f, m)) && SameWork(b, x) && x.initReady == stillReady
      ensures !err ==> x.compReady == b.compReady
    {
      hide AfterJob;
      x, stillReady := b, ready;
      var key := KeyOf(f, cluster.spec.version);
      var existing := GetJob(key, b);
      if existing == Error { return true, false, x; }
      if existing == NotFound {
        x := b.(initReady := false, pc := JobPost(f, m));
        var reply := CreateJob(key, x);
        x := Note(x, WroteJob(key));
        return reply != Ok(()), false, x;
      }
      var status := Outcome(existing.value);
      match status
      case Succeeded =>
        x := b.(h := b.h.(seen := b.h.seen + {key}));
        return false, ready, x;
      case Failed =>
        x := b.(pc := JobDelete(f, m));
        var reply := DeleteJob(key, x);
        x := Note(x.(initReady := false), WroteJob(key));
        return reply == Error, false, x;
      case Running =>
        x := Wait(b.(initReady := false));
        return false, false, x;
    }

    method ReconcileInitJobs(ghost m: Mode, ready: bool, ghost b: Run) returns (err: bool, stillReady: bool, ghost x: Run)
      requires Flying(JobsFrom(b, m)) && Holds(b) && b.initReady == ready
      modifies this`w, this`script, this`sys, this`acts
      ensures Valid() && Continues(old(acts), acts)
      ensures err ==> sys.ctl.Idle?
      ensures !err ==> sys.ctl == Busy(JobsDone(x, m)) && SameWork(b, x) && x.initReady == stillReady
      ensures !err ==> x.compReady == b.compReady
    {
      hide StdJobsDone, UpgJobsDone;
      err, stillReady, x := false, ready, b;
      if Enabled(cluster.spec, NsRegister) {
        err, stillReady, x := ReconcileJob(NsRegister, m, stillReady, b.(pc := JobGet(NsRegister, m)));
        if err { return; }
      }
      if Enabled(cluster.spec, SearchAttr) {
        err, stillReady, x := ReconcileJob(SearchAttr, m, stillReady, x.(pc := JobGet(SearchAttr, m)));
      }
    }

    /** An error reads as "not failed": the caller drops it. */
    method IsJobFailed(f: Family, ghost b: Run) returns (failed: bool)
      requires Flying(b) && Holds(b) && b.pc == FailedGet(f)
      modifies this`w, this`script, this`sys, this`acts
      ensures Valid() && Continues(old(acts), acts)
      ensures sys.ctl == Busy(if failed then FailuresDone(b, true) else NotFailed(b, f))
    {
      hide FailuresDone;
      failed := false;
      var job := GetJob(KeyOf(f, cluster.spec.version), b);
      if job.Ok? { failed := AnyFailed(job.value); }
    }

    /** The failure check of upgradePhaseInitJobs, job by job. */
    method AnyInitJobFailed(ghost b: Run) returns (failed: bool)
      requires Flying(UpgJobsDone(b)) && Holds(b) && !b.initReady
      modifies this`w, this`script, this`sys, this`acts
      ensures Valid() && Continues(old(acts), acts)
      ensures sys.ctl == Busy(FailuresDone(b, failed))
    {
      hide FailuresDone, Step, Exec;
      failed := false;
      if Enabled(cluster.spec, NsRegister) {
        failed := IsJobFailed(NsRegister, b.(pc := FailedGet(NsRegister)));
        IgnoresPc(b, FailedGet(NsRegister));
      }
      if !failed && Enabled(cluster.spec, SearchAttr) {
        failed := IsJobFailed(SearchAttr, b.(pc := FailedGet(SearchAttr)));
        IgnoresPc(b, FailedGet(SearchAttr));
      }
    }

    /** The Deployment half of reconcileDeploymentAndService; a conflict on the update is swallowed. */
    method ReconcileDeployment(k: Component, hash: string, ghost m: Mode, ready: bool, ghost b: Run)
      returns (err: bool, stillReady: bool, ghost x: Run)
      requires Flying(b) && Holds(b) && b.pc == DepGet(k, m) && b.compReady == ready && b.hash == hash
      modifies this`w, this`script, this`sys, this`acts
      ensures Valid() && Continues(old(acts), acts)
      ensures err ==> sys.ctl.Idle?
      ensures !err ==> sys.ctl == Busy(x) && x.pc == PlainGet(Service(k), m) && SameWork(b, x)
      ensures !err ==> x.initReady == b.initReady && x.compReady == stillReady
    {
      hide Build, LabelsOf, Merge;
      x, stillReady := b, ready;
      var labels, desired := LabelsOf(cluster.name, LabelName(k)), Build(cluster, k, hash);
      var existing := GetDeployment(k, b);
      if existing == Error { return true, false, x; }
      if existing == NotFound {
        x := b.(compReady := false, pc := DepPost(k, m));
        var reply := CreateDeployment(k, labels, desired, x);
        x := Note(x, WroteDep(k)).(pc := PlainGet(Service(k), m));
        return reply != Ok(()), false, x;
      }
      if existing.value.status.ready < existing.value.status.replicas { stillReady := false; }
      x := b.(compReady := stillReady,
              pc := if UpToDate(existing.value.spec, desired) then PlainGet(Service(k), m) else DepPut(k, m, existing.value));
      err, x := UpdateLive(k, labels, desired, existing.value, m, x);
    }

    /** The merge into the live object and the update, if anything changed. */
    method UpdateLive(k: Component, labels: map<string, string>, desired: DeploymentSpec, read: Deployment, ghost m: Mode, ghost b: Run)
      returns (err: bool, ghost x: Run)
      requires Flying(b) && b.pc == if UpToDate(read.spec, desired) then PlainGet(Service(k), m) else DepPut(k, m, read)
      requires labels == LabelsOf(b.c.name, LabelName(k)) && desired == Build(b.c, k, b.hash)
      modifies this`w, this`script, this`sys, this`acts
      ensures Valid() && Continues(old(acts), acts)
      ensures err ==> sys.ctl.Idle?
      ensures !err ==> sys.ctl == Busy(x) && x.pc == PlainGet(Service(k), m) && SameWork(b, x)
      ensures !err ==> x.initReady == b.initReady && x.compReady == b.compReady
    {
      hide Build, LabelsOf, Merge, Step, Exec;
      var live := new LiveDeployment(read);
      live.SetManagedFields(labels, desired);
      x, err := b, false;
      if live.Spec() != read.spec {
        var reply := UpdateDeployment(k, live.labels, live.Spec(), read.rv, x);
        err := reply == Error || reply == NotFound;
        x := if reply == Conflict then x.(h := x.h.(conflicts := x.h.conflicts + {Lost(k, m)}), pc := PlainGet(Service(k), m))
             else Note(x, WroteDep(k)).(pc := PlainGet(Service(k), m));
      }
    }

    method ReconcileDeploymentAndService(k: Component, hash: string, ghost m: Mode, ready: bool, ghost b: Run)
      returns (err: bool, stillReady: bool, ghost x: Run)
      requires Flying(b) && Holds(b) && b.pc == DepGet(k, m) && b.compReady == ready && b.hash == hash
      modifies this`w, this`script, this`sys, this`acts
      ensures Valid() && Continues(old(acts), acts)
      ensures err ==> sys.ctl.Idle?
      ensures !err ==> sys.ctl == Busy(AfterService(x, k, m)) && SameWork(b, x)
      ensures !err ==> x.initReady == b.initReady && x.compReady == stillReady
      ensures !err ==> Service(k) in w.plain && w.plain[Service(k)] == Text(SpecOf(cluster.spec, k).service)
    {
      hide AfterService;
      err, stillReady, x := ReconcileDeployment(k, hash, m, ready, b);
      if err { return; }
      err, x := ReconcilePlain(Service(k), Text(SpecOf(cluster.spec, k).service), m, x);
    }

    // ----- the upgrade driver -----

    method UpgradePhaseWaiting(ghost b: Run) returns (result: Result, ghost x: Run)
      requires Flying(WaitingPhase(b, w.clock)) && Holds(b) && InPhase(upgrade, Waiting)
      modifies this`conds, this`upgrade
      ensures Holds(x) && sys.ctl == Busy(if result.RequeueAfter? then Stop(x) else StdStart(x))
      ensures x.c == b.c && x.hash == b.hash
      ensures if result.RequeueAfter? then Held(old(upgrade), upgrade) else Advanced(old(upgrade), upgrade)
      ensures result == WINDOW_CHECK <==>
                && cluster.spec.policy != Some(Manual)
                && cluster.spec.window.Some? && !InWindow(cluster.spec.window.value, w.clock)
      ensures result.RequeueAfter? ==> result == WINDOW_CHECK || result == LATER
      ensures var open, unhealthy :=
                cluster.spec.policy != Some(Manual) && (cluster.spec.window.Some? ==> InWindow(cluster.spec.window.value, w.clock)),
                old(conds).catalogReady == No || old(conds).temporalReady == No;
              && (!open ==> upgrade == old(upgrade) && conds == old(conds) && result.RequeueAfter?)
              && (open && unhealthy ==> InPhase(upgrade, Blocked) && conds == old(conds).(degraded := Yes) && result == LATER)
              && (open && !unhealthy ==>
                    InPhase(upgrade, if cluster.spec.maintenance then StartMaintenance else Config) && conds == old(conds) && result == Requeue)
    {
      hide StdStart, InWindow, Exec, Step;
      x := b;
      var policy := if cluster.spec.policy.Some? then cluster.spec.policy.value else Automatic;
      if policy == Manual { return RequeueAfter(30), x; }
      if cluster.spec.window.Some? && !InWindow(cluster.spec.window.value, w.clock) { return RequeueAfter(60), x; }
      if conds.catalogReady == No || conds.temporalReady == No {
        SetPhase(Blocked);
        conds := conds.(degraded := Yes);
        x := b.(conds := conds, upgrade := upgrade);
        return RequeueAfter(30), x;
      }
      if cluster.spec.maintenance { SetPhase(StartMaintenance); } else { SetPhase(Config); }
      x := b.(upgrade := upgrade, h := b.h.(gate := Some(w.clock)));
      return Requeue, x;
    }

    method UpgradePhaseBlocked(ghost b: Run) returns (result: Result, ghost x: Run)
      requires Flying(BlockedPhase(b)) && Holds(b) && InPhase(upgrade, Blocked)
      modifies this`conds, this`upgrade
      ensures Holds(x) && sys.ctl == Busy(if result.RequeueAfter? then Stop(x) else StdStart(x))
      ensures x.c == b.c && x.hash == b.hash
      ensures if result.RequeueAfter? then Held(old(upgrade), upgrade) else Advanced(old(upgrade), upgrade)
      ensures result.RequeueAfter? ==> result == LATER
      ensures if old(conds).catalogReady == No || old(conds).temporalReady == No
              then upgrade == old(upgrade) && conds == old(conds).(degraded := Yes) && result == LATER
              else InPhase(upgrade, Waiting) && conds == old(conds).(degraded := No) && result == Requeue
    {
      hide StdStart;
      if conds.catalogReady != No && conds.temporalReady != No {
        SetPhase(Waiting);
        conds := conds.(degraded := No);
        x := b.(conds := conds, upgrade := upgrade);
        return Requeue, x;
      }
      conds := conds.(degraded := Yes);
      x := b.(conds := conds);
      return RequeueAfter(30), x;
    }

    method UpgradePhaseInitJobs(ghost b: Run) returns (err: bool, result: Result, ghost x: Run)
      requires Flying(UpgJobsStart(b)) && Holds(b) && InPhase(upgrade, InitJobs)
      modifies this`w, this`script, this`sys, this`acts, this`conds, this`upgrade
      ensures Valid() && Continues(old(acts), acts)
      ensures err ==> sys.ctl.Idle?
      ensures !err ==> Holds(x) && sys.ctl == Busy(if result.RequeueAfter? then Stop(x) else StdStart(x))
      ensures !err ==> x.c == b.c && x.hash == b.hash
      ensures !err ==> if result.RequeueAfter? then Held(old(upgrade), upgrade) else Advanced(old(upgrade), upgrade)
      ensures !err && result.RequeueAfter? ==> result == SHORTLY
    {
      hide StdStart, Step, Exec, FirstJob;
      var initReady;
      err, initReady, x := ReconcileInitJobs(Upg, true, b.(initReady := true));
      if err { return err, Done, x; }
      if !initReady {
        var initFailed := AnyInitJobFailed(x);
        if initFailed { SetPhase(Blocked); }
        conds := conds.(initialized := No);
        x := x.(conds := conds, upgrade := upgrade);
        return false, RequeueAfter(10), x;
      }
      conds := conds.(initialized := Yes);
      SetPhase(FlowAPI);
      x := x.(conds := conds, upgrade := upgrade);
      return false, Requeue, x;
    }

    method UpgradePhaseComponent(k: Component, hash: string, next: Phase, ghost b: Run)
      returns (err: bool, result: Result, ghost x: Run)
      requires Flying(b) && Holds(b) && InPhase(upgrade, ComponentPhase(k)) && b.pc == DepGet(k, Upg) && b.compReady && b.hash == hash
      requires next == match k case Api => PeerDBServer case Server => UI
                               case Ui => if cluster.spec.maintenance then EndMaintenance else Complete
      modifies this`w, this`script, this`sys, this`acts, this`conds, this`upgrade
      ensures Valid() && Continues(old(acts), acts)
      ensures err ==> sys.ctl.Idle?
      ensures !err ==> Holds(x) && sys.ctl == Busy(if result.RequeueAfter? then Stop(x) else StdStart(x))
      ensures !err ==> x.c == b.c && x.hash == b.hash
      ensures !err ==> if result.RequeueAfter? then Held(old(upgrade), upgrade) else Advanced(old(upgrade), upgrade)
      ensures !err && result.RequeueAfter? ==> result == SHORTLY
    {
      hide StdStart, Build, RolledOut, Step, Exec;
      var desired, componentsReady := Build(cluster, k, hash), true;
      err, componentsReady, x := ReconcileDeploymentAndService(k, hash, Upg, componentsReady, b);
      if err { return err, Done, x; }
      x := x.(pc := RolloutGet(k));
      var existing := GetDeployment(k, x);
      RolloutGetCall(w, x, existing == Error);
      if existing == Error || existing == NotFound { return true, Done, x; }
      if !RolledOut(existing.value, LiveObject.DesiredReplicas(desired)) {
        x := Wait(x);
        return false, RequeueAfter(10), x;
      }
      SetPhase(next);
      result := Requeue;
      if next == Complete {
        conds := conds.(upgradeInProgress := No);
        result := Done;
      }
      x := x.(conds := conds, upgrade := upgrade);
    }

    /** The branch of upgradePhaseMaintenanceJob for a completed job. */
    method MaintenanceJobCompleted(ghost f: Family, next: Phase, ghost b: Run) returns (result: Result, ghost x: Run)
      requires Flying(MaintenanceDone(b, f)) && Holds(b)
      requires || (f == MaintenanceStart && next == Config && InPhase(upgrade, StartMaintenance))
               || (f == MaintenanceEnd && next == Complete && InPhase(upgrade, EndMaintenance))
      modifies this`conds, this`upgrade
      ensures Holds(x) && sys.ctl == Busy(StdStart(x)) && !result.RequeueAfter?
      ensures x.c == b.c && x.hash == b.hash && Advanced(old(upgrade), upgrade)
    {
      hide StdStart;
      SetPhase(next);
      if next == Complete {
        conds := conds.(maintenanceMode := No, upgradeInProgress := No);
        result := Done;
      } else {
        conds := conds.(maintenanceMode := Yes);
        result := Requeue;
      }
      x := b.(conds := conds, upgrade := upgrade, h := b.h.(seen := b.h.seen + {KeyFor(b, f)}));
    }

    method UpgradePhaseMaintenanceJob(f: Family, next: Phase, ghost b: Run) returns (err: bool, result: Result, ghost x: Run)
      requires Flying(b) && Holds(b) && b.pc == MaintGet(f)
      requires || (f == MaintenanceStart && next == Config && InPhase(upgrade, StartMaintenance))
               || (f == MaintenanceEnd && next == Complete && InPhase(upgrade, EndMaintenance))
      modifies this`w, this`script, this`sys, this`acts, this`conds, this`upgrade
      ensures Valid() && Continues(old(acts), acts)
      ensures err ==> sys.ctl.Idle?
      ensures !err ==> Holds(x) && sys.ctl == Busy(if result.RequeueAfter? then Stop(x) else StdStart(x))
      ensures !err ==> x.c == b.c && x.hash == b.hash
      ensures !err ==> if result.RequeueAfter? then Held(old(upgrade), upgrade) else Advanced(old(upgrade), upgrade)
      ensures !err && result.RequeueAfter? ==> result == SHORTLY
    {
      hide StdStart, Step, Exec, MaintenanceDone, Quiet, NewPass, CH.ClusterText, Sanitize;
      x, result := b, RequeueAfter(10);
      var key := KeyOf(f, cluster.spec.version);
      var existing := GetJob(key, b);
      MaintGetCall(w, b, existing == Error);
      if existing == Error { return true, Done, x; }
      if existing == NotFound {
        err, x := CreateMaintenanceJob(f, key, b);
        return err, RequeueAfter(10), x;
      }
      err := false;
      var status := Outcome(existing.value);
      match status
      case Succeeded => result, x := MaintenanceJobCompleted(f, next, b);
      case Failed => err, x := RetryMaintenanceJob(f, key, b);
      case Running => x := Wait(b);
    }

    /** The branch for a missing job. */
    method CreateMaintenanceJob(ghost f: Family, key: JobKey, ghost b: Run) returns (err: bool, ghost x: Run)
      requires Flying(b.(conds := b.conds.(maintenanceMode := Yes), pc := MaintPost(f))) && Holds(b) && key == KeyFor(b, f)
      modifies this`w, this`script, this`sys, this`acts, this`conds
      ensures Valid() && Continues(old(acts), acts)
      ensures err ==> sys.ctl.Idle?
      ensures !err ==> Holds(x) && sys.ctl == Busy(Stop(x)) && x.c == b.c && x.hash == b.hash
    {
      hide Step, Exec, Sanitize;
      conds := conds.(maintenanceMode := Yes);
      x := b.(conds := conds, pc := MaintPost(f));
      var reply := CreateJob(key, x);
      x := Note(x, WroteJob(key));
      err := reply != Ok(());
    }

    /** The branch for a failed job: it is deleted and created again later. */
    method RetryMaintenanceJob(ghost f: Family, key: JobKey, ghost b: Run) returns (err: bool, ghost x: Run)
      requires Flying(b.(conds := b.conds.(degraded := Yes), pc := MaintDelete(f))) && Holds(b) && key == KeyFor(b, f)
      modifies this`w, this`script, this`sys, this`acts, this`conds
      ensures Valid() && Continues(old(acts), acts)
      ensures err ==> sys.ctl.Idle?
      ensures !err ==> Holds(x) && sys.ctl == Busy(Stop(x)) && x.c == b.c && x.hash == b.hash
    {
      hide Step, Exec, Sanitize;
      conds := conds.(degraded := Yes);
      x := b.(conds := conds, pc := MaintDelete(f));
      var reply := DeleteJob(key, x);
      x := Note(x, WroteJob(key));
      err := reply == Error;
    }

    /** reconcileUpgrade */
    method ReconcileUpgrade(hash: string, ghost b: Run) returns (err: bool, result: Result, ghost x: Run)
      requires Flying(Drive(b, w.clock)) && Holds(b) && upgrade.Some? && upgrade.value.phase != Complete && b.compReady && b.hash == hash
      modifies this`w, this`script, this`sys, this`acts, this`conds, this`upgrade
      ensures Valid() && Continues(old(acts), acts)
      ensures err ==> sys.ctl.Idle?
      ensures !err ==> Holds(x) && sys.ctl == Busy(if result.RequeueAfter? then Stop(x) else StdStart(x))
      ensures !err ==> x.c == b.c && x.hash == b.hash
      ensures !err ==> if result.RequeueAfter? then Held(old(upgrade), upgrade) else Advanced(old(upgrade), upgrade)
      ensures !err && result.RequeueAfter? ==>
                || result == SHORTLY
                || (result == LATER && (InPhase(old(upgrade), Waiting) || InPhase(old(upgrade), Blocked)))
                || (result == WINDOW_CHECK && InPhase(old(upgrade), Waiting))
    {
      hide StdStart, Stop, WaitingPhase, BlockedPhase, UpgJobsStart;
      conds := conds.(upgradeInProgress := Yes);
      ghost var b1 := b.(conds := conds);
      err := false;
      match upgrade.value.phase
      case Waiting => result, x := UpgradePhaseWaiting(b1);
      case Blocked => result, x := UpgradePhaseBlocked(b1);
      case StartMaintenance =>
        err, result, x := UpgradePhaseMaintenanceJob(MaintenanceStart, Config, b1.(pc := MaintGet(MaintenanceStart)));
      case Config =>
        SetPhase(InitJobs);
        result := Requeue;
        x := b1.(upgrade := upgrade);
      case InitJobs => err, result, x := UpgradePhaseInitJobs(b1);
      case FlowAPI => err, result, x := UpgradePhaseComponent(Api, hash, PeerDBServer, b1.(pc := DepGet(Api, Upg)));
      case PeerDBServer => err, result, x := UpgradePhaseComponent(Server, hash, UI, b1.(pc := DepGet(Server, Upg)));
      case UI =>
        var next := Complete;
        if cluster.spec.maintenance { next := EndMaintenance; }
        err, result, x := UpgradePhaseComponent(Ui, hash, next, b1.(pc := DepGet(Ui, Upg)));
      case EndMaintenance =>
        err, result, x := UpgradePhaseMaintenanceJob(MaintenanceEnd, Complete, b1.(pc := MaintGet(MaintenanceEnd)));
    }

    // ----- Reconcile -----

    /** reconcileUpgradeLifecycle; `done` tells Reconcile to return. */
    method ReconcileUpgradeLifecycle(hash: string, fenced: bool, ghost b: Run)
      returns (done: bool, err: bool, result: Result, ghost x: Run)
      requires Flying(Lifecycle(b, w.clock)) && Holds(b) && b.compReady && b.hash == hash && fenced == Fenced(cluster)
      requires upgrade == cluster.status.upgrade
      modifies this`w, this`script, this`sys, this`acts, this`conds, this`upgrade, this`observed
      ensures Valid() && Continues(old(acts), acts)
      ensures done ==> sys.ctl.Idle? && (!err ==> result != Done)
      ensures !done ==> !err && Holds(x) && sys.ctl == Busy(StdStart(x)) && x.hash == b.hash && upgrade.Some?
      ensures !done && !fenced && upgrade.value.phase != Complete ==> upgrade != cluster.status.upgrade
      ensures done && !err ==> result == Requeue || result == SHORTLY || result == LATER || result == WINDOW_CHECK
    {
      hide StdStart, Drive, Step, Exec, Quiet, QuietAt, NewPassOrDeployment;
      done, err, result := false, false, Done;
      x := b;
      if upgrade.None? {
        upgrade := Some(Upgrade("", cluster.spec.version, Complete, None));
        x := x.(upgrade := upgrade);
      }
      if fenced { return; }
      var inProgress := upgrade.value.phase != Complete;
      if cluster.spec.version != upgrade.value.to && !inProgress {
        upgrade := Some(Upgrade(upgrade.value.to, cluster.spec.version, Waiting, Some(w.clock)));
        x := x.(upgrade := upgrade);
        inProgress := true;
      }
      if !inProgress { return; }
      err, result, x := ReconcileUpgrade(hash, x);
      if err { return true, true, result, x; }
      if result.RequeueAfter? {
        done := true;
        err, result := PersistHeld(result, x);
      }
    }

    /** The upgrade is held in its phase: its status is persisted and the reconcile ends. */
    method PersistHeld(held: Result, ghost x: Run) returns (err: bool, result: Result)
      requires Flying(Stop(x)) && Holds(x) && held.RequeueAfter?
      modifies this`w, this`script, this`sys, this`acts, this`observed
      ensures Valid() && sys.ctl.Idle? && Continues(old(acts), acts)
      ensures acts != [] && acts[|acts| - 1] == Call(err)
      ensures result == held || result == Requeue
    {
      hide Step, Exec;
      observed := cluster.generation;
      var reply := UpdateStatus(false, Stop(x));
      err, result := reply == Error, if reply == Conflict then Requeue else held;
    }

    method ReconcileInitJobsAndStatus(fenced: bool, ghost b: Run) returns (err: bool, initReady: bool, ghost x: Run)
      requires Flying(StdStart(b)) && Holds(b) && fenced == Fenced(cluster)
      modifies this`w, this`script, this`sys, this`acts, this`conds
      ensures Valid() && Continues(old(acts), acts)
      ensures err ==> sys.ctl.Idle?
      ensures !err ==> Flying(x) && Holds(x) && x.initReady == initReady && x.compReady && x.hash == b.hash
      ensures !err ==> x.pc == if fenced then FencedGet(Api) else DepGet(Api, Std)
      ensures !err ==> conds == old(conds).(initialized := AsCond(initReady))
      ensures fenced ==> !err && initReady && acts == old(acts)
    {
      x, initReady, err := b.(initReady := true, compReady := true), true, false;
      if !fenced {
        err, initReady, x := ReconcileInitJobs(Std, true, x);
        if err { return; }
      }
      conds := conds.(initialized := if initReady then Yes else No);
      x := x.(conds := conds, pc := if fenced then FencedGet(Api) else DepGet(Api, Std));
    }

    method ReconcileComponentsAndStatus(hash: string, fenced: bool, ghost b: Run)
      returns (err: bool, componentsReady: bool, ghost x: Run)
      requires Flying(b) && Holds(b) && b.compReady && b.hash == hash && fenced == Fenced(cluster)
      requires b.pc == if fenced then FencedGet(Api) else DepGet(Api, Std)
      modifies this`w, this`script, this`sys, this`acts, this`conds
      ensures Valid() && Continues(old(acts), acts)
      ensures err ==> sys.ctl.Idle?
      ensures !err ==> sys.ctl == Busy(Final(x)) && SameWork(b, x) && x.initReady == b.initReady
      ensures !err ==> x.compReady == componentsReady && conds == b.conds.(componentsReady := AsCond(componentsReady))
    {
      hide Final, Step, Exec;
      if fenced {
        err, componentsReady, x := CheckHealth(b);
        if err { return; }
      } else {
        err, componentsReady, x := ReconcileDeploymentAndService(Api, hash, Std, true, b);
        if err { return; }
        err, componentsReady, x := ReconcileDeploymentAndService(Server, hash, Std, componentsReady, x.(pc := DepGet(Server, Std)));
        if err { return; }
        err, componentsReady, x := ReconcileDeploymentAndService(Ui, hash, Std, componentsReady, x.(pc := DepGet(Ui, Std)));
        if err { return; }
      }
      conds := conds.(componentsReady := if componentsReady then Yes else No);
    }

    /** The read-only loop over the Deployments while a backup runs. */
    method CheckHealth(ghost b: Run) returns (err: bool, componentsReady: bool, ghost x: Run)
      requires Flying(b) && Holds(b) && b.compReady && b.pc == FencedGet(Api)
      modifies this`w, this`script, this`sys, this`acts
      ensures Valid() && Continues(old(acts), acts)
      ensures err ==> sys.ctl.Idle?
      ensures !err ==> sys.ctl == Busy(Final(x)) && SameWork(b, x) && x.initReady == b.initReady && x.compReady == componentsReady
    {
      hide Final, Step, Exec;
      x, err, componentsReady := b, false, true;
      var components := [Api, Server, Ui];
      for i := 0 to |components|
        invariant Valid() && Continues(old(acts), acts)
        invariant SameWork(b, x) && x.initReady == b.initReady && x.compReady == componentsReady
        invariant sys.ctl == Busy(if i < |components| then x.(pc := FencedGet(components[i])) else Final(x))
      {
        ghost var at := x.(pc := FencedGet(components[i]));
        var dep := GetDeployment(components[i], at);
        FencedGetCall(w, at, dep == Error);
        if dep == Error { return true, false, x; }
        if dep == NotFound || dep.value.status.ready < dep.value.status.replicas { componentsReady := false; }
        x := at.(compReady := componentsReady);
      }
    }

    method SetFinalConditions(initReady: bool, componentsReady: bool, fenced: bool)
      modifies this`conds
      ensures conds == old(conds).(
                ready := AsCond(initReady && componentsReady),
                backupSafe := AsCond(!fenced && !(upgrade.Some? && upgrade.value.phase != Complete) && componentsReady),
                reconciling := No)
    {
      conds := conds.(ready := if initReady && componentsReady then Yes else No);
      var active := upgrade.Some? && upgrade.value.phase != Complete;
      if fenced { conds := conds.(backupSafe := No); }
      else if active || !componentsReady { conds := conds.(backupSafe := No); }
      else { conds := conds.(backupSafe := Yes); }
      conds := conds.(reconciling := No);
    }

    /** reconcileDependencies: the config hash, or "" when the catalog secret cannot be read. */
    method ReconcileDependencies(ghost b: Run) returns (err: bool, hash: string, ghost x: Run)
      requires Flying(b) && Holds(b) && b.pc == SecretGet
      modifies this`w, this`script, this`sys, this`acts, this`conds, this`observed
      ensures Valid() && Continues(old(acts), acts)
      ensures err || hash == "" ==> sys.ctl.Idle?
      ensures !err && hash == "" ==> w.cluster.status.conditions.catalogReady == No && w.cluster.status.conditions.ready == No
      ensures hash != "" ==> w.secret.Some? && hash == CH.ClusterText(cluster.spec.config, cluster.spec.secretName, w.secret.value)
      ensures hash != "" ==> conds == old(conds).(catalogReady := Yes, temporalReady := Yes)
      ensures !err && hash != "" ==> Flying(x) && Holds(x) && x.hash == hash && x.compReady == b.compReady
      ensures !err && hash != "" ==>
                x.pc == PlainGet(if DesiredPlain(cluster, ServiceAccount).Some? then ServiceAccount else ConfigMap, Std)
    {
      hide CH.ClusterText;
      x := b;
      var secret := GetSecret(b);
      if !secret.Ok? {
        conds := conds.(catalogReady := No, ready := No);
        observed := cluster.generation;
        x := b.(conds := conds, observed := observed, pc := EarlyStatus);
        var reply := WriteStatusAt(cluster.rv, x);
        return reply != Ok(()), "", x;
      }
      conds := conds.(catalogReady := Yes, temporalReady := Yes);
      err := false;
      hash := HashOf(secret.value);
      x := sys.ctl.r;
    }

    method HashOf(secretVersion: string) returns (hash: string)
      ensures hash == CH.ClusterText(cluster.spec.config, cluster.spec.secretName, secretVersion) && hash != ""
    {
      hash := CH.ComputeConfigText(cluster.spec.config, map[cluster.spec.secretName := secretVersion]);
      CH.ControllersAgree(cluster.spec.config, cluster.spec.secretName, secretVersion, None);
    }

    method ReconcilePaused(ghost b: Run) returns (err: bool)
      requires Flying(b.(pc := EarlyStatus, conds := b.conds.(ready := No), observed := b.c.generation)) && Holds(b)
      modifies this`w, this`script, this`sys, this`acts, this`conds, this`observed
      ensures Valid() && Continues(old(acts), acts) && sys.ctl.Idle?
      ensures !err ==> w.cluster.status.conditions.ready == No
      ensures OneCall(old(acts), acts) && BeforeCall() == w.(cluster := BeforeCall().cluster, nextRv := BeforeCall().nextRv)
    {
      conds := conds.(ready := No);
      observed := cluster.generation;
      var reply := WriteStatusAt(cluster.rv, b.(pc := EarlyStatus, conds := conds, observed := observed));
      err := reply != Ok(());
    }

    /** The ServiceAccount, if one is managed, and the ConfigMap. */
    method ReconcileConfig(ghost b: Run) returns (err: bool, ghost x: Run)
      requires Flying(b) && Holds(b)
      requires b.pc == PlainGet(if DesiredPlain(cluster, ServiceAccount).Some? then ServiceAccount else ConfigMap, Std)
      modifies this`w, this`script, this`sys, this`acts
      ensures Valid() && Continues(old(acts), acts)
      ensures err ==> sys.ctl.Idle?
      ensures !err ==> sys.ctl == Busy(Lifecycle(x, w.clock)) && SameWork(b, x) && x.compReady == b.compReady
      ensures !err ==> ConfigMap in w.plain && w.plain[ConfigMap] == Data(cluster.spec.config)
    {
      hide Lifecycle;
      x := b;
      if cluster.spec.serviceAccount.Some? {
        err, x := ReconcilePlain(ServiceAccount, Text(cluster.spec.serviceAccount.value), Std, x);
        if err { return; }
        x := x.(pc := PlainGet(ConfigMap, Std));
      }
      err, x := ReconcilePlain(ConfigMap, Data(cluster.spec.config), Std, x);
    }

    /** The part of Reconcile that follows the upgrade lifecycle. */
    method StandardReconciliation(hash: string, fenced: bool, ghost b: Run) returns (err: bool, result: Result)
      requires Flying(StdStart(b)) && Holds(b) && b.hash == hash && fenced == Fenced(cluster)
      modifies this`w, this`script, this`sys, this`acts, this`conds, this`observed
      ensures Valid() && Continues(old(acts), acts) && sys.ctl.Idle?
      ensures !err && result == Done ==>
                w.cluster.status.conditions.ready == Yes && w.cluster.status.upgrade == upgrade
      ensures !err && result != Requeue ==>
                && (w.cluster.status.conditions.ready == Yes <==> result == Done)
                && (result == Done || result == SHORTLY)
                && w.cluster.status.upgrade == upgrade
    {
      hide StdStart, Step, Exec, Final;
      var initReady, componentsReady;
      ghost var x;
      err, initReady, x := ReconcileInitJobsAndStatus(fenced, b);
      if err { return true, Done; }
      err, componentsReady, x := ReconcileComponentsAndStatus(hash, fenced, x);
      if err { return true, Done; }
      err, result := PersistFinal(initReady, componentsReady, fenced, x);
    }

    /** The end of Reconcile. */
    method PersistFinal(initReady: bool, componentsReady: bool, fenced: bool, ghost x: Run) returns (err: bool, result: Result)
      requires Flying(Final(x)) && x.initReady == initReady && x.compReady == componentsReady && fenced == Fenced(cluster)
      requires x.c == cluster && x.upgrade == upgrade && conds == x.conds.(componentsReady := AsCond(componentsReady))
      modifies this`w, this`script, this`sys, this`acts, this`conds, this`observed
      ensures Valid() && Continues(old(acts), acts) && sys.ctl.Idle?
      ensures !err && result == Done ==>
                w.cluster.status.conditions.ready == Yes && w.cluster.status.upgrade == upgrade
      ensures !err && result != Requeue ==>
                && (w.cluster.status.conditions.ready == Yes <==> result == Done)
                && (result == Done || result == SHORTLY)
                && w.cluster.status.upgrade == upgrade
      ensures acts != [] && acts[|acts| - 1] == Call(err)
    {
      hide Step, Exec, Quiet;
      SetFinalConditions(initReady, componentsReady, fenced);
      observed := cluster.generation;
      var reply := UpdateStatus(true, Final(x));
      if reply == Conflict { return false, Requeue; }
      if reply == Error { return true, Done; }
      err, result := false, if !initReady || !componentsReady then RequeueAfter(10) else Done;
    }

    /**
     One reconcile: a Start and then API calls of the machine until it is idle again. Without error and without
     requeue, the cluster is either paused or reported ready; and if that leaves an upgrade unfinished (and no
     backup holds it), the record this reconcile persisted is not the one it read, so its own status write wakes
     the controller again.
     */
    method Reconcile() returns (err: bool, result: Result)
      requires Valid() && sys.ctl.Idle?
      modifies this
      ensures Valid() && sys.ctl.Idle?
      ensures Continues(old(acts) + [Start], acts)
      ensures !err && result == Done && !cluster.spec.paused ==> w.cluster.status.conditions.ready == Yes
      ensures !err && result == Done && !cluster.spec.paused && !Fenced(cluster) ==>
                var u := w.cluster.status.upgrade;
                u.Some? && (u.value.phase != Complete ==> u != cluster.status.upgrade)
      ensures !err && result.RequeueAfter? ==> 0 < result.seconds <= 60
      ensures cluster.spec.paused ==>
                && OneCall(old(acts) + [Start], acts) && result == Done
                && BeforeCall() == w.(cluster := BeforeCall().cluster, nextRv := BeforeCall().nextRv)
                && (!err ==> w.cluster.status.conditions.ready == No)
    {
      hide Lifecycle, StdStart, Step, Exec, BeforeCall, OneCall, Quiet, QuietAt;
      Log(Start);
      cluster := w.cluster;
      conds, upgrade, observed := cluster.status.conditions, cluster.status.upgrade, cluster.status.observedGeneration;
      conds := conds.(reconciling := Yes);
      ghost var b := Run(SecretGet, cluster, conds, upgrade, observed, "", true, true, NO_HISTORY);
      if cluster.spec.paused {
        err := ReconcilePaused(b);
        return err, Done;
      }
      err, result := ReconcileActive(b);
    }

    /** Reconcile of a cluster that is not paused. */
    method ReconcileActive(ghost b: Run) returns (err: bool, result: Result)
      requires Flying(b) && Holds(b) && b.pc == SecretGet && b.compReady && upgrade == cluster.status.upgrade
      modifies this`w, this`script, this`sys, this`acts, this`conds, this`upgrade, this`observed
      ensures Valid() && sys.ctl.Idle? && Continues(old(acts), acts)
      ensures !err && result == Done ==> w.cluster.status.conditions.ready == Yes
      ensures !err && result == Done && !Fenced(cluster) ==>
                var u := w.cluster.status.upgrade;
                u.Some? && (u.value.phase != Complete ==> u != cluster.status.upgrade)
      ensures !err && result.RequeueAfter? ==> 0 < result.seconds <= 60
    {
      hide Lifecycle, StdStart, Step, Exec, CH.ClusterText, DesiredPlain;
      ghost var x;
      var fenced := cluster.backup != "";
      var hash;
      err, hash, x := ReconcileDependencies(b);
      if err { return true, Done; }
      if hash == "" { return false, RequeueAfter(30); }
      err, x := ReconcileConfig(x);
      if err { return true, Done; }
      var done;
      done, err, result, x := ReconcileUpgradeLifecycle(hash, fenced, x);
      if done { return; }
      err, result := StandardReconciliation(hash, fenced, x);
    }

    /** The one worker of the controller: whatever it leaves behind keeps the promises made for runs. */
    method Serve(rounds: nat)
      requires Valid() && sys.ctl.Idle? && Initial(origin)
      modifies this
      ensures Valid() && sys.ctl.Idle?
      ensures Guarantees.Coherent(w.cluster.status) && Guarantees.SafeForBackup(w.cluster.status)
      ensures PhaseGraph.FollowsGraph(PhaseGraph.Trail(origin, acts))
    {
      hide Exec, Guarantees.Coherent, Guarantees.SafeForBackup, PhaseGraph.FollowsGraph, PhaseGraph.Trail;
      for i := 0 to rounds
        invariant Valid() && sys.ctl.Idle?
      {
        var err, result := Reconcile();
      }
      Guarantees.ConditionsCohere(origin, acts);
      ReconcileFacts.ExecInv(origin, []);
      assert Exec(origin, []) == origin by { ExecNothing(origin); }
      PhaseGraph.RunsFollowTheGraph(origin, acts);
    }
  }
}
