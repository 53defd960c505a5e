/**
 Runs that show the surprising behaviour is real: what the other theorems have to make room for. Each lemma
 constructs the run, call by call, from every state of a simple shape.
 */
module Witness {
  import opened Basics
  import opened JobNames
  import opened LiveObject
  import opened Model
  import opened ClusterMachine
  import opened ReconcileFacts
  import opened PhaseGraph
  import opened Components
  import Progress
  import ConfigHash
  import MaintenanceWindow

  /** The run goes on with nothing but reconciles whose calls succeed. */
  ghost predicate Extends(acts: seq<Act>, more: seq<Act>) {
    acts <= more && forall i :: |acts| <= i < |more| ==> more[i] == Start || more[i] == Call(false)
  }

  /** One more act. */
  lemma Then(s: Sys, acts: seq<Act>, a: Act) returns (more: seq<Act>, t: Sys)
    ensures more == acts + [a] && t == Exec(s, more) == Apply(Exec(s, acts), a)
  {
    more, t := acts + [a], Apply(Exec(s, acts), a);
    assert more[..|more| - 1] == acts;
  }

  /** An idle controller, no fence, a readable secret, and a ServiceAccount (not managed) and ConfigMap with nothing to do. */
  predicate AtRest(s: Sys) {
    && s.ctl.Idle? && !s.w.cluster.spec.paused && !Fenced(s.w.cluster) && s.w.secret.Some?
    && s.w.cluster.spec.serviceAccount.None?
    && ConfigMap in s.w.plain && s.w.plain[ConfigMap] == Data(s.w.cluster.spec.config)
  }

  /** Where a reconcile that starts at rest stands after its first two calls. */
  ghost function Prepared(w: World): Run {
    var b := Begin(w);
    b.(pc := PlainGet(ConfigMap, Std), conds := b.conds.(catalogReady := Yes, temporalReady := Yes),
       hash := ConfigHash.ClusterText(b.c.spec.config, b.c.spec.secretName, if w.secret.Some? then w.secret.value else ""))
  }

  lemma Prepare(s: Sys) returns (acts: seq<Act>, t: Sys)
    requires AtRest(s)
    ensures acts == [Start, Call(false), Call(false)]
    ensures t == Exec(s, acts) == Sys(s.w, Busy(Lifecycle(Prepared(s.w), s.w.clock)))
  {
    hide Exec, Lifecycle, ConfigHash.ClusterText;
    acts, t := Then(s, [], Start);
    assert Exec(s, []) == s by { ExecEmpty(s); }
    acts, t := Then(s, acts, Call(false));
    acts, t := Then(s, acts, Call(false));
  }

  lemma ExecEmpty(s: Sys)
    ensures Exec(s, []) == s
  {
  }

  // ----- Blocked -----

  /** An init job that fails between the two looks the driver takes at it blocks the upgrade. */
  lemma RaceBlocks(s: Sys) returns (acts: seq<Act>)
    requires AtRest(s) && Active(RecordAt(s)) && RecordAt(s).value.phase == InitJobs
    requires Enabled(s.w.cluster.spec, NsRegister) && !Enabled(s.w.cluster.spec, SearchAttr)
    requires var key := KeyOf(NsRegister, s.w.cluster.spec.version); key in s.w.jobs && s.w.jobs[key] == Running
    ensures RecordAt(Exec(s, acts)) == Some(RecordAt(s).value.(phase := Blocked))
  {
    hide Exec, ConfigHash.ClusterText, Sanitize, MaintenanceWindow.InWindow;
    var t;
    acts, t := Prepare(s);
    var key := KeyOf(NsRegister, s.w.cluster.spec.version);
    assert t.ctl.r.pc == JobGet(NsRegister, Upg);
    acts, t := Then(s, acts, Call(false));
    assert t.ctl.r.pc == FailedGet(NsRegister);
    acts, t := Then(s, acts, Outside(JobEnds(key, false)));
    acts, t := Then(s, acts, Call(false));
    assert t.ctl.r.pc == StatusGet(false);
    acts, t := Persist(s, acts, t.ctl.r);
  }

  // ----- undisturbed reconciles -----

  predicate InPlace(w: World, c: Cluster) {
    forall k :: Service(k) in w.plain && w.plain[Service(k)] == Text(SpecOf(c.spec, k).service)
  }

  /** The Deployment is missing or needs no change. */
  predicate Settled(w: World, b: Run, k: Component) { k in w.deps ==> UpToDate(w.deps[k].spec, Build(b.c, k, b.hash)) }

  /** Only Deployments, jobs and the status may differ. */
  predicate Alike(w: World, v: World) {
    && v.plain == w.plain && v.secret == w.secret && v.clock == w.clock && v.nextRv >= w.nextRv
    && v.cluster == w.cluster.(status := v.cluster.status, rv := v.cluster.rv)
  }

  predicate Built(w: World, b: Run, k: Component) { k in w.deps && w.deps[k].spec == Build(b.c, k, b.hash) }

  predicate SameDeployment(w: World, v: World, k: Component) {
    (k in v.deps <==> k in w.deps) && (k in w.deps ==> v.deps[k] == w.deps[k])
  }

  predicate SameRun(b: Run, x: Run) {
    x.c == b.c && x.upgrade == b.upgrade && x.hash == b.hash
  }

  lemma PassComponent(s: Sys, acts: seq<Act>, b: Run, k: Component) returns (more: seq<Act>, t: Sys, x: Run)
    requires Exec(s, acts).ctl == Busy(b) && b.pc == DepGet(k, Std)
    requires InPlace(Exec(s, acts).w, b.c) && Settled(Exec(s, acts).w, b, k)
    ensures t == Exec(s, more) && t.ctl == Busy(AfterService(x, k, Std)) && SameRun(b, x) && Extends(acts, more)
    ensures var w := Exec(s, acts).w;
            && Alike(w, t.w) && t.w.jobs == w.jobs && t.w.cluster == w.cluster && Current(t.w, b, k)
            && (k !in w.deps ==> Built(t.w, b, k)) && (k in w.deps ==> t.w.deps == w.deps)
            && forall o :: o != k ==> SameDeployment(w, t.w, o)
  {
    hide Exec, Build, UpToDate, AfterService;
    assert Service(k) in Exec(s, acts).w.plain;
    more, t, x := PassDeployment(s, acts, b, k);
    more, t := Then(s, more, Call(false));
  }

  /** The Deployment is created when missing and left alone when up to date. */
  lemma PassDeployment(s: Sys, acts: seq<Act>, b: Run, k: Component) returns (more: seq<Act>, t: Sys, x: Run)
    requires Exec(s, acts).ctl == Busy(b) && b.pc == DepGet(k, Std) && Settled(Exec(s, acts).w, b, k)
    ensures t == Exec(s, more) && t.ctl == Busy(x) && x.pc == PlainGet(Service(k), Std) && SameRun(b, x) && Extends(acts, more)
    ensures var w := Exec(s, acts).w;
            && t.w == w.(deps := t.w.deps, nextRv := t.w.nextRv) && t.w.nextRv >= w.nextRv && Current(t.w, b, k)
            && (k !in w.deps ==> Built(t.w, b, k)) && (k in w.deps ==> t.w.deps == w.deps)
            && forall o :: o != k ==> SameDeployment(w, t.w, o)
  {
    hide Exec, Build, UpToDate, LabelsOf;
    BuiltIsCurrent(b.c, k, b.hash);
    var w := Exec(s, acts).w;
    more, t := Then(s, acts, Call(false));
    if k !in w.deps { more, t := Then(s, more, Call(false)); }
    x := t.ctl.r;
  }

  /** The end of a reconcile: all Deployments are brought up to date and the record is persisted. */
  lemma PassStandard(s: Sys, acts: seq<Act>, b: Run) returns (more: seq<Act>, t: Sys)
    requires Exec(s, acts).ctl == Busy(b) && b.pc == DepGet(Api, Std)
    requires InPlace(Exec(s, acts).w, b.c) && forall k :: Settled(Exec(s, acts).w, b, k)
    ensures t == Exec(s, more) && t.ctl.Idle? && RecordAt(t) == b.upgrade && Extends(acts, more)
    ensures Alike(Exec(s, acts).w, t.w) && t.w.jobs == Exec(s, acts).w.jobs && forall k :: Current(t.w, b, k)
    ensures forall k :: k !in Exec(s, acts).w.deps ==> Built(t.w, b, k)
    ensures (forall k: Component :: k in Exec(s, acts).w.deps) ==> t.w.deps == Exec(s, acts).w.deps
  {
    hide Exec, Build, UpToDate, Apply;
    var x, y, z;
    var w := Exec(s, acts).w;
    assert Settled(w, b, Api) && Settled(w, b, Server) && Settled(w, b, Ui);
    more, t, x := PassComponent(s, acts, b, Api);
    assert SameDeployment(w, t.w, Server) && SameDeployment(w, t.w, Ui);
    var w1 := t.w;
    more, t, y := PassComponent(s, more, x.(pc := DepGet(Server, Std)), Server);
    assert SameDeployment(w1, t.w, Api) && SameDeployment(w1, t.w, Ui);
    var w2 := t.w;
    more, t, z := PassComponent(s, more, y.(pc := DepGet(Ui, Std)), Ui);
    assert SameDeployment(w2, t.w, Api) && SameDeployment(w2, t.w, Server);
    more, t := Persist(s, more, Final(z));
    forall k ensures Current(t.w, b, k) && (k !in w.deps ==> Built(t.w, b, k)) {
      match k { case Api => case Server => case Ui => }
    }
  }

  lemma Persist(s: Sys, acts: seq<Act>, b: Run) returns (more: seq<Act>, t: Sys)
    requires Exec(s, acts).ctl == Busy(b) && b.pc.StatusGet?
    ensures t == Exec(s, more) && t.ctl.Idle? && t.w.cluster.status == StatusOf(b) && Extends(acts, more)
    ensures var w := Exec(s, acts).w; Alike(w, t.w) && t.w.jobs == w.jobs && t.w.deps == w.deps
  {
    hide Exec;
    more, t := Then(s, acts, Call(false));
    if t.ctl.Busy? { more, t := Then(s, more, Call(false)); }
  }

  /** Nothing is left to do for the reconcile but to create Deployments that are missing. */
  predicate Smooth(s: Sys) {
    && AtRest(s) && InPlace(s.w, s.w.cluster) && !Enabled(s.w.cluster.spec, NsRegister) && !Enabled(s.w.cluster.spec, SearchAttr)
    && s.w.deps == map[]
  }

  /**
   The fall-through, as a run: one reconcile opens the record, leaves Waiting for StartMaintenance and, before any
   start-maintenance job exists, has written all three Deployments at the new version.
   */
  lemma WritesBeforeMaintenance(s: Sys) returns (acts: seq<Act>)
    requires Smooth(s) && RecordAt(s).Some? && Opens(s.w.cluster) && GateOpen(s.w.cluster.spec, s.w.clock)
    requires s.w.cluster.spec.maintenance && KeyOf(MaintenanceStart, s.w.cluster.spec.version) !in s.w.jobs
    ensures Extends([], acts)
    ensures var t := Exec(s, acts);
            && In([RecordAt(t)], 0, StartMaintenance) && KeyOf(MaintenanceStart, s.w.cluster.spec.version) !in t.w.jobs
            && t.w.jobs == s.w.jobs && forall k :: Built(t.w, Prepared(s.w), k)
  {
    hide Exec, ConfigHash.ClusterText, Build, UpToDate, Apply, MaintenanceWindow.InWindow;
    var t;
    acts, t := Prepare(s);
    var b := t.ctl.r;
    assert b.pc == DepGet(Api, Std);
    acts, t := PassStandard(s, acts, b);
    assert forall k :: Built(t.w, b, k) ==> Built(t.w, Prepared(s.w), k);
  }

  // ----- from a fresh cluster -----

  /** A small cluster; the namespace job, maintenance and an image for all components are up to the caller. */
  function Demo(version: string, maintenance: bool, ns: bool, image: Option<string>): Spec {
    var component := ComponentSpec(image, None, "", "", "", "");
    Spec(version, false, None, None, maintenance, Some(InitSpec(Some(JobSwitch(Some(ns))), Some(JobSwitch(Some(false))))),
         component, component, component, None, map[], "catalog")
  }

  function DemoWorld(spec: Spec, backup: string): World {
    World(Cluster("demo", spec, backup, 1, 1, NEW_STATUS), Some("1"), 0,
          map[ConfigMap := Data(map[]), Service(Api) := Text(""), Service(Server) := Text(""), Service(Ui) := Text("")],
          map[], map[], 2)
  }

  function Guarded(version: string): Spec { Demo(version, true, false, None) }

  /** The first reconcile happens during a backup. */
  lemma DemoFirst() returns (acts: seq<Act>, t: Sys)
    ensures t == Exec(Sys(DemoWorld(Guarded("v1.0"), "backup"), Idle), acts)
    ensures Alike(DemoWorld(Guarded("v1.0"), "backup"), t.w) && t.w.jobs == map[] && t.w.deps == map[] && t.ctl.Idle?
    ensures RecordAt(t) == Some(Upgrade("", "v1.0", Complete, None))
  {
    hide Exec, ConfigHash.ClusterText;
    var s := Sys(DemoWorld(Guarded("v1.0"), "backup"), Idle);
    ExecEmpty(s);
    acts, t := Then(s, [], Start);
    acts, t := Then(s, acts, Call(false));
    acts, t := Then(s, acts, Call(false));
    assert t.ctl.r.pc == FencedGet(Api);
    acts, t := Then(s, acts, Call(false));
    acts, t := Then(s, acts, Call(false));
    acts, t := Then(s, acts, Call(false));
    assert t.ctl.r.pc == StatusGet(true);
    acts, t := Persist(s, acts, t.ctl.r);
  }

  /** Then the backup ends and the version is edited. */
  lemma DemoBegins() returns (acts: seq<Act>, t: Sys)
    ensures t == Exec(Sys(DemoWorld(Guarded("v1.0"), "backup"), Idle), acts)
    ensures Smooth(t) && t.w.jobs == map[] && t.w.cluster.spec == Guarded("v2.0")
    ensures RecordAt(t) == Some(Upgrade("", "v1.0", Complete, None))
  {
    hide Exec;
    var s := Sys(DemoWorld(Guarded("v1.0"), "backup"), Idle);
    acts, t := DemoFirst();
    acts, t := Then(s, acts, Outside(Annotate("")));
    acts, t := Then(s, acts, Outside(EditSpec(Guarded("v2.0"))));
    forall k ensures Service(k) in t.w.plain && t.w.plain[Service(k)] == Text(SpecOf(Guarded("v2.0"), k).service) {
      match k { case Api => case Server => case Ui => }
    }
  }

  /** Such a run exists from a fresh cluster, and its images are those of the new version. */
  lemma FreshRunWritesBeforeMaintenance() returns (acts: seq<Act>)
    ensures var s := Sys(DemoWorld(Guarded("v1.0"), "backup"), Idle); var t := Exec(s, acts);
            && Initial(s) && In([RecordAt(t)], 0, StartMaintenance) && t.w.jobs == map[]
            && forall k :: k in t.w.deps && |t.w.deps[k].spec.template.containers| > 0 &&
                 t.w.deps[k].spec.template.containers[0].image == "ghcr.io/peerdb-io/" + ImageName(k) + ":stable-v2.0"
  {
    hide Exec, ConfigHash.ClusterText, Build, Smooth;
    var first, t := DemoBegins();
    MayStart(t);
    var more := WritesBeforeMaintenance(t);
    acts := first + more;
    ExecConcat(Sys(DemoWorld(Guarded("v1.0"), "backup"), Idle), first, more);
    var n := Exec(t, more);
    forall k ensures k in n.w.deps && |n.w.deps[k].spec.template.containers| > 0 &&
                 n.w.deps[k].spec.template.containers[0].image == "ghcr.io/peerdb-io/" + ImageName(k) + ":stable-v2.0" {
      assert Built(n.w, Prepared(t.w), k);
      DefaultImage(t.w.cluster, k, Prepared(t.w).hash);
    }
  }

  lemma MayStart(s: Sys)
    requires s.w.cluster.spec == Guarded("v2.0") && RecordAt(s) == Some(Upgrade("", "v1.0", Complete, None))
    ensures Opens(s.w.cluster) && GateOpen(s.w.cluster.spec, s.w.clock) && s.w.cluster.spec.maintenance
  {
  }

  lemma DefaultImage(c: Cluster, k: Component, hash: string)
    requires SpecOf(c.spec, k).image.None?
    ensures var containers := Build(c, k, hash).template.containers;
            |containers| > 0 && containers[0].image == "ghcr.io/peerdb-io/" + ImageName(k) + ":stable-" + c.spec.version
  {
  }

  // ----- the swallowed conflict -----

  /**
   A Deployment that is rolled out with an old template lets the upgrade leave its phase when the update of the
   template meets a conflict: here a status report arrives between the read and the update.
   */
  lemma ConflictLeavesOldTemplate(s: Sys) returns (acts: seq<Act>)
    requires AtRest(s) && InPlace(s.w, s.w.cluster) && Active(RecordAt(s)) && RecordAt(s).value.phase == FlowAPI
    requires Api in s.w.deps && s.w.deps[Api].rv < s.w.nextRv
    requires var d, want := s.w.deps[Api], Build(s.w.cluster, Api, Prepared(s.w).hash);
             !UpToDate(d.spec, want) && RolledOut(d, DesiredReplicas(want)) && d.status.observedGeneration == d.generation
    ensures var t := Exec(s, acts);
            && t.ctl.Busy? && In([t.ctl.r.upgrade], 0, PeerDBServer) && t.ctl.r.h.conflicts == {Lost(Api, Upg)}
            && Api in t.w.deps && t.w.deps[Api].spec == s.w.deps[Api].spec && !Current(t.w, t.ctl.r, Api)
  {
    hide Exec, ConfigHash.ClusterText, Build, UpToDate, RolledOut, Prepared;
    var t;
    assert Service(Api) in s.w.plain;
    acts, t := MeetConflict(s);
    acts, t := Then(s, acts, Call(false));
    SameCounters(s.w.deps[Api], t.w.deps[Api], DesiredReplicas(Build(s.w.cluster, Api, Prepared(s.w).hash)));
    acts, t := Then(s, acts, Call(false));
  }

  /** The report arrives between the driver's read of the Deployment and its update. */
  lemma MeetConflict(s: Sys) returns (acts: seq<Act>, t: Sys)
    requires AtRest(s) && Active(RecordAt(s)) && RecordAt(s).value.phase == FlowAPI
    requires Api in s.w.deps && s.w.deps[Api].rv < s.w.nextRv
    requires !UpToDate(s.w.deps[Api].spec, Build(s.w.cluster, Api, Prepared(s.w).hash))
    requires s.w.deps[Api].status.observedGeneration == s.w.deps[Api].generation
    ensures t == Exec(s, acts) && t.ctl.Busy? && t.ctl.r.pc == PlainGet(Service(Api), Upg) && t.ctl.r.upgrade == RecordAt(s)
    ensures t.ctl.r.h.conflicts == {Lost(Api, Upg)} && t.ctl.r.c == s.w.cluster && t.ctl.r.hash == Prepared(s.w).hash
    ensures t.w == s.w.(deps := t.w.deps, nextRv := t.w.nextRv) && Api in t.w.deps
    ensures t.w.deps[Api] == s.w.deps[Api].(rv := t.w.deps[Api].rv)
  {
    hide Exec, ConfigHash.ClusterText, Build, UpToDate, Merge, LabelsOf;
    var d := s.w.deps[Api];
    acts, t := Prepare(s);
    assert t.ctl.r.pc == DepGet(Api, Upg);
    acts, t := Then(s, acts, Call(false));
    assert t.ctl.r.pc == DepPut(Api, Upg, d);
    acts, t := Then(s, acts, Outside(RolloutAdvances(Api, d.status)));
    acts, t := Then(s, acts, Call(false));
  }

  lemma SameCounters(d: Deployment, e: Deployment, n: nat)
    requires RolledOut(d, n) && e == d.(rv := e.rv)
    ensures RolledOut(e, n)
  {
  }

  // ----- an upgrade that completes -----

  function Target(w: World, k: Component): DeploymentSpec {
    Build(w.cluster, k, ConfigHash.ClusterText(w.cluster.spec.config, w.cluster.spec.secretName,
                                               if w.secret.Some? then w.secret.value else ""))
  }

  lemma SameTarget(w: World, v: World, k: Component)
    requires Alike(w, v)
    ensures Target(v, k) == Target(w, k)
  {
    hide ConfigHash.ClusterText;
  }

  /** The Deployment is up to date, rolled out and reported on. */
  predicate Serves(w: World, k: Component) {
    && k in w.deps && UpToDate(w.deps[k].spec, Target(w, k)) && RolledOut(w.deps[k], DesiredReplicas(Target(w, k)))
    && w.deps[k].rv < w.nextRv && w.deps[k].status.observedGeneration == w.deps[k].generation
  }

  /** Nothing to do but to move the upgrade on: no jobs, an open gate, Deployments rolled out. */
  predicate Steady(s: Sys) {
    && AtRest(s) && InPlace(s.w, s.w.cluster) && !s.w.cluster.spec.maintenance && GateOpen(s.w.cluster.spec, s.w.clock)
    && !Enabled(s.w.cluster.spec, NsRegister) && !Enabled(s.w.cluster.spec, SearchAttr)
    && forall k :: Serves(s.w, k)
  }

  lemma SteadyStays(s: Sys, t: Sys)
    requires Steady(s) && t.ctl.Idle? && Alike(s.w, t.w) && t.w.deps == s.w.deps
    ensures Steady(t)
  {
    hide RolledOut, UpToDate, MaintenanceWindow.InWindow, Target;
    forall k ensures Serves(t.w, k) {
      assert Serves(s.w, k);
      SameTarget(s.w, t.w, k);
    }
  }

  predicate Movable(p: Phase) { p != Complete && p != StartMaintenance && p != EndMaintenance }

  /** The driver's part: one call after the other until standard reconciliation begins. */
  lemma DriveOn(s: Sys) returns (acts: seq<Act>, b: Run)
    requires Steady(s) && Movable(RecordPhase(s.w.cluster))
    ensures Exec(s, acts) == Sys(s.w, Busy(b)) && b.pc == DepGet(Api, Std) && b.c == s.w.cluster && b.hash == Prepared(s.w).hash
    ensures AtRecord(b, Successor(s.w.cluster)) && Extends([], acts)
  {
    hide Exec, ConfigHash.ClusterText, Build, UpToDate, RolledOut, MaintenanceWindow.InWindow, LabelsOf;
    var t;
    acts, t := Prepare(s);
    b := t.ctl.r;
    if b.pc.m == Upg { acts, b := DriveComponent(s, acts, b, b.pc.k); }
  }

  /** The driver finds the component of its phase up to date and rolled out. */
  lemma DriveComponent(s: Sys, acts: seq<Act>, b: Run, k: Component) returns (more: seq<Act>, r: Run)
    requires Steady(s) && Exec(s, acts) == Sys(s.w, Busy(b)) && b.pc == DepGet(k, Upg) && b.c == s.w.cluster
    requires b.hash == Prepared(s.w).hash && b.upgrade.Some?
    ensures Extends(acts, more) && Exec(s, more) == Sys(s.w, Busy(r)) && r.pc == DepGet(Api, Std) && r.c == b.c && r.hash == b.hash
    ensures r.upgrade == Some(b.upgrade.value.(phase := match k case Api => PeerDBServer case Server => UI case Ui => Complete))
  {
    hide Exec, ConfigHash.ClusterText, Build, UpToDate, RolledOut, MaintenanceWindow.InWindow;
    assert Serves(s.w, k) && Service(k) in s.w.plain;
    var t;
    more, t := Then(s, acts, Call(false));
    more, t := Then(s, more, Call(false));
    more, t := Then(s, more, Call(false));
    r := t.ctl.r;
  }

  /** One undisturbed reconcile moves the upgrade to the next phase. */
  lemma CalmReconcile(s: Sys) returns (acts: seq<Act>)
    requires Steady(s) && Movable(RecordPhase(s.w.cluster))
    ensures Extends([], acts)
    ensures var t := Exec(s, acts);
            && Steady(t) && Alike(s.w, t.w) && t.w.deps == s.w.deps && RecordAt(t).Some?
            && RecordAt(t).value == Record(s.w.cluster, RecordAt(t).value.startedAt).(phase := Successor(s.w.cluster))
  {
    hide Exec, ConfigHash.ClusterText, Build, UpToDate, RolledOut, Successor, Record, RecordPhase, MaintenanceWindow.InWindow;
    var t, b;
    acts, b := DriveOn(s);
    forall k ensures Settled(s.w, b, k) && k in s.w.deps { assert Serves(s.w, k); }
    acts, t := PassStandard(s, acts, b);
    SteadyStays(s, t);
  }

  /** Undisturbed reconciles complete every upgrade. */
  lemma {:induction false} FinishUpgrade(s: Sys) returns (acts: seq<Act>)
    requires Steady(s) && Movable(RecordPhase(s.w.cluster))
    ensures Extends([], acts)
    ensures var t := Exec(s, acts);
            && Steady(t) && t.w.cluster.spec == s.w.cluster.spec && In([RecordAt(t)], 0, Complete)
            && RecordAt(t).value.to == Record(s.w.cluster, None).to
    decreases Progress.PhaseRank(RecordPhase(s.w.cluster))
  {
    hide Exec, Steady;
    acts := CalmReconcile(s);
    var t := Exec(s, acts);
    if RecordAt(t).value.phase != Complete {
      SteadyPlain(s);
      var more := FinishUpgrade(t);
      ExecConcat(s, acts, more);
      acts := acts + more;
    }
  }

  lemma SteadyPlain(s: Sys)
    requires Steady(s)
    ensures !s.w.cluster.spec.maintenance && AtRest(s)
  {
    hide Serves, GateOpen;
  }

  // ----- two records after the last edit -----

  predicate Pinned(spec: Spec) { spec.api.image.Some? && spec.server.image.Some? && spec.ui.image.Some? }

  lemma PinnedTarget(w: World, v: World, k: Component)
    requires Pinned(w.cluster.spec) && v.secret == w.secret && v.cluster.name == w.cluster.name
    requires v.cluster.spec == w.cluster.spec.(version := v.cluster.spec.version)
    ensures Target(v, k) == Target(w, k)
  {
    hide ConfigHash.ClusterText;
  }

  /** The version is edited after the reconcile has read it; the reconcile goes on with what it read. */
  lemma StaleStart(s: Sys, spec: Spec) returns (acts: seq<Act>, b: Run)
    requires AtRest(s)
    ensures Exec(s, acts) == Sys(ApplyEnv(s.w, EditSpec(spec)), Busy(b)) && b == Lifecycle(Prepared(s.w), s.w.clock)
    ensures Extends([Start, Outside(EditSpec(spec))], acts)
  {
    hide Exec, ConfigHash.ClusterText, Lifecycle;
    var t;
    ExecEmpty(s);
    acts, t := Then(s, [], Start);
    acts, t := Then(s, acts, Outside(EditSpec(spec)));
    acts, t := Then(s, acts, Call(false));
    acts, t := Then(s, acts, Call(false));
    b := t.ctl.r;
  }

  /** The first of the two records. */
  lemma StaleRecord(s: Sys, v3: string) returns (acts: seq<Act>)
    requires Steady(s) && RecordAt(s).Some? && Opens(s.w.cluster) && Pinned(s.w.cluster.spec)
    ensures Extends([Start, Outside(EditSpec(s.w.cluster.spec.(version := v3)))], acts)
    ensures var t := Exec(s, acts);
            && Steady(t) && t.w.cluster.spec == s.w.cluster.spec.(version := v3) && In([RecordAt(t)], 0, Config)
            && RecordAt(t).value.from == RecordAt(s).value.to && RecordAt(t).value.to == s.w.cluster.spec.version
  {
    hide Exec, ConfigHash.ClusterText, Build, UpToDate, RolledOut, MaintenanceWindow.InWindow, Apply;
    var t, b;
    acts, b := StaleStart(s, s.w.cluster.spec.(version := v3));
    forall k ensures Settled(s.w, b, k) && k in s.w.deps { assert Serves(s.w, k); }
    acts, t := PassStandard(s, acts, b);
    forall k ensures Serves(t.w, k) {
      assert Serves(s.w, k);
      PinnedTarget(s.w, t.w, k);
    }
  }

  /**
   The bound of FewRecordsOpen is tight: a reconcile that read v2 is in flight when the version is edited for the
   last time, to v3; it opens a record to v2, and when that is complete a second record to v3 opens.
   */
  lemma TwoRecordsAfterTheLastEdit(s: Sys, v3: string) returns (first: seq<Act>, more: seq<Act>)
    requires Steady(s) && RecordAt(s).Some? && Opens(s.w.cluster) && Pinned(s.w.cluster.spec)
    requires v3 != s.w.cluster.spec.version
    ensures Extends([Start, Outside(EditSpec(s.w.cluster.spec.(version := v3)))], first) && Extends([], more)
    ensures var t := Exec(s, first);
            && t.w.cluster.spec.version == v3 && RecordAt(t).Some?
            && RecordAt(t).value.from == RecordAt(s).value.to && RecordAt(t).value.to == s.w.cluster.spec.version
    ensures var n := Exec(Exec(s, first), more);
            && n.w.cluster.spec.version == v3 && RecordAt(n).Some?
            && RecordAt(n).value.from == s.w.cluster.spec.version && RecordAt(n).value.to == v3
  {
    hide Exec, Steady;
    first := StaleRecord(s, v3);
    var t := Exec(s, first);
    more := FinishUpgrade(t);
    var last := CalmReconcile(Exec(t, more));
    ExecConcat(t, more, last);
    more := more + last;
  }

  // ----- the same from a fresh cluster -----

  /** The namespace job of version v, if asked for, is not there yet or not over. */
  predicate Pending(w: World, v: string) {
    Enabled(w.cluster.spec, NsRegister) && KeyOf(NsRegister, v) in w.jobs ==> w.jobs[KeyOf(NsRegister, v)] == Running
  }

  /** Standard reconciliation has a namespace job to look at, at most, and Deployments to create, at most. */
  predicate Early(s: Sys) {
    && AtRest(s) && InPlace(s.w, s.w.cluster) && !s.w.cluster.spec.maintenance && GateOpen(s.w.cluster.spec, s.w.clock)
    && !Enabled(s.w.cluster.spec, SearchAttr)
    && Pending(s.w, s.w.cluster.spec.version)
    && forall k :: k in s.w.deps ==> UpToDate(s.w.deps[k].spec, Target(s.w, k))
  }

  lemma EarlyStart(s: Sys) returns (acts: seq<Act>, t: Sys, b: Run)
    requires Early(s)
    requires RecordPhase(s.w.cluster) == Complete || RecordPhase(s.w.cluster) == Waiting || RecordPhase(s.w.cluster) == Config
    ensures t == Exec(s, acts) && t.ctl == Busy(b) && b.pc == DepGet(Api, Std) && b.c == s.w.cluster && b.hash == Prepared(s.w).hash
    ensures AtRecord(b, Successor(s.w.cluster)) && Extends([], acts)
    ensures var key := KeyOf(NsRegister, s.w.cluster.spec.version);
            t.w == s.w.(jobs := if Enabled(s.w.cluster.spec, NsRegister) then s.w.jobs[key := Running] else s.w.jobs)
  {
    hide Exec, ConfigHash.ClusterText, Build, UpToDate, MaintenanceWindow.InWindow, LabelsOf;
    acts, t := Prepare(s);
    b := t.ctl.r;
    if Enabled(s.w.cluster.spec, NsRegister) { acts, t, b := PassJob(s, acts, b); }
  }

  /** Standard reconciliation sees to the namespace job, the only one. */
  lemma PassJob(s: Sys, acts: seq<Act>, b: Run) returns (more: seq<Act>, t: Sys, r: Run)
    requires Exec(s, acts) == Sys(s.w, Busy(b)) && b.pc == JobGet(NsRegister, Std) && !Enabled(b.c.spec, SearchAttr)
    requires KeyFor(b, NsRegister) in s.w.jobs ==> s.w.jobs[KeyFor(b, NsRegister)] == Running
    ensures Extends(acts, more) && t == Exec(s, more) == Sys(s.w.(jobs := s.w.jobs[KeyFor(b, NsRegister) := Running]), Busy(r))
    ensures r.pc == DepGet(Api, Std) && SameRun(b, r)
  {
    hide Exec, Sanitize;
    more, t := Then(s, acts, Call(false));
    if KeyFor(b, NsRegister) !in s.w.jobs { more, t := Then(s, more, Call(false)); }
    r := t.ctl.r;
    assert t.w.jobs == s.w.jobs[KeyFor(b, NsRegister) := Running];
  }

  /** A reconcile before the rollout: the jobs and Deployments that are missing are created. */
  lemma EarlyReconcile(s: Sys) returns (acts: seq<Act>, t: Sys)
    requires Early(s)
    requires RecordPhase(s.w.cluster) == Complete || RecordPhase(s.w.cluster) == Waiting || RecordPhase(s.w.cluster) == Config
    ensures t == Exec(s, acts) && Extends([], acts) && Early(t) && Alike(s.w, t.w) && RecordAt(t).Some?
    ensures RecordAt(t).value == Record(s.w.cluster, RecordAt(t).value.startedAt).(phase := Successor(s.w.cluster))
    ensures var key := KeyOf(NsRegister, s.w.cluster.spec.version);
            t.w.jobs == if Enabled(s.w.cluster.spec, NsRegister) then s.w.jobs[key := Running] else s.w.jobs
    ensures forall k :: k in t.w.deps
    ensures (forall k :: k in s.w.deps) ==> t.w.deps == s.w.deps
  {
    hide Exec, ConfigHash.ClusterText, Build, UpToDate, Successor, Record, RecordPhase, MaintenanceWindow.InWindow;
    var b, mid;
    acts, mid, b := EarlyStart(s);
    assert forall k :: Settled(mid.w, b, k);
    var early := acts;
    acts, t := PassStandard(s, acts, b);
    forall k ensures k in t.w.deps && UpToDate(t.w.deps[k].spec, Target(t.w, k)) {
      assert Current(t.w, b, k);
      SameTarget(s.w, t.w, k);
    }
  }

  /** The Deployment controller reports that k is rolled out. */
  lemma RollOut(s: Sys, acts: seq<Act>, k: Component) returns (more: seq<Act>, t: Sys)
    requires var w := Exec(s, acts).w; k in w.deps && UpToDate(w.deps[k].spec, Target(w, k))
    ensures t == Exec(s, more) && t.ctl == Exec(s, acts).ctl && Alike(Exec(s, acts).w, t.w) && t.w.jobs == Exec(s, acts).w.jobs
    ensures var w := Exec(s, acts).w;
            t.w.cluster == w.cluster && Serves(t.w, k) && forall o :: o != k ==> SameDeployment(w, t.w, o)
  {
    hide Exec, Target, UpToDate;
    var w := Exec(s, acts).w;
    var n := DesiredReplicas(Target(w, k));
    more, t := Then(s, acts, Outside(RolloutAdvances(k, Rollout(w.deps[k].generation, n, n, n, n))));
    SameTarget(w, t.w, k);
  }

  lemma StillServes(w: World, v: World, k: Component)
    requires Serves(w, k) && Alike(w, v) && SameDeployment(w, v, k)
    ensures Serves(v, k)
  {
    hide Target, UpToDate, RolledOut;
    SameTarget(w, v, k);
  }

  /** All Deployments are rolled out; nothing else happens. */
  lemma RollOutAll(s: Sys) returns (acts: seq<Act>, t: Sys)
    requires Early(s) && !Enabled(s.w.cluster.spec, NsRegister) && forall k :: k in s.w.deps
    ensures t == Exec(s, acts) && Steady(t) && Alike(s.w, t.w) && t.w.cluster == s.w.cluster
  {
    hide Exec, Target, UpToDate, RolledOut, MaintenanceWindow.InWindow, Serves;
    ExecEmpty(s);
    acts, t := RollOut(s, [], Api);
    var w1 := t.w;
    assert SameDeployment(s.w, w1, Server) && SameDeployment(s.w, w1, Ui);
    SameTarget(s.w, w1, Server);
    acts, t := RollOut(s, acts, Server);
    var w2 := t.w;
    assert SameDeployment(w1, w2, Api) && SameDeployment(w1, w2, Ui);
    StillServes(w1, w2, Api);
    SameTarget(s.w, w2, Ui);
    acts, t := RollOut(s, acts, Ui);
    assert SameDeployment(w2, t.w, Api) && SameDeployment(w2, t.w, Server);
    StillServes(w2, t.w, Api);
    StillServes(w2, t.w, Server);
    forall k ensures Serves(t.w, k) {
      match k { case Api => case Server => case Ui => }
    }
  }

  /** With pinned images a new version changes no Deployment. */
  lemma EditVersion(s: Sys, v: string) returns (t: Sys)
    requires Early(s) && Pinned(s.w.cluster.spec) && Pending(s.w, v)
    ensures t == Exec(s, [Outside(EditSpec(s.w.cluster.spec.(version := v)))])
    ensures t.w == ApplyEnv(s.w, EditSpec(s.w.cluster.spec.(version := v))) && Early(t) && (Steady(s) ==> Steady(t))
  {
    hide Exec, Target, UpToDate, RolledOut, MaintenanceWindow.InWindow;
    var acts;
    ExecEmpty(s);
    acts, t := Then(s, [], Outside(EditSpec(s.w.cluster.spec.(version := v))));
    assert acts == [Outside(EditSpec(s.w.cluster.spec.(version := v)))];
    forall k ensures Target(t.w, k) == Target(s.w, k) { PinnedTarget(s.w, t.w, k); }
    if Steady(s) {
      forall k ensures Serves(t.w, k) { assert Serves(s.w, k); }
    }
  }

  lemma SteadyIsEarly(s: Sys, v: string)
    requires Steady(s)
    ensures Early(s) && Pending(s.w, v)
  {
    hide Target, UpToDate, RolledOut, MaintenanceWindow.InWindow;
    forall k ensures k in s.w.deps && UpToDate(s.w.deps[k].spec, Target(s.w, k)) { assert Serves(s.w, k); }
  }

  lemma FreshDemo(ns: bool) returns (s: Sys)
    ensures s == Sys(DemoWorld(Pin("v1.0", ns), ""), Idle) && Initial(s) && Early(s) && s.w.jobs == map[] && Pinned(s.w.cluster.spec)
  {
    s := Sys(DemoWorld(Pin("v1.0", ns), ""), Idle);
    forall k ensures Service(k) in s.w.plain && s.w.plain[Service(k)] == Text(SpecOf(s.w.cluster.spec, k).service) {
      match k { case Api => case Server => case Ui => }
    }
  }

  function Pin(version: string, ns: bool): Spec { Demo(version, false, ns, Some("pinned")) }

  /** A fresh cluster comes to rest at its first version, and then a second version is asked for. */
  lemma FreshSteady() returns (s: Sys, acts: seq<Act>, t: Sys)
    ensures Initial(s) && t == Exec(s, acts) && Steady(t) && t.w.cluster.spec == Pin("v2.0", false) && t.w.secret == Some("1")
    ensures RecordAt(t).Some? && RecordAt(t).value.phase == Complete && RecordAt(t).value.to == "v1.0" && Opens(t.w.cluster)
  {
    hide Exec, Steady, Early, Target;
    s := FreshDemo(false);
    var more, last;
    acts, t := EarlyReconcile(s);
    more, t := RollOutAll(t);
    ExecConcat(s, acts, more);
    acts := acts + more;
    SteadyIsEarly(t, "v2.0");
    last := EditVersion(t, "v2.0");
    ExecConcat(s, acts, [Outside(EditSpec(t.w.cluster.spec.(version := "v2.0")))]);
    acts, t := acts + [Outside(EditSpec(t.w.cluster.spec.(version := "v2.0")))], last;
  }

  /** TwoRecordsAfterTheLastEdit happens to a fresh cluster. */
  lemma FreshRunOpensTwoRecords() returns (s: Sys, acts: seq<Act>, first: seq<Act>, more: seq<Act>)
    ensures Initial(s) && Exec(s, acts).ctl.Idle? && Exec(s, acts).w.cluster.spec.version == "v2.0"
    ensures Extends([Start, Outside(EditSpec(Pin("v3.0", false)))], first) && Extends([], more)
    ensures var t := RecordAt(Exec(s, acts + first)); t.Some? && t.value.from == "v1.0" && t.value.to == "v2.0"
    ensures var n := RecordAt(Exec(s, acts + first + more)); n.Some? && n.value.from == "v2.0" && n.value.to == "v3.0"
  {
    hide Exec, Steady;
    var t;
    s, acts, t := FreshSteady();
    SteadyPlain(t);
    first, more := TwoRecordsAfterTheLastEdit(t, "v3.0");
    ExecConcat(s, acts, first);
    ExecConcat(s, acts + first, more);
  }

  /** RaceBlocks happens to a fresh cluster. */
  lemma FreshRunBlocks() returns (s: Sys, acts: seq<Act>)
    ensures Initial(s) && In([RecordAt(Exec(s, acts))], 0, Blocked)
  {
    hide Exec, Early, Sanitize;
    var t, more, n;
    s, acts, t := FreshJobVersion();
    EarlyIsAtRest(t);
    more, n := EarlyReconcile(t);
    acts, t := Join(s, acts, t, more);
    EarlyIsAtRest(t);
    more, n := EarlyReconcile(t);
    acts, t := Join(s, acts, t, more);
    EarlyIsAtRest(t);
    more := RaceBlocks(t);
    acts, t := Join(s, acts, t, more);
  }

  lemma EarlyIsAtRest(s: Sys)
    requires Early(s)
    ensures AtRest(s) && !s.w.cluster.spec.maintenance
  {
    hide Target, UpToDate, MaintenanceWindow.InWindow;
  }

  /** A fresh cluster with the namespace job has run its first version and is asked for a second. */
  lemma FreshJobVersion() returns (s: Sys, acts: seq<Act>, t: Sys)
    ensures Initial(s) && t == Exec(s, acts) && Early(t) && t.w.cluster.spec == Pin("v2.0", true)
    ensures In([RecordAt(t)], 0, Complete) && RecordAt(t).value.to == "v1.0"
  {
    hide Exec, Early, Target;
    s := FreshDemo(true);
    acts, t := EarlyReconcile(s);
    assert Sanitize("v1.0")[1] != Sanitize("v2.0")[1];
    var edited := EditVersion(t, "v2.0");
    acts, t := Join(s, acts, t, [Outside(EditSpec(t.w.cluster.spec.(version := "v2.0")))]);
  }

  lemma Join(s: Sys, acts: seq<Act>, t: Sys, more: seq<Act>) returns (all: seq<Act>, n: Sys)
    requires t == Exec(s, acts)
    ensures all == acts + more && n == Exec(s, all) == Exec(t, more)
  {
    all, n := acts + more, Exec(t, more);
    ExecConcat(s, acts, more);
  }

  /** A Deployment is up to date for one config hash at most. */
  lemma OneHash(live: DeploymentSpec, c: Cluster, k: Component, h: string, g: string)
    requires UpToDate(live, Build(c, k, h)) && UpToDate(live, Build(c, k, g))
    ensures h == g
  {
    assert Merge(live, Build(c, k, h)).template.annotations[CONFIG_HASH] == h;
    assert Merge(live, Build(c, k, g)).template.annotations[CONFIG_HASH] == g;
  }

  /** ConflictLeavesOldTemplate happens to a fresh cluster whose secret is rotated in FlowAPI. */
  lemma FreshRunLeavesOldTemplate() returns (s: Sys, acts: seq<Act>)
    ensures Initial(s)
    ensures var t := Exec(s, acts);
            && t.ctl.Busy? && In([t.ctl.r.upgrade], 0, PeerDBServer) && t.ctl.r.h.conflicts == {Lost(Api, Upg)}
            && Api in t.w.deps && !Current(t.w, t.ctl.r, Api)
  {
    hide Exec, Steady, Target;
    var t, more;
    s, acts, t := FreshSteady();
    SteadyPlain(t);
    more := CalmReconcile(t);
    acts, t := Join(s, acts, t, more);
    SteadyPlain(t);
    more := CalmReconcile(t);
    acts, t := Join(s, acts, t, more);
    SteadyPlain(t);
    more := CalmReconcile(t);
    acts, t := Join(s, acts, t, more);
    var n;
    more, n := RotateSecret(t);
    acts, t := Join(s, acts, t, more);
    more := ConflictLeavesOldTemplate(t);
    acts, t := Join(s, acts, t, more);
  }

  /** After the secret is rotated, a Deployment is still rolled out but no longer up to date. */
  lemma RotateSecret(s: Sys) returns (acts: seq<Act>, t: Sys)
    requires Steady(s) && s.w.cluster.spec == Pin("v2.0", false) && s.w.secret == Some("1")
    ensures t == Exec(s, acts) && AtRest(t) && InPlace(t.w, t.w.cluster) && t.w.cluster == s.w.cluster
    ensures Api in t.w.deps && t.w.deps[Api].rv < t.w.nextRv
    ensures var d, want := t.w.deps[Api], Build(t.w.cluster, Api, Prepared(t.w).hash);
            !UpToDate(d.spec, want) && RolledOut(d, DesiredReplicas(want)) && d.status.observedGeneration == d.generation
  {
    hide Exec, MaintenanceWindow.InWindow, ConfigHash.ClusterText, UpToDate;
    ExecEmpty(s);
    assert Serves(s.w, Api);
    acts, t := Then(s, [], Outside(SetSecret(Some("2"))));
    var h, g := ConfigHash.ClusterText(map[], "catalog", "1"), ConfigHash.ClusterText(map[], "catalog", "2");
    RotatedHash();
    if UpToDate(t.w.deps[Api].spec, Build(t.w.cluster, Api, g)) { OneHash(t.w.deps[Api].spec, t.w.cluster, Api, h, g); }
  }

  lemma RotatedHash()
    ensures ConfigHash.ClusterText(map[], "catalog", "1") != ConfigHash.ClusterText(map[], "catalog", "2")
  {
    hide ConfigHash.Text;
    var a: map<string, string> := map["catalog" := "1"];
    var b: map<string, string> := map["catalog" := "2"];
    assert a["catalog"] != b["catalog"];
    ConfigHash.TextInjective(map[], a, map[], b);
  }
}
