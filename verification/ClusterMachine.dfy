/**
 The cluster controller as a state machine. One transition is one API call of Reconcile together with the
 local computation up to the next call, so other parties may act, and the operator may crash, between any
 two calls. The name of each program point says which call comes next.
 */
module ClusterMachine {
  import opened Basics
  import opened JobNames
  import opened LiveObject
  import opened MaintenanceWindow
  import opened Model
  import CH = ConfigHash

  /** Upg: called from reconcileUpgrade; Std: called from standard reconciliation. */
  datatype Mode = Upg | Std

  datatype Pc =
    | SecretGet                                        // reconcileDependencies
    | EarlyStatus                                      // Status().Update of the working copy
    | PlainGet(o: Plain, m: Mode) | PlainPut(o: Plain, m: Mode)
    | JobGet(f: Family, m: Mode) | JobPost(f: Family, m: Mode) | JobDelete(f: Family, m: Mode)
    | FailedGet(f: Family)                             // isJobFailed
    | MaintGet(f: Family) | MaintPost(f: Family) | MaintDelete(f: Family)
    | DepGet(k: Component, m: Mode) | DepPost(k: Component, m: Mode) | DepPut(k: Component, m: Mode, read: Deployment)
    | RolloutGet(k: Component)                         // the read-back of upgradePhaseComponent
    | FencedGet(k: Component)                          // health check while a backup runs
    | StatusGet(last: bool) | StatusPut(last: bool, rv: nat)   // updateStatus

  datatype Written = WroteJob(key: JobKey) | WroteDep(k: Component) | WrotePlain(o: Plain)

  /** An update of k's Deployment, by the driver or in standard reconciliation, that met a conflict. */
  datatype Lost = Lost(k: Component, m: Mode)

  /** What a reconcile has done so far; recorded for the theorems, never read by the operator. */
  datatype History = History(
    writes: set<Written>, conflicts: set<Lost>, seen: set<JobKey>, gate: Option<int>, waited: bool, worked: bool)

  const NO_HISTORY := History({}, {}, {}, None, false, false)

  /**
   A reconcile in flight: the cluster `c` as it was read, the status worked on (conditions, upgrade record,
   observed generation), and the local variables configHash, initReady and componentsReady.
   */
  datatype Run = Run(
    pc: Pc, c: Cluster, conds: Conditions, upgrade: Option<Upgrade>, observed: nat,
    hash: string, initReady: bool, compReady: bool, h: History)

  datatype Ctl = Idle | Busy(r: Run)

  /** The API server and the one worker of the cluster controller. */
  datatype Sys = Sys(w: World, ctl: Ctl)

  // ----- local computation -----

  function StatusOf(b: Run): Status { Status(b.observed, b.conds, b.upgrade) }

  function SetPhase(b: Run, p: Phase): Run {
    b.(upgrade := if b.upgrade.Some? then Some(b.upgrade.value.(phase := p)) else None)
  }

  function AsCond(x: bool): Cond { if x then Yes else No }

  /** A write; creating or deleting a job counts as work. */
  function Note(b: Run, x: Written): Run {
    b.(h := b.h.(writes := b.h.writes + {x}, worked := b.h.worked || x.WroteJob?))
  }

  /** An unfinished job or rollout was found. */
  function Wait(b: Run): Run { b.(h := b.h.(waited := true)) }

  /** The call is a read. */
  predicate Reads(pc: Pc) {
    match pc
    case PlainPut(_, _) => false
    case JobPost(_, _) => false
    case JobDelete(_, _) => false
    case MaintPost(_) => false
    case MaintDelete(_) => false
    case DepPost(_, _) => false
    case DepPut(_, _, _) => false
    case StatusPut(_, _) => false
    case EarlyStatus => false
    case _ => true
  }

  /** The record is the same but for its phase. */
  predicate Kept(u: Option<Upgrade>, v: Option<Upgrade>) {
    u.Some? == v.Some? && (u.Some? ==> v.value == u.value.(phase := v.value.phase))
  }

  /** Local computation between two calls: what was read, done and seen stays, and the next call is a read. */
  predicate Quiet(b: Run, r: Run) {
    r.c == b.c && r.hash == b.hash && Reads(r.pc) && r.h == b.h && Kept(b.upgrade, r.upgrade)
  }

  /** The same, but the gate may have been found open. */
  predicate QuietAt(b: Run, r: Run, now: int) {
    && r.c == b.c && r.hash == b.hash && Reads(r.pc) && (r.h == b.h || r.h == b.h.(gate := Some(now)))
    && (Kept(b.upgrade, r.upgrade) || Kept(Some(CurrentRecord(b.c)), r.upgrade) || (r.upgrade.Some? && r.upgrade.value.startedAt == Some(now)))
  }

  /** A pass over jobs or components begins, or the reconcile waits: no component has been dealt with yet. */
  predicate NewPass(pc: Pc) {
    pc.JobGet? || pc.FailedGet? || pc.MaintGet? || pc == FencedGet(Api) || pc == StatusGet(false) || pc == DepGet(Api, Std)
  }

  /** Or the driver turns to the Deployment of its phase. */
  predicate NewPassOrDeployment(pc: Pc) { NewPass(pc) || (pc.DepGet? && pc.m == Upg) }

  /** A positive RequeueAfter: persist the status and end the reconcile here. */
  function Stop(b: Run): Run {
    b.(pc := StatusGet(false), observed := b.c.generation)
  }

  /** reconcileInitJobs visits the namespace job, then the search-attribute job, if enabled. */
  function FirstJob(spec: Spec): Option<Family> {
    if Enabled(spec, NsRegister) then Some(NsRegister)
    else if Enabled(spec, SearchAttr) then Some(SearchAttr)
    else None
  }

  function NextJob(spec: Spec, f: Family): Option<Family> {
    if f == NsRegister && Enabled(spec, SearchAttr) then Some(SearchAttr) else None
  }

  function KeyFor(b: Run, f: Family): JobKey { KeyOf(f, b.c.spec.version) }

  /** The end of reconcileInitJobsAndStatus. */
  function StdJobsDone(b: Run): Run {
    b.(conds := b.conds.(initialized := AsCond(b.initReady)), pc := DepGet(Api, Std))
  }

  function StdPc(c: Cluster): Pc {
    if Fenced(c) then FencedGet(Api)
    else match FirstJob(c.spec)
         case Some(f) => JobGet(f, Std)
         case None => DepGet(Api, Std)
  }

  /** Standard reconciliation; while a backup runs no job is looked at and init counts as ready. */
  function StdStart(b: Run): (r: Run)
    ensures Quiet(b, r) && NewPass(r.pc)
  {
    b.(pc := StdPc(b.c), initReady := true, compReady := true,
       conds := if StdPc(b.c).JobGet? then b.conds else b.conds.(initialized := Yes))
  }

  /** The end of upgradePhaseInitJobs. */
  function FailuresDone(b: Run, failed: bool): (r: Run)
    ensures Quiet(b, r) && NewPass(r.pc)
  {
    var b1 := b.(conds := b.conds.(initialized := No));
    Stop(if failed then SetPhase(b1, Blocked) else b1)
  }

  function UpgJobsDone(b: Run): (r: Run)
    ensures Quiet(b, r) && NewPass(r.pc)
  {
    if b.initReady then StdStart(SetPhase(b.(conds := b.conds.(initialized := Yes)), FlowAPI))
    else match FirstJob(b.c.spec)
         case Some(f) => b.(pc := FailedGet(f))
         case None => FailuresDone(b, false)
  }

  function UpgJobsStart(b: Run): (r: Run)
    ensures Quiet(b, r) && NewPass(r.pc)
  {
    var b1 := b.(initReady := true);
    match FirstJob(b.c.spec)
    case Some(f) => b1.(pc := JobGet(f, Upg))
    case None => UpgJobsDone(b1)
  }

  function AfterJob(b: Run, f: Family, m: Mode): (r: Run)
    ensures Quiet(b, r) && NewPass(r.pc)
  {
    match NextJob(b.c.spec, f)
    case Some(g) => b.(pc := JobGet(g, m))
    case None => if m == Std then StdJobsDone(b) else UpgJobsDone(b)
  }

  /** upgradePhaseWaiting: policy, window, dependency health, then on to maintenance or configuration. */
  function WaitingPhase(b: Run, now: int): (r: Run)
    ensures QuietAt(b, r, now) && NewPass(r.pc)
  {
    if b.c.spec.policy == Some(Manual) then Stop(b)
    else if b.c.spec.window.Some? && !InWindow(b.c.spec.window.value, now) then Stop(b)
    else if b.conds.catalogReady == No || b.conds.temporalReady == No then
      Stop(SetPhase(b.(conds := b.conds.(degraded := Yes)), Blocked))
    else
      StdStart(SetPhase(b, if b.c.spec.maintenance then StartMaintenance else Config).(h := b.h.(gate := Some(now))))
  }

  /** upgradePhaseBlocked */
  function BlockedPhase(b: Run): (r: Run)
    ensures Quiet(b, r) && NewPass(r.pc)
  {
    if b.conds.catalogReady != No && b.conds.temporalReady != No then
      StdStart(SetPhase(b.(conds := b.conds.(degraded := No)), Waiting))
    else
      Stop(b.(conds := b.conds.(degraded := Yes)))
  }

  function ComponentPhase(k: Component): Phase {
    match k case Api => FlowAPI case Server => PeerDBServer case Ui => UI
  }

  /** reconcileUpgrade; `now` is the clock isInMaintenanceWindow reads. */
  function Drive(b: Run, now: int): (r: Run)
    ensures QuietAt(b, r, now) && NewPassOrDeployment(r.pc)
  {
    var b1 := b.(conds := b.conds.(upgradeInProgress := Yes));
    if b1.upgrade.None? then StdStart(b1)
    else
      match b1.upgrade.value.phase
      case Waiting => WaitingPhase(b1, now)
      case Blocked => BlockedPhase(b1)
      case StartMaintenance => b1.(pc := MaintGet(MaintenanceStart))
      case Config => StdStart(SetPhase(b1, InitJobs))
      case InitJobs => UpgJobsStart(b1)
      case FlowAPI => b1.(pc := DepGet(Api, Upg))
      case PeerDBServer => b1.(pc := DepGet(Server, Upg))
      case UI => b1.(pc := DepGet(Ui, Upg))
      case EndMaintenance => b1.(pc := MaintGet(MaintenanceEnd))
      case Complete => StdStart(b1)
  }

  /** The record reconcileUpgradeLifecycle works with: nil becomes a completed one. */
  function CurrentRecord(c: Cluster): Upgrade {
    if c.status.upgrade.Some? then c.status.upgrade.value else Upgrade("", c.spec.version, Complete, None)
  }

  predicate Opens(c: Cluster) {
    CurrentRecord(c).phase == Complete && CurrentRecord(c).to != c.spec.version
  }

  /** reconcileUpgradeLifecycle */
  function Lifecycle(b: Run, now: int): (r: Run)
    ensures QuietAt(b, r, now) && NewPassOrDeployment(r.pc)
  {
    var u := CurrentRecord(b.c);
    if Fenced(b.c) then StdStart(b.(upgrade := Some(u)))
    else if Opens(b.c) then Drive(b.(upgrade := Some(Upgrade(u.to, b.c.spec.version, Waiting, Some(now)))), now)
    else if u.phase == Complete then StdStart(b.(upgrade := Some(u)))
    else Drive(b.(upgrade := Some(u)), now)
  }

  /** setFinalConditions */
  function Final(b: Run): (r: Run)
    ensures Quiet(b, r)
  {
    var u := b.upgrade;
    var active := u.Some? && u.value.phase != Complete;
    var b1 := b.(conds := b.conds.(
      componentsReady := AsCond(b.compReady),
      ready := AsCond(b.initReady && b.compReady),
      backupSafe := AsCond(!Fenced(b.c) && !active && b.compReady),
      reconciling := No));
    Stop(b1).(pc := StatusGet(true))
  }

  function NextComponent(k: Component): Option<Component> {
    match k case Api => Some(Server) case Server => Some(Ui) case Ui => None
  }

  /** After a component's Service: the rollout check of the upgrade, or the next component. */
  function AfterService(b: Run, k: Component, m: Mode): (r: Run)
    ensures Quiet(b, r)
  {
    if m == Upg then b.(pc := RolloutGet(k))
    else match NextComponent(k)
         case Some(n) => b.(pc := DepGet(n, Std))
         case None => Final(b)
  }

  function AfterFencedGet(b: Run, k: Component): (r: Run)
    ensures Quiet(b, r)
  {
    match NextComponent(k)
    case Some(n) => b.(pc := FencedGet(n))
    case None => Final(b)
  }

  function AfterPlain(b: Run, o: Plain, m: Mode, now: int): (r: Run)
    ensures QuietAt(b, r, now)
  {
    match o
    case ServiceAccount => b.(pc := PlainGet(ConfigMap, m))
    case ConfigMap => Lifecycle(b, now)
    case Service(k) => AfterService(b, k, m)
  }

  /** upgradePhaseComponent once the Deployment is rolled out. */
  function RolledOutPhase(b: Run, k: Component): (r: Run)
    ensures Quiet(b, r) && NewPass(r.pc)
  {
    match k
    case Api => StdStart(SetPhase(b, PeerDBServer))
    case Server => StdStart(SetPhase(b, UI))
    case Ui =>
      if b.c.spec.maintenance then StdStart(SetPhase(b, EndMaintenance))
      else StdStart(SetPhase(b.(conds := b.conds.(upgradeInProgress := No)), Complete))
  }

  /** upgradePhaseMaintenanceJob on a completed job. */
  function MaintenanceDone(b: Run, f: Family): (r: Run)
    ensures Quiet(b.(h := b.h.(seen := b.h.seen + {KeyFor(b, f)})), r) && NewPass(r.pc)
  {
    var b1 := b.(h := b.h.(seen := b.h.seen + {KeyFor(b, f)}));
    if f == MaintenanceEnd then
      StdStart(SetPhase(b1.(conds := b1.conds.(maintenanceMode := No, upgradeInProgress := No)), Complete))
    else
      StdStart(SetPhase(b1.(conds := b1.conds.(maintenanceMode := Yes)), Config))
  }

  // ----- the API calls -----

  /** Reconcile begins: the cluster is read, the Reconciling condition set, the pause checked. */
  function Begin(w: World): Run {
    var c := w.cluster;
    var b := Run(SecretGet, c, c.status.conditions.(reconciling := Yes), c.status.upgrade, c.status.observedGeneration,
                 "", true, true, NO_HISTORY);
    if c.spec.paused then Stop(b.(conds := b.conds.(ready := No))).(pc := EarlyStatus) else b
  }

  function Next(w: World, b: Run): Sys { Sys(w, Busy(b)) }

  function Bump(w: World): World { w.(nextRv := w.nextRv + 1) }

  function AfterSecret(b: Run, secret: Option<string>): Run {
    if secret.None? then
      Stop(b.(conds := b.conds.(catalogReady := No, ready := No))).(pc := EarlyStatus)
    else
      b.(
        conds := b.conds.(catalogReady := Yes, temporalReady := Yes),
        hash := CH.ClusterText(b.c.spec.config, b.c.spec.secretName, secret.value),
        pc := if DesiredPlain(b.c, ServiceAccount).Some? then PlainGet(ServiceAccount, Std) else PlainGet(ConfigMap, Std))
  }

  function WriteStatus(w: World, s: Status): World {
    Bump(w.(cluster := w.cluster.(status := s, rv := w.nextRv)))
  }

  function PlainGetStep(w: World, b: Run, o: Plain, m: Mode): Sys {
    var want := DesiredPlain(b.c, o);
    if want.None? || (o in w.plain && w.plain[o] == want.value) then Next(w, AfterPlain(b, o, m, w.clock))
    else Next(w, b.(pc := PlainPut(o, m)))
  }

  function PlainPutStep(w: World, b: Run, o: Plain, m: Mode): Sys {
    var want := DesiredPlain(b.c, o);
    if want.None? then Sys(w, Idle)
    else Next(w.(plain := w.plain[o := want.value]), AfterPlain(Note(b, WrotePlain(o)), o, m, w.clock))
  }

  /** reconcileJob */
  function JobGetStep(w: World, b: Run, f: Family, m: Mode): Sys {
    var key := KeyFor(b, f);
    if key !in w.jobs then Next(w, b.(initReady := false, pc := JobPost(f, m)))
    else match w.jobs[key]
         case Succeeded => Next(w, AfterJob(b.(h := b.h.(seen := b.h.seen + {key})), f, m))
         case Failed => Next(w, b.(pc := JobDelete(f, m)))
         case Running => Next(w, AfterJob(Wait(b.(initReady := false)), f, m))
  }

  function JobPostStep(w: World, b: Run, f: Family, m: Mode): Sys {
    var key := KeyFor(b, f);
    if key in w.jobs then Sys(w, Idle)
    else Next(w.(jobs := w.jobs[key := Running]), AfterJob(Note(b, WroteJob(key)), f, m))
  }

  function JobDeleteStep(w: World, b: Run, f: Family, m: Mode): Sys {
    var key := KeyFor(b, f);
    Next(w.(jobs := w.jobs - {key}), AfterJob(Note(b.(initReady := false), WroteJob(key)), f, m))
  }

  /** isJobFailed; an error other than NotFound is dropped by the caller and reads as "not failed". */
  function FailedGetStep(w: World, b: Run, f: Family, fails: bool): Sys {
    var key := KeyFor(b, f);
    if !fails && key in w.jobs && w.jobs[key] == Failed then Next(w, FailuresDone(b, true))
    else match NextJob(b.c.spec, f)
         case Some(g) => Next(w, b.(pc := FailedGet(g)))
         case None => Next(w, FailuresDone(b, false))
  }

  /** upgradePhaseMaintenanceJob */
  function MaintGetStep(w: World, b: Run, f: Family): Sys {
    var key := KeyFor(b, f);
    if key !in w.jobs then Next(w, b.(conds := b.conds.(maintenanceMode := Yes), pc := MaintPost(f)))
    else match w.jobs[key]
         case Succeeded => Next(w, MaintenanceDone(b, f))
         case Failed => Next(w, b.(conds := b.conds.(degraded := Yes), pc := MaintDelete(f)))
         case Running => Next(w, Stop(Wait(b)))
  }

  function MaintPostStep(w: World, b: Run, f: Family): Sys {
    var key := KeyFor(b, f);
    if key in w.jobs then Sys(w, Idle)
    else Next(w.(jobs := w.jobs[key := Running]), Stop(Note(b, WroteJob(key))))
  }

  function MaintDeleteStep(w: World, b: Run, f: Family): Sys {
    var key := KeyFor(b, f);
    Next(w.(jobs := w.jobs - {key}), Stop(Note(b, WroteJob(key))))
  }

  /** reconcileDeployment */
  function DepGetStep(w: World, b: Run, k: Component, m: Mode): Sys {
    if k !in w.deps then Next(w, b.(compReady := false, pc := DepPost(k, m)))
    else
      var d := w.deps[k];
      var b1 := b.(compReady := b.compReady && d.status.ready >= d.status.replicas);
      if UpToDate(d.spec, Build(b.c, k, b.hash)) then Next(w, b1.(pc := PlainGet(Service(k), m)))
      else Next(w, b1.(pc := DepPut(k, m, d)))
  }

  function DepPostStep(w: World, b: Run, k: Component, m: Mode): Sys {
    if k in w.deps then Sys(w, Idle)
    else
      var d := Deployment(LabelsOf(b.c.name, LabelName(k)), Build(b.c, k, b.hash), 1, w.nextRv, Rollout(0, 0, 0, 0, 0));
      Next(Bump(w.(deps := w.deps[k := d])), Note(b, WroteDep(k)).(pc := PlainGet(Service(k), m)))
  }

  /** The version-checked update; a conflict is swallowed and the reconcile goes on. */
  function DepPutStep(w: World, b: Run, k: Component, m: Mode, read: Deployment): Sys {
    if k !in w.deps then Sys(w, Idle)
    else if w.deps[k].rv != read.rv then
      Next(w, b.(h := b.h.(conflicts := b.h.conflicts + {Lost(k, m)}), pc := PlainGet(Service(k), m)))
    else
      var live := w.deps[k];
      var d := live.(labels := LabelsOf(b.c.name, LabelName(k)), spec := Merge(read.spec, Build(b.c, k, b.hash)),
                     generation := live.generation + 1, rv := w.nextRv);
      Next(Bump(w.(deps := w.deps[k := d])), Note(b, WroteDep(k)).(pc := PlainGet(Service(k), m)))
  }

  function RolloutGetStep(w: World, b: Run, k: Component): Sys {
    if k !in w.deps then Sys(w, Idle)
    else if RolledOut(w.deps[k], DesiredReplicas(Build(b.c, k, b.hash))) then Next(w, RolledOutPhase(b, k))
    else Next(w, Stop(Wait(b)))
  }

  function FencedGetStep(w: World, b: Run, k: Component): Sys {
    var healthy := k in w.deps && w.deps[k].status.ready >= w.deps[k].status.replicas;
    Next(w, AfterFencedGet(b.(compReady := b.compReady && healthy), k))
  }

  function StatusGetStep(w: World, b: Run, last: bool): Sys {
    if w.cluster.status == StatusOf(b) then Sys(w, Idle) else Next(w, b.(pc := StatusPut(last, w.cluster.rv)))
  }

  function StatusPutStep(w: World, b: Run, rv: nat): Sys {
    if w.cluster.rv == rv then Sys(WriteStatus(w, StatusOf(b)), Idle) else Sys(w, Idle)
  }

  /** One API call of the reconcile in flight. `fails`: the call returns an error other than NotFound or Conflict. */
  function Step(w: World, b: Run, fails: bool): Sys {
    match b.pc
    case SecretGet => Next(w, AfterSecret(b, if fails then None else w.secret))
    case FailedGet(f) => FailedGetStep(w, b, f, fails)
    case _ =>
      if fails then Sys(w, Idle)
      else match b.pc
        case SecretGet => Sys(w, Idle)
        case FailedGet(f) => Sys(w, Idle)
        case EarlyStatus => StatusPutStep(w, b, b.c.rv)
        case PlainGet(o, m) => PlainGetStep(w, b, o, m)
        case PlainPut(o, m) => PlainPutStep(w, b, o, m)
        case JobGet(f, m) => JobGetStep(w, b, f, m)
        case JobPost(f, m) => JobPostStep(w, b, f, m)
        case JobDelete(f, m) => JobDeleteStep(w, b, f, m)
        case MaintGet(f) => MaintGetStep(w, b, f)
        case MaintPost(f) => MaintPostStep(w, b, f)
        case MaintDelete(f) => MaintDeleteStep(w, b, f)
        case DepGet(k, m) => DepGetStep(w, b, k, m)
        case DepPost(k, m) => DepPostStep(w, b, k, m)
        case DepPut(k, m, read) => DepPutStep(w, b, k, m, read)
        case RolloutGet(k) => RolloutGetStep(w, b, k)
        case FencedGet(k) => FencedGetStep(w, b, k)
        case StatusGet(last) => StatusGetStep(w, b, last)
        case StatusPut(last, rv) => StatusPutStep(w, b, rv)
  }

  /** A read changes nothing. */
  lemma ReadsOnly(w: World, b: Run, fails: bool)
    requires Reads(b.pc)
    ensures Step(w, b, fails).w == w
  {
    hide Lifecycle, Build, UpToDate, RolledOut, AfterPlain, AfterJob, FailuresDone, MaintenanceDone, RolledOutPhase,
         AfterFencedGet, AfterSecret;
  }

  // ----- runs -----

  datatype Act =
    | Start                  // a reconcile begins
    | Call(fails: bool)      // its next API call
    | Crash                  // it dies; also a call that took effect but whose answer was lost
    | Outside(e: Env)        // something happens elsewhere

  function Apply(s: Sys, a: Act): Sys {
    match a
    case Start => if s.ctl.Idle? then Sys(s.w, Busy(Begin(s.w))) else s
    case Call(fails) => if s.ctl.Busy? then Step(s.w, s.ctl.r, fails) else s
    case Crash => Sys(s.w, Idle)
    case Outside(e) => Sys(ApplyEnv(s.w, e), s.ctl)
  }

  /** The state after a sequence of acts. */
  function Exec(s: Sys, acts: seq<Act>): Sys {
    if acts == [] then s else Apply(Exec(s, acts[..|acts| - 1]), acts[|acts| - 1])
  }

  lemma {:induction false} ExecConcat(s: Sys, acts: seq<Act>, more: seq<Act>)
    ensures Exec(s, acts + more) == Exec(Exec(s, acts), more)
  {
    hide Apply;
    if more == [] {
      assert acts + more == acts;
    } else {
      var all := acts + more;
      assert all[..|all| - 1] == acts + more[..|more| - 1];
      ExecConcat(s, acts, more[..|more| - 1]);
    }
  }

  /** One reconcile is in flight from state j on. */
  ghost predicate InFlight(s: Sys, acts: seq<Act>, j: nat) {
    forall i :: j <= i <= |acts| ==> Exec(s, acts[..i]).ctl.Busy?
  }

  ghost predicate Initial(s: Sys) { Model.Fresh(s.w) && s.ctl.Idle? }
}
