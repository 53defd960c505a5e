/**
 What one reconcile can do, whatever happens around it: for every program point, how the status worked on
 relates to the cluster as it was read, and which objects may have been written. Everything persisted by
 the cluster controller is described by Persists.
 */
module ReconcileFacts {
  import opened Basics
  import opened JobNames
  import opened Model
  import opened ClusterMachine
  import LiveObject
  import MaintenanceWindow
  import ConfigHash

  /** The phase a reconcile works in: Waiting when it opens a record. */
  function RecordPhase(c: Cluster): Phase { if Opens(c) then Waiting else CurrentRecord(c).phase }

  /** Where the driver moves the record when the phase's work is done. */
  function Successor(c: Cluster): Phase {
    match RecordPhase(c)
    case Complete => Complete
    case Waiting => if c.spec.maintenance then StartMaintenance else Config
    case Blocked => Waiting
    case StartMaintenance => Config
    case Config => InitJobs
    case InitJobs => FlowAPI
    case FlowAPI => PeerDBServer
    case PeerDBServer => UI
    case UI => if c.spec.maintenance then EndMaintenance else Complete
    case EndMaintenance => Complete
  }

  /** The record worked on: the persisted one, or a new one from its version to the spec's. */
  function Record(c: Cluster, startedAt: Option<int>): Upgrade {
    if Opens(c) then Upgrade(CurrentRecord(c).to, c.spec.version, Waiting, startedAt) else CurrentRecord(c)
  }

  predicate AtRecord(b: Run, p: Phase) {
    b.upgrade.Some? && b.upgrade.value == Record(b.c, b.upgrade.value.startedAt).(phase := p)
  }

  /** The gate of upgradePhaseWaiting at time t. */
  predicate GateOpen(spec: Spec, t: int) {
    spec.policy != Some(Manual) && (spec.window.Some? ==> MaintenanceWindow.InWindow(spec.window.value, t))
  }

  /** Written by every reconcile, before the upgrade is looked at. */
  const ALWAYS: set<Written> := {WrotePlain(ServiceAccount), WrotePlain(ConfigMap)}

  /** The objects that belong to a phase. */
  function Own(c: Cluster, p: Phase): set<Written> {
    match p
    case StartMaintenance => {WroteJob(KeyOf(MaintenanceStart, c.spec.version))}
    case InitJobs => {WroteJob(KeyOf(NsRegister, c.spec.version)), WroteJob(KeyOf(SearchAttr, c.spec.version))}
    case FlowAPI => {WroteDep(Api), WrotePlain(Service(Api))}
    case PeerDBServer => {WroteDep(Server), WrotePlain(Service(Server))}
    case UI => {WroteDep(Ui), WrotePlain(Service(Ui))}
    case EndMaintenance => {WroteJob(KeyOf(MaintenanceEnd, c.spec.version))}
    case _ => {}
  }

  // ----- facts by stage of the reconcile -----

  datatype Stage = Early | Prepare | Driver(p: Phase) | Standard | FencedCheck | Held | Done

  function ModeStage(m: Mode, p: Phase): Stage { if m == Upg then Driver(p) else Standard }

  function StageOf(pc: Pc): Stage {
    match pc
    case SecretGet => Early
    case EarlyStatus => Early
    case PlainGet(o, m) => if o.Service? then ModeStage(m, ComponentPhase(o.k)) else Prepare
    case PlainPut(o, m) => if o.Service? then ModeStage(m, ComponentPhase(o.k)) else Prepare
    case JobGet(_, m) => ModeStage(m, InitJobs)
    case JobPost(_, m) => ModeStage(m, InitJobs)
    case JobDelete(_, m) => ModeStage(m, InitJobs)
    case FailedGet(_) => Driver(InitJobs)
    case MaintGet(f) => Driver(if f == MaintenanceEnd then EndMaintenance else StartMaintenance)
    case MaintPost(f) => Driver(if f == MaintenanceEnd then EndMaintenance else StartMaintenance)
    case MaintDelete(f) => Driver(if f == MaintenanceEnd then EndMaintenance else StartMaintenance)
    case DepGet(k, m) => ModeStage(m, ComponentPhase(k))
    case DepPost(k, m) => ModeStage(m, ComponentPhase(k))
    case DepPut(k, m, _) => ModeStage(m, ComponentPhase(k))
    case RolloutGet(k) => Driver(ComponentPhase(k))
    case FencedGet(_) => FencedCheck
    case StatusGet(last) => if last then Done else Held
    case StatusPut(last, _) => if last then Done else Held
  }

  // The conditions a reconcile works with, as changes of the ones it read.

  function Begun(c: Cluster): Conditions { c.status.conditions.(reconciling := Yes) }

  /** The secret was read. */
  function Checked(c: Cluster): Conditions { Begun(c).(catalogReady := Yes, temporalReady := Yes) }

  /** The driver is at work. */
  function Upgrading(c: Cluster): Conditions { Checked(c).(upgradeInProgress := Yes) }

  /** The driver has moved the record on, or there was nothing to upgrade. */
  function Along(c: Cluster): Conditions {
    var r, p := c.status.conditions, RecordPhase(c);
    Checked(c).(
      upgradeInProgress := if Successor(c) != Complete then Yes else if p == Complete then r.upgradeInProgress else No,
      maintenanceMode := if p == StartMaintenance then Yes else if p == EndMaintenance then No else r.maintenanceMode,
      degraded := if p == Blocked then No else r.degraded)
  }

  /** The end of a reconcile that was neither stopped early nor held. */
  function Concluded(b: Run): Conditions {
    (if Fenced(b.c) then Checked(b.c) else Along(b.c)).(
      initialized := AsCond(b.initReady),
      componentsReady := AsCond(b.compReady),
      ready := AsCond(b.initReady && b.compReady),
      backupSafe := AsCond(!Fenced(b.c) && b.upgrade.Some? && b.upgrade.value.phase == Complete && b.compReady),
      reconciling := No)
  }

  /** Nothing about the upgrade has been touched yet. */
  predicate Untouched(b: Run) {
    b.upgrade == b.c.status.upgrade && b.h.gate.None? && b.h.writes <= ALWAYS
  }

  /** Before the secret is read, or stopped early: paused, or without the secret. */
  predicate Starting(b: Run) {
    Untouched(b) &&
    if b.pc.SecretGet? then !b.c.spec.paused && b.conds == Begun(b.c)
    else
      && b.observed == b.c.generation
      && b.conds == if b.c.spec.paused then Begun(b.c).(ready := No) else Begun(b.c).(catalogReady := No, ready := No)
  }

  /** What the driver reports in phase p, at its calls and when it is held there. */
  predicate Reporting(b: Run, p: Phase) {
    match b.pc
    case MaintPost(_) => b.conds == Upgrading(b.c).(maintenanceMode := Yes)
    case MaintDelete(_) => b.conds == Upgrading(b.c).(degraded := Yes)
    case StatusGet(_) => HeldReport(b, p)
    case StatusPut(_, _) => HeldReport(b, p)
    case _ => b.conds == Upgrading(b.c)
  }

  /** A missing maintenance job turns MaintenanceMode on, a failed one Degraded; unfinished init jobs turn Initialized off. */
  predicate HeldReport(b: Run, p: Phase) {
    match p
    case InitJobs => b.conds == Upgrading(b.c).(initialized := No)
    case StartMaintenance => MaintenanceReport(b)
    case EndMaintenance => MaintenanceReport(b)
    case _ => b.conds == Upgrading(b.c)
  }

  predicate MaintenanceReport(b: Run) {
    || b.conds == Upgrading(b.c)
    || b.conds == Upgrading(b.c).(maintenanceMode := Yes)
    || b.conds == Upgrading(b.c).(degraded := Yes)
  }

  /** The driver at work in, or held in, phase p. */
  predicate Driving(b: Run, p: Phase) {
    && !b.c.spec.paused && !Fenced(b.c) && RecordPhase(b.c) == p && p != Complete
    && Reporting(b, p)
    && b.h.gate.None? && b.h.writes <= ALWAYS + Own(b.c, p)
  }

  predicate InitSeen(c: Cluster, f: Family, seen: set<JobKey>) {
    Enabled(c.spec, f) ==> KeyOf(f, c.spec.version) in seen
  }

  /** What the driver needs before it moves on: the open gate, or the completed jobs of the phase. */
  predicate Earned(c: Cluster, gate: Option<int>, seen: set<JobKey>) {
    match RecordPhase(c)
    case Waiting => gate.Some? && GateOpen(c.spec, gate.value)
    case StartMaintenance => KeyOf(MaintenanceStart, c.spec.version) in seen
    case EndMaintenance => KeyOf(MaintenanceEnd, c.spec.version) in seen
    case InitJobs => InitSeen(c, NsRegister, seen) && InitSeen(c, SearchAttr, seen)
    case _ => true
  }

  /** Only enabled init jobs are visited; while they still count as ready, those already visited were seen complete. */
  predicate SeenSoFar(b: Run) {
    match b.pc
    case JobGet(f, m) => Enabled(b.c.spec, f) && (m == Upg && b.initReady && f == SearchAttr ==> InitSeen(b.c, NsRegister, b.h.seen))
    case JobPost(f, m) => Enabled(b.c.spec, f) && (m == Upg ==> !b.initReady)
    case JobDelete(f, _) => Enabled(b.c.spec, f)
    case FailedGet(f) => Enabled(b.c.spec, f)
    case _ => true
  }

  /** The record is past the driver. */
  predicate Moved(b: Run) {
    !b.c.spec.paused && !Fenced(b.c) && AtRecord(b, Successor(b.c)) && Earned(b.c, b.h.gate, b.h.seen)
  }

  /** Past the driver, in standard reconciliation. */
  predicate Advanced(b: Run) {
    Moved(b) && b.conds == Along(b.c).(initialized := b.conds.initialized)
  }

  /** The record of a fenced reconcile is at most filled in. */
  predicate Untampered(b: Run) {
    !b.c.spec.paused && Fenced(b.c) && b.upgrade == Some(CurrentRecord(b.c)) && b.h.gate.None? && b.h.writes <= ALWAYS
  }

  /** The health check of a fenced reconcile. */
  predicate Fencing(b: Run) {
    Untampered(b) && b.conds == Checked(b.c).(initialized := b.conds.initialized)
  }

  /** Once the init jobs are dealt with, Initialized says whether they were ready. */
  predicate InitTold(b: Run) {
    b.pc.JobGet? || b.pc.JobPost? || b.pc.JobDelete? || b.conds.initialized == AsCond(b.initReady)
  }

  /** The driver keeps the phase until its work is done, except that a failed init job blocks the upgrade. */
  predicate Holding(b: Run) {
    var p := RecordPhase(b.c);
    && Driving(b, p) && p != Config && p != Blocked && b.observed == b.c.generation
    && (AtRecord(b, p) || (p == InitJobs && AtRecord(b, Blocked)))
  }

  predicate Finished(b: Run) {
    && (if Fenced(b.c) then Untampered(b) && b.initReady else Moved(b))
    && b.conds == Concluded(b) && b.observed == b.c.generation
  }

  /** Init jobs and maintenance jobs are handled at their own program points. */
  predicate WellKeyed(pc: Pc) {
    match pc
    case JobGet(f, _) => f == NsRegister || f == SearchAttr
    case JobPost(f, _) => f == NsRegister || f == SearchAttr
    case JobDelete(f, _) => f == NsRegister || f == SearchAttr
    case FailedGet(f) => f == NsRegister || f == SearchAttr
    case MaintGet(f) => f == MaintenanceStart || f == MaintenanceEnd
    case MaintPost(f) => f == MaintenanceStart || f == MaintenanceEnd
    case MaintDelete(f) => f == MaintenanceStart || f == MaintenanceEnd
    case _ => true
  }

  predicate Facts(b: Run) {
    WellKeyed(b.pc) && SeenSoFar(b) &&
    match StageOf(b.pc)
    case Early => Starting(b)
    case Prepare => Untouched(b) && !b.c.spec.paused && b.conds == Checked(b.c)
    case Driver(p) => Driving(b, p) && AtRecord(b, p) && b.upgrade == b.c.status.upgrade
    case Standard => Advanced(b) && InitTold(b)
    case FencedCheck => Fencing(b) && InitTold(b) && b.initReady
    case Held => Holding(b)
    case Done => Finished(b)
  }

  lemma StdStartFacts(b: Run)
    requires Advanced(b)
    ensures Facts(StdStart(b)) && StdStart(b).c == b.c
  {
    hide MaintenanceWindow.InWindow;
  }

  /** What the driver starts from. */
  predicate AtDriver(b: Run) {
    && !b.c.spec.paused && !Fenced(b.c) && RecordPhase(b.c) != Complete
    && b.h.gate.None? && b.h.writes <= ALWAYS && AtRecord(b, RecordPhase(b.c))
    && (RecordPhase(b.c) == Waiting || b.upgrade == b.c.status.upgrade)
    && b.conds == Upgrading(b.c)
  }

  lemma WaitingFacts(b: Run, now: int)
    requires AtDriver(b) && RecordPhase(b.c) == Waiting
    ensures Facts(WaitingPhase(b, now)) && WaitingPhase(b, now).c == b.c
  {
    hide MaintenanceWindow.InWindow, StdStart, CurrentRecord, Opens, Own;
    var moved := SetPhase(b, Successor(b.c)).(h := b.h.(gate := Some(now)));
    if GateOpen(b.c.spec, now) { StdStartFacts(moved); }
  }

  lemma BlockedFacts(b: Run)
    requires AtDriver(b) && RecordPhase(b.c) == Blocked
    ensures Facts(BlockedPhase(b)) && BlockedPhase(b).c == b.c
  {
    hide StdStart, CurrentRecord, Opens, Own;
    StdStartFacts(SetPhase(b.(conds := b.conds.(degraded := No)), Waiting));
  }

  lemma DriveFacts(b: Run, now: int)
    requires AtDriver(b.(conds := b.conds.(upgradeInProgress := Yes)))
    ensures Facts(Drive(b, now)) && Drive(b, now).c == b.c
  {
    hide CurrentRecord, Opens, WaitingPhase, BlockedPhase, StdStart, UpgJobsStart, Facts;
    var b1 := b.(conds := b.conds.(upgradeInProgress := Yes));
    match RecordPhase(b.c) {
      case Waiting => WaitingFacts(b1, now);
      case Blocked => BlockedFacts(b1);
      case Config => ConfigFacts(b1);
      case InitJobs => UpgJobsStartFacts(b1);
      case StartMaintenance => CallFacts(b1, MaintGet(MaintenanceStart));
      case EndMaintenance => CallFacts(b1, MaintGet(MaintenanceEnd));
      case FlowAPI => CallFacts(b1, DepGet(Api, Upg));
      case PeerDBServer => CallFacts(b1, DepGet(Server, Upg));
      case UI => CallFacts(b1, DepGet(Ui, Upg));
    }
  }

  /** The phases that begin with a call of their own. */
  lemma CallFacts(b: Run, pc: Pc)
    requires AtDriver(b) && StageOf(pc) == Driver(RecordPhase(b.c)) && WellKeyed(pc) && (pc.MaintGet? || pc.DepGet?)
    requires RecordPhase(b.c) != Waiting
    ensures Facts(b.(pc := pc))
  {
    hide CurrentRecord, Own;
  }

  lemma ConfigFacts(b: Run)
    requires AtDriver(b) && RecordPhase(b.c) == Config
    ensures Facts(StdStart(SetPhase(b, InitJobs))) && StdStart(SetPhase(b, InitJobs)).c == b.c
  {
    hide CurrentRecord, Opens, StdStart, Facts;
    StdStartFacts(SetPhase(b, InitJobs));
  }

  lemma UpgJobsStartFacts(b: Run)
    requires AtDriver(b) && RecordPhase(b.c) == InitJobs
    ensures Facts(UpgJobsStart(b)) && UpgJobsStart(b).c == b.c
  {
    hide CurrentRecord, Opens, StdStart;
    if FirstJob(b.c.spec).None? {
      StdStartFacts(SetPhase(b.(initReady := true, conds := b.conds.(initialized := Yes)), FlowAPI));
    }
  }

  lemma LifecycleFacts(b: Run, now: int)
    requires Untouched(b) && !b.c.spec.paused && b.conds == Checked(b.c)
    ensures Facts(Lifecycle(b, now)) && Lifecycle(b, now).c == b.c
  {
    hide Drive, StdStart;
    var u := CurrentRecord(b.c);
    var begun := b.(upgrade := Some(Record(b.c, Some(now))));
    if !Fenced(b.c) {
      if RecordPhase(b.c) == Complete { StdStartFacts(b.(upgrade := Some(u))); } else { DriveFacts(begun, now); }
    } else {
      FencedStartFacts(b.(upgrade := Some(u)));
    }
  }

  lemma FencedStartFacts(b: Run)
    requires Fencing(b)
    ensures Facts(StdStart(b)) && StdStart(b).c == b.c
  {
  }

  // ----- one lemma per kind of API call -----

  /** The outcome of a call keeps the facts, and the cluster stays the one that was read. */
  predicate Keeps(b: Run, s: Sys) {
    s.ctl.Busy? ==> Facts(s.ctl.r) && s.ctl.r.c == b.c
  }

  lemma BeginFacts(w: World)
    ensures Facts(Begin(w)) && Begin(w).c == w.cluster
  {
  }

  lemma SecretFacts(b: Run, secret: Option<string>)
    requires Facts(b) && b.pc.SecretGet?
    ensures Facts(AfterSecret(b, secret)) && AfterSecret(b, secret).c == b.c
  {
    hide ConfigHash.ClusterText;
  }

  lemma FinalFacts(b: Run)
    requires (if Fenced(b.c) then Fencing(b) && b.initReady else Advanced(b)) && b.conds.initialized == AsCond(b.initReady)
    ensures Facts(Final(b)) && Final(b).c == b.c
  {
    hide CurrentRecord, Opens, MaintenanceWindow.InWindow, Earned, Successor, Record;
  }

  /** After a ServiceAccount, ConfigMap or Service, whether it was written or found up to date. */
  lemma AfterPlainFacts(b: Run, o: Plain, m: Mode, now: int)
    requires Facts(b) && (b.pc == PlainGet(o, m) || b.pc == PlainPut(o, m))
    ensures Facts(AfterPlain(b, o, m, now)) && AfterPlain(b, o, m, now).c == b.c
  {
    hide Lifecycle, Final, CurrentRecord, Opens, Earned, Successor, Record, Own, FirstJob, Enabled, AfterService;
    match o {
      case ServiceAccount =>
      case ConfigMap => LifecycleFacts(b, now);
      case Service(k) => AfterServiceFacts(b, k, m);
    }
  }

  lemma AfterServiceFacts(b: Run, k: Component, m: Mode)
    requires Facts(b) && (b.pc == PlainGet(Service(k), m) || b.pc == PlainPut(Service(k), m))
    ensures Facts(AfterService(b, k, m)) && AfterService(b, k, m).c == b.c
  {
    hide Final, Facts;
    if m == Std && k == Ui { ServiceFinalFacts(b); } else { ServiceNextFacts(b, k, m); }
  }

  lemma ServiceFinalFacts(b: Run)
    requires Facts(b) && (b.pc == PlainGet(Service(Ui), Std) || b.pc == PlainPut(Service(Ui), Std))
    ensures Facts(Final(b)) && Final(b).c == b.c
  {
    hide Final, CurrentRecord, Opens, Earned, Successor, Record, Own;
    FinalFacts(b);
  }

  lemma ServiceNextFacts(b: Run, k: Component, m: Mode)
    requires Facts(b) && (b.pc == PlainGet(Service(k), m) || b.pc == PlainPut(Service(k), m)) && (m == Std ==> k != Ui)
    ensures Facts(AfterService(b, k, m)) && AfterService(b, k, m).c == b.c
  {
    hide Final, CurrentRecord, Opens, Earned, Successor, Record, Own;
  }

  lemma PlainGetFacts(w: World, b: Run, o: Plain, m: Mode)
    requires Facts(b) && b.pc == PlainGet(o, m)
    ensures Keeps(b, PlainGetStep(w, b, o, m))
  {
    hide AfterPlain, CurrentRecord, Opens, Earned, Successor, Record, Own, DesiredPlain;
    AfterPlainFacts(b, o, m, w.clock);
  }

  lemma PlainPutFacts(w: World, b: Run, o: Plain, m: Mode)
    requires Facts(b) && b.pc == PlainPut(o, m)
    ensures Keeps(b, PlainPutStep(w, b, o, m))
  {
    hide AfterPlain, CurrentRecord, Opens, Earned, Successor, Record, DesiredPlain;
    AfterPlainFacts(Note(b, WrotePlain(o)), o, m, w.clock);
  }

  /** The init jobs are over: reconciliation goes on, or the driver looks for failures. */
  lemma AfterJobFacts(b: Run, f: Family, m: Mode)
    requires StageOf(b.pc) == ModeStage(m, InitJobs) && Facts(b) && (f == NsRegister || f == SearchAttr)
    requires m == Upg && b.initReady ==> InitSeen(b.c, NsRegister, b.h.seen) && (f == SearchAttr ==> InitSeen(b.c, SearchAttr, b.h.seen))
    ensures Facts(AfterJob(b, f, m)) && AfterJob(b, f, m).c == b.c
  {
    hide UpgJobsDone, CurrentRecord, Opens, Own, Successor, Earned, Record, Facts;
    if NextJob(b.c.spec, f).Some? { NextJobFacts(b, f, m); }
    else if m == Upg { UpgJobsDoneFacts(b); } else { StdJobsDoneFacts(b); }
  }

  lemma NextJobFacts(b: Run, f: Family, m: Mode)
    requires StageOf(b.pc) == ModeStage(m, InitJobs) && Facts(b) && NextJob(b.c.spec, f).Some?
    requires m == Upg && b.initReady ==> InitSeen(b.c, NsRegister, b.h.seen)
    ensures Facts(b.(pc := JobGet(SearchAttr, m)))
  {
    hide CurrentRecord, Opens, Own, Successor, Earned, Record;
  }

  lemma StdJobsDoneFacts(b: Run)
    requires StageOf(b.pc) == Standard && Facts(b)
    ensures Facts(StdJobsDone(b))
  {
    hide CurrentRecord, Opens, Own, Successor, Earned, Record;
  }

  lemma UpgJobsDoneFacts(b: Run)
    requires StageOf(b.pc) == Driver(InitJobs) && Facts(b)
    requires b.initReady ==> InitSeen(b.c, NsRegister, b.h.seen) && InitSeen(b.c, SearchAttr, b.h.seen)
    ensures Facts(UpgJobsDone(b)) && UpgJobsDone(b).c == b.c
  {
    hide StdStart, CurrentRecord, Opens, Own, MaintenanceWindow.InWindow;
    if b.initReady { StdStartFacts(SetPhase(b.(conds := b.conds.(initialized := Yes)), FlowAPI)); }
  }

  lemma JobSeenFacts(b: Run, f: Family, m: Mode)
    requires Facts(b) && b.pc == JobGet(f, m)
    ensures var r := AfterJob(b.(h := b.h.(seen := b.h.seen + {KeyFor(b, f)})), f, m); Facts(r) && r.c == b.c
  {
    hide AfterJob, CurrentRecord, Opens, Record, Successor, Own, GateOpen, StdStart, FirstJob;
    AfterJobFacts(b.(h := b.h.(seen := b.h.seen + {KeyFor(b, f)})), f, m);
  }

  lemma JobGetFacts(w: World, b: Run, f: Family, m: Mode)
    requires Facts(b) && b.pc == JobGet(f, m)
    ensures Keeps(b, JobGetStep(w, b, f, m))
  {
    hide AfterJob, CurrentRecord, Opens, Record, Successor, Own, GateOpen, StdStart, FirstJob, Earned, Quiet, NewPass;
    if KeyFor(b, f) in w.jobs {
      if w.jobs[KeyFor(b, f)] == Succeeded { JobSeenFacts(b, f, m); }
      if w.jobs[KeyFor(b, f)] == Running { AfterJobFacts(Wait(b.(initReady := false)), f, m); }
    }
  }

  lemma JobPostFacts(w: World, b: Run, f: Family, m: Mode)
    requires Facts(b) && b.pc == JobPost(f, m)
    ensures Keeps(b, JobPostStep(w, b, f, m))
  {
    hide AfterJob, CurrentRecord, Opens, Record, Successor, Earned;
    AfterJobFacts(Note(b, WroteJob(KeyFor(b, f))), f, m);
  }

  lemma JobDeleteFacts(w: World, b: Run, f: Family, m: Mode)
    requires Facts(b) && b.pc == JobDelete(f, m)
    ensures Keeps(b, JobDeleteStep(w, b, f, m))
  {
    hide AfterJob, CurrentRecord, Opens, Record, Successor, Earned;
    AfterJobFacts(Note(b.(initReady := false), WroteJob(KeyFor(b, f))), f, m);
  }

  lemma FailuresDoneFacts(b: Run, failed: bool)
    requires Facts(b) && StageOf(b.pc) == Driver(InitJobs)
    ensures Facts(FailuresDone(b, failed)) && FailuresDone(b, failed).c == b.c
  {
    hide CurrentRecord, Opens, Own, Successor, Earned, Record;
  }

  lemma FailedGetFacts(w: World, b: Run, f: Family, fails: bool)
    requires Facts(b) && b.pc == FailedGet(f)
    ensures Keeps(b, FailedGetStep(w, b, f, fails))
  {
    hide CurrentRecord, Opens, Own, Successor, Earned, Record, FailuresDone;
    FailuresDoneFacts(b, true);
    FailuresDoneFacts(b, false);
  }

  /** The job is missing or failed. */
  lemma MaintHoldFacts(b: Run, f: Family)
    requires Facts(b) && b.pc == MaintGet(f)
    ensures Facts(b.(conds := b.conds.(maintenanceMode := Yes), pc := MaintPost(f)))
    ensures Facts(b.(conds := b.conds.(degraded := Yes), pc := MaintDelete(f)))
  {
    hide Facts;
    MaintMissingFacts(b, f);
    MaintFailedFacts(b, f);
  }

  lemma MaintMissingFacts(b: Run, f: Family)
    requires Facts(b) && b.pc == MaintGet(f)
    ensures Facts(b.(conds := b.conds.(maintenanceMode := Yes), pc := MaintPost(f)))
  {
    hide CurrentRecord, Opens, Own, Record, Earned, Successor, Fenced;
  }

  lemma MaintFailedFacts(b: Run, f: Family)
    requires Facts(b) && b.pc == MaintGet(f)
    ensures Facts(b.(conds := b.conds.(degraded := Yes), pc := MaintDelete(f)))
  {
    hide CurrentRecord, Opens, Own, Record, Earned, Successor, Fenced;
  }

  lemma MaintWaitFacts(b: Run, f: Family)
    requires Facts(b) && b.pc == MaintGet(f)
    ensures Facts(Stop(Wait(b)))
  {
    hide CurrentRecord, Opens, Own, Record, Earned, Successor, Fenced;
  }

  lemma MaintGetFacts(w: World, b: Run, f: Family)
    requires Facts(b) && b.pc == MaintGet(f)
    ensures Keeps(b, MaintGetStep(w, b, f))
  {
    hide Facts;
    MaintHoldFacts(b, f);
    MaintWaitFacts(b, f);
    hide MaintenanceDone;
    if KeyFor(b, f) in w.jobs && w.jobs[KeyFor(b, f)] == Succeeded { MaintenanceDoneFacts(b, f); }
  }

  lemma MaintenanceDoneFacts(b: Run, f: Family)
    requires Facts(b) && b.pc == MaintGet(f)
    ensures Facts(MaintenanceDone(b, f)) && MaintenanceDone(b, f).c == b.c
  {
    hide CurrentRecord, Opens, Own, StdStart;
    var b1 := b.(h := b.h.(seen := b.h.seen + {KeyFor(b, f)}));
    if f == MaintenanceEnd {
      StdStartFacts(SetPhase(b1.(conds := b1.conds.(maintenanceMode := No, upgradeInProgress := No)), Complete));
    } else {
      StdStartFacts(SetPhase(b1.(conds := b1.conds.(maintenanceMode := Yes)), Config));
    }
  }

  lemma MaintWriteFacts(w: World, b: Run, f: Family)
    requires Facts(b)
    ensures b.pc == MaintPost(f) ==> Keeps(b, MaintPostStep(w, b, f))
    ensures b.pc == MaintDelete(f) ==> Keeps(b, MaintDeleteStep(w, b, f))
  {
    hide Facts;
    if b.pc == MaintPost(f) || b.pc == MaintDelete(f) { MaintWrittenFacts(b, f); }
  }

  lemma MaintWrittenFacts(b: Run, f: Family)
    requires Facts(b) && (b.pc == MaintPost(f) || b.pc == MaintDelete(f))
    ensures Facts(Stop(Note(b, WroteJob(KeyFor(b, f)))))
  {
    hide CurrentRecord, Opens, Successor, Earned;
  }

  /** A call on a component's Deployment, whether or not it wrote. */
  lemma ComponentFacts(b: Run, k: Component, m: Mode, b1: Run)
    requires Facts(b) && StageOf(b.pc) == ModeStage(m, ComponentPhase(k))
    requires StageOf(b1.pc) == StageOf(b.pc) && WellKeyed(b1.pc)
    requires b.pc.DepGet? || b.pc.DepPost? || b.pc.DepPut?
    requires b1.pc.DepPost? || b1.pc.DepPut? || b1.pc.PlainGet?
    requires b1.c == b.c && b1.upgrade == b.upgrade && b1.conds == b.conds && b1.initReady == b.initReady
    requires b1.h.gate == b.h.gate && b1.h.seen == b.h.seen
    requires b1.h.writes <= b.h.writes + {WroteDep(k)}
    ensures Facts(b1)
  {
    hide CurrentRecord, Opens, Record, Successor, Earned;
  }

  lemma DepGetFacts(w: World, b: Run, k: Component, m: Mode)
    requires Facts(b) && b.pc == DepGet(k, m)
    ensures Keeps(b, DepGetStep(w, b, k, m))
  {
    hide Facts, Build, LiveObject.UpToDate;
    ComponentFacts(b, k, m, DepGetStep(w, b, k, m).ctl.r);
  }

  lemma DepPostFacts(w: World, b: Run, k: Component, m: Mode)
    requires Facts(b) && b.pc == DepPost(k, m)
    ensures Keeps(b, DepPostStep(w, b, k, m))
  {
    hide Facts, Build, LabelsOf;
    if k !in w.deps { ComponentFacts(b, k, m, DepPostStep(w, b, k, m).ctl.r); }
  }

  lemma DepPutFacts(w: World, b: Run, k: Component, m: Mode, read: LiveObject.Deployment)
    requires Facts(b) && b.pc == DepPut(k, m, read)
    ensures Keeps(b, DepPutStep(w, b, k, m, read))
  {
    hide Facts, Build, LabelsOf, LiveObject.Merge;
    if k in w.deps { ComponentFacts(b, k, m, DepPutStep(w, b, k, m, read).ctl.r); }
  }

  lemma RolledOutFacts(b: Run, k: Component)
    requires Facts(b) && b.pc == RolloutGet(k)
    ensures Facts(RolledOutPhase(b, k)) && RolledOutPhase(b, k).c == b.c
  {
    hide CurrentRecord, Opens, Own, StdStart;
    var b1 := if k == Ui && !b.c.spec.maintenance then b.(conds := b.conds.(upgradeInProgress := No)) else b;
    StdStartFacts(SetPhase(b1, Successor(b.c)));
  }

  lemma RolloutGetFacts(w: World, b: Run, k: Component)
    requires Facts(b) && b.pc == RolloutGet(k)
    ensures Keeps(b, RolloutGetStep(w, b, k))
  {
    hide Build, LiveObject.RolledOut, RolledOutPhase, Facts;
    RolledOutFacts(b, k);
    RolloutWaitFacts(b, k);
  }

  lemma RolloutWaitFacts(b: Run, k: Component)
    requires Facts(b) && b.pc == RolloutGet(k)
    ensures Facts(Stop(Wait(b)))
  {
    hide CurrentRecord, Opens, Record, Own, Successor, Earned;
  }

  lemma FencedGetFacts(w: World, b: Run, k: Component)
    requires Facts(b) && b.pc == FencedGet(k)
    ensures Keeps(b, FencedGetStep(w, b, k))
  {
    hide CurrentRecord, Final;
    var healthy := k in w.deps && w.deps[k].status.ready >= w.deps[k].status.replicas;
    FinalFacts(b.(compReady := b.compReady && healthy));
  }

  /** Every API call keeps the facts. */
  lemma StepFacts(w: World, b: Run, fails: bool)
    requires Facts(b)
    ensures Keeps(b, Step(w, b, fails))
  {
    hide AfterSecret, PlainGetStep, PlainPutStep, JobGetStep, JobPostStep, JobDeleteStep, FailedGetStep, MaintGetStep,
         MaintPostStep, MaintDeleteStep, DepGetStep, DepPostStep, DepPutStep, RolloutGetStep, FencedGetStep,
         StatusGetStep, StatusPutStep, Facts;
    match b.pc {
      case SecretGet => SecretFacts(b, if fails then None else w.secret);
      case EarlyStatus => StatusFacts(w, b, true, b.c.rv);
      case PlainGet(o, m) => PlainGetFacts(w, b, o, m);
      case PlainPut(o, m) => PlainPutFacts(w, b, o, m);
      case JobGet(f, m) => JobGetFacts(w, b, f, m);
      case JobPost(f, m) => JobPostFacts(w, b, f, m);
      case JobDelete(f, m) => JobDeleteFacts(w, b, f, m);
      case FailedGet(f) => FailedGetFacts(w, b, f, fails);
      case MaintGet(f) => MaintGetFacts(w, b, f);
      case MaintPost(f) => MaintWriteFacts(w, b, f);
      case MaintDelete(f) => MaintWriteFacts(w, b, f);
      case DepGet(k, m) => DepGetFacts(w, b, k, m);
      case DepPost(k, m) => DepPostFacts(w, b, k, m);
      case DepPut(k, m, read) => DepPutFacts(w, b, k, m, read);
      case RolloutGet(k) => RolloutGetFacts(w, b, k);
      case FencedGet(k) => FencedGetFacts(w, b, k);
      case StatusGet(last) => StatusFacts(w, b, last, 0);
      case StatusPut(last, rv) => StatusFacts(w, b, last, rv);
    }
  }

  lemma StatusFacts(w: World, b: Run, last: bool, rv: nat)
    requires Facts(b)
    ensures b.pc == StatusGet(last) ==> Keeps(b, StatusGetStep(w, b, last))
    ensures StatusPutStep(w, b, rv).ctl.Idle?
  {
    hide CurrentRecord, Opens, Record, Successor, Earned, Own;
  }

  // ----- over runs -----

  ghost predicate Inv(s: Sys) {
    s.ctl.Busy? ==> Facts(s.ctl.r) && s.ctl.r.c.status == s.w.cluster.status
  }

  /** The act writes the status that the reconcile in flight has worked out. */
  ghost predicate Persists(s: Sys, a: Act) {
    && s.ctl.Busy? && (s.ctl.r.pc.StatusPut? || s.ctl.r.pc.EarlyStatus?) && a == Call(false)
    && Apply(s, a).w.cluster.status == StatusOf(s.ctl.r)
  }

  /** Only the call that persists a reconcile's own status touches the status of the cluster. */
  lemma StatusWrites(w: World, b: Run, fails: bool)
    ensures Step(w, b, fails).w.cluster.status != w.cluster.status ==> Persists(Sys(w, Busy(b)), Call(fails))
    ensures Step(w, b, fails).ctl.Busy? ==> Step(w, b, fails).w.cluster == w.cluster
    ensures Step(w, b, fails).w.cluster.(status := w.cluster.status, rv := w.cluster.rv) == w.cluster
  {
    hide Step, Reads;
    if Reads(b.pc) { ReadsOnly(w, b, fails); } else { WritesElsewhere(w, b, fails); }
  }

  lemma WritesElsewhere(w: World, b: Run, fails: bool)
    requires !Reads(b.pc)
    ensures Step(w, b, fails).w.cluster != w.cluster ==>
              (b.pc.StatusPut? || b.pc.EarlyStatus?) && !fails && Step(w, b, fails).ctl.Idle? &&
              Step(w, b, fails).w.cluster == w.cluster.(status := StatusOf(b), rv := w.nextRv)
  {
    hide AfterSecret, AfterPlain, AfterJob, Build, LabelsOf, LiveObject.Merge, DesiredPlain, Stop, NewPass, PlainGetStep,
         JobGetStep, FailedGetStep, MaintGetStep, DepGetStep, RolloutGetStep, FencedGetStep, StatusGetStep, Quiet, QuietAt;
  }

  /** Only the two creating calls make a job appear, the one they name. */
  lemma CallCreates(w: World, b: Run, fails: bool, key: JobKey)
    requires key !in w.jobs && key in Step(w, b, fails).w.jobs
    ensures (b.pc.JobPost? || b.pc.MaintPost?) && key == KeyFor(b, b.pc.f)
  {
    hide Step, Reads;
    if Reads(b.pc) { ReadsOnly(w, b, fails); assert false; } else { WriteCreates(w, b, fails, key); }
  }

  lemma WriteCreates(w: World, b: Run, fails: bool, key: JobKey)
    requires !Reads(b.pc)
    ensures key !in w.jobs && key in Step(w, b, fails).w.jobs ==> (b.pc.JobPost? || b.pc.MaintPost?) && key == KeyFor(b, b.pc.f)
  {
    hide AfterPlain, AfterJob, Build, LabelsOf, LiveObject.Merge, DesiredPlain, Stop, NewPass, Sanitize;
  }

  lemma EnvKeepsStatus(w: World, e: Env)
    ensures ApplyEnv(w, e).cluster.status == w.cluster.status
  {
  }

  lemma ApplyInv(s: Sys, a: Act)
    requires Inv(s)
    ensures Inv(Apply(s, a))
    ensures Apply(s, a).w.cluster.status != s.w.cluster.status ==> Persists(s, a)
  {
    hide Step, Facts, ApplyEnv, Begin;
    match a {
      case Start => BeginFacts(s.w);
      case Call(fails) => if s.ctl.Busy? { StepFacts(s.w, s.ctl.r, fails); StatusWrites(s.w, s.ctl.r, fails); }
      case Crash =>
      case Outside(e) => EnvKeepsStatus(s.w, e);
    }
  }

  /** Whatever happens, in whatever order, the facts hold of the reconcile in flight. */
  lemma {:induction false} ExecInv(s: Sys, acts: seq<Act>)
    requires Inv(s)
    ensures Inv(Exec(s, acts))
  {
    hide Inv, Apply;
    if acts != [] {
      ExecInv(s, acts[..|acts| - 1]);
      ApplyInv(Exec(s, acts[..|acts| - 1]), acts[|acts| - 1]);
    }
  }
}
