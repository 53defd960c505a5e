/**
 Jobs over whole runs: a job that succeeded is never deleted or created again, the init jobs of a version stay
 done once the rollout began, and an upgrade is blocked only by a job that fails while it is being looked at.
 */
module Jobs {
  import opened Basics
  import opened JobNames
  import opened Model
  import opened ClusterMachine
  import opened ReconcileFacts
  import opened PhaseGraph
  import LiveObject
  import ConfigHash
  import MaintenanceWindow

  predicate Succeeds(w: World, key: JobKey) { key in w.jobs && w.jobs[key] == Succeeded }

  /** About to delete a job means it was read failed, and failed jobs stay failed. */
  predicate DeletesFailed(w: World, b: Run) {
    match b.pc
    case JobDelete(f, _) => KeyFor(b, f) in w.jobs ==> w.jobs[KeyFor(b, f)] == Failed
    case MaintDelete(f) => KeyFor(b, f) in w.jobs ==> w.jobs[KeyFor(b, f)] == Failed
    case _ => true
  }

  ghost predicate DeleteInv(s: Sys) { s.ctl.Busy? ==> DeletesFailed(s.w, s.ctl.r) }

  /** A job is about to be deleted only because it was just read as failed. */
  predicate ReadFailed(s: Sys) {
    s.ctl.Busy? && (s.ctl.r.pc.JobDelete? || s.ctl.r.pc.MaintDelete?) ==>
      var key := KeyFor(s.ctl.r, s.ctl.r.pc.f); key in s.w.jobs && s.w.jobs[key] == Failed
  }

  lemma IdleReadsFailed(w: World)
    ensures ReadFailed(Sys(w, Idle))
  {
  }

  lemma JobGetReadsFailed(w: World, b: Run, f: Family, m: Mode)
    ensures ReadFailed(JobGetStep(w, b, f, m))
  {
    hide AfterJob, Quiet;
  }

  lemma MaintGetReadsFailed(w: World, b: Run, f: Family)
    ensures ReadFailed(MaintGetStep(w, b, f))
  {
    hide MaintenanceDone, Quiet;
  }

  lemma DeploymentsDeleteNothing(w: World, b: Run, fails: bool)
    requires b.pc.DepGet? || b.pc.DepPost? || b.pc.DepPut? || b.pc.RolloutGet? || b.pc.PlainGet? || b.pc.PlainPut?
    ensures ReadFailed(Step(w, b, fails))
  {
    hide AfterPlain, RolledOutPhase, NewPass, Build, LabelsOf, LiveObject.UpToDate, LiveObject.Merge, LiveObject.RolledOut,
         DesiredPlain;
  }

  lemma StepReadsFailed(w: World, b: Run, fails: bool)
    ensures ReadFailed(Step(w, b, fails))
  {
    hide ConfigHash.ClusterText, AfterJob, FailuresDone, AfterFencedGet, DesiredPlain, NewPass, ReadFailed,
         JobGetStep, MaintGetStep, DepGetStep, DepPostStep, DepPutStep, RolloutGetStep, PlainGetStep, PlainPutStep;
    IdleReadsFailed(w);
    match b.pc {
      case JobGet(f, m) => JobGetReadsFailed(w, b, f, m);
      case MaintGet(f) => MaintGetReadsFailed(w, b, f);
      case DepGet(_, _) => DeploymentsDeleteNothing(w, b, fails);
      case DepPost(_, _) => DeploymentsDeleteNothing(w, b, fails);
      case DepPut(_, _, _) => DeploymentsDeleteNothing(w, b, fails);
      case RolloutGet(_) => DeploymentsDeleteNothing(w, b, fails);
      case PlainGet(_, _) => DeploymentsDeleteNothing(w, b, fails);
      case PlainPut(_, _) => DeploymentsDeleteNothing(w, b, fails);
      case _ => OthersDeleteNothing(w, b, fails);
    }
  }

  lemma OthersDeleteNothing(w: World, b: Run, fails: bool)
    requires !b.pc.JobGet? && !b.pc.MaintGet? && !b.pc.DepGet? && !b.pc.DepPost? && !b.pc.DepPut? && !b.pc.RolloutGet?
             && !b.pc.PlainGet? && !b.pc.PlainPut?
    ensures ReadFailed(Step(w, b, fails))
  {
    hide ConfigHash.ClusterText, AfterJob, FailuresDone, AfterFencedGet, DesiredPlain, NewPass, KeyFor,
         JobGetStep, MaintGetStep, DepGetStep, DepPostStep, DepPutStep, RolloutGetStep, PlainGetStep, PlainPutStep;
  }

  lemma StepDeletes(w: World, b: Run, fails: bool)
    ensures DeleteInv(Step(w, b, fails))
  {
    hide Step;
    StepReadsFailed(w, b, fails);
  }

  lemma StepKeepsSuccess(w: World, b: Run, fails: bool, key: JobKey)
    requires DeletesFailed(w, b) && Succeeds(w, key)
    ensures Succeeds(Step(w, b, fails).w, key)
  {
    hide AfterSecret, AfterPlain, AfterJob, FailuresDone, MaintenanceDone, RolledOutPhase, AfterFencedGet,
         Build, LabelsOf, LiveObject.UpToDate, LiveObject.Merge, LiveObject.RolledOut, DesiredPlain, Quiet;
  }

  ghost predicate RemovesJob(a: Act, key: JobKey) { a.Outside? && a.e == JobRemoved(key) }

  lemma ApplyDeletes(s: Sys, a: Act)
    requires DeleteInv(s)
    ensures DeleteInv(Apply(s, a))
    ensures forall key :: Succeeds(s.w, key) && !RemovesJob(a, key) ==> Succeeds(Apply(s, a).w, key)
  {
    hide Step;
    if a.Call? && s.ctl.Busy? {
      StepDeletes(s.w, s.ctl.r, a.fails);
      forall key | Succeeds(s.w, key) ensures Succeeds(Apply(s, a).w, key) {
        StepKeepsSuccess(s.w, s.ctl.r, a.fails, key);
      }
    }
  }

  lemma {:induction false} ExecDeletes(s: Sys, acts: seq<Act>)
    requires DeleteInv(s)
    ensures DeleteInv(Exec(s, acts))
  {
    hide Apply, DeleteInv;
    if acts != [] {
      ExecDeletes(s, acts[..|acts| - 1]);
      ApplyDeletes(Exec(s, acts[..|acts| - 1]), acts[|acts| - 1]);
    }
  }

  /** Once a job succeeded it stays, through retries, blocked upgrades and crashes, unless someone else removes it. */
  lemma {:induction false} SuccessIsFinal(s: Sys, acts: seq<Act>, key: JobKey)
    requires DeleteInv(s) && Succeeds(s.w, key)
    requires forall i :: 0 <= i < |acts| ==> !RemovesJob(acts[i], key)
    ensures Succeeds(Exec(s, acts).w, key)
  {
    hide Apply, DeleteInv;
    if acts != [] {
      SuccessIsFinal(s, acts[..|acts| - 1], key);
      ExecDeletes(s, acts[..|acts| - 1]);
      ApplyDeletes(Exec(s, acts[..|acts| - 1]), acts[|acts| - 1]);
    }
  }

  // ----- the init jobs during the rollout -----

  /** Whatever the reconcile in flight has seen complete still is. */
  ghost predicate SeenInv(s: Sys) { s.ctl.Busy? ==> forall key :: key in s.ctl.r.h.seen ==> Succeeds(s.w, key) }

  predicate SeesOnly(w: World, b: Run, s: Sys) {
    s.ctl.Busy? ==> forall key :: key in s.ctl.r.h.seen ==> key in b.h.seen || Succeeds(w, key)
  }

  lemma JobGetSees(w: World, b: Run, f: Family, m: Mode)
    ensures SeesOnly(w, b, JobGetStep(w, b, f, m))
  {
    hide AfterJob, Reads, NewPass;
  }

  lemma MaintGetSees(w: World, b: Run, f: Family)
    ensures SeesOnly(w, b, MaintGetStep(w, b, f))
  {
    hide MaintenanceDone, Reads, NewPass;
  }

  lemma StepSees(w: World, b: Run, fails: bool)
    ensures SeesOnly(w, b, Step(w, b, fails))
  {
    hide ConfigHash.ClusterText, AfterPlain, AfterJob, FailuresDone, MaintenanceDone, RolledOutPhase, AfterFencedGet,
         Build, LabelsOf, LiveObject.UpToDate, LiveObject.Merge, LiveObject.RolledOut, DesiredPlain, Reads, NewPass,
         JobGetStep, MaintGetStep;
    match b.pc {
      case JobGet(f, m) => JobGetSees(w, b, f, m);
      case MaintGet(f) => MaintGetSees(w, b, f);
      case _ =>
    }
  }

  ghost predicate NeverRemovesJobs(a: Act) { !(a.Outside? && a.e.JobRemoved?) }

  lemma ApplySees(s: Sys, a: Act)
    requires DeleteInv(s) && SeenInv(s) && NeverRemovesJobs(a)
    ensures SeenInv(Apply(s, a))
  {
    hide Step, Succeeds, DeleteInv, ApplyEnv;
    ApplyDeletes(s, a);
    if a.Call? && s.ctl.Busy? { StepSees(s.w, s.ctl.r, a.fails); }
  }

  predicate RollingOut(u: Option<Upgrade>) {
    u.Some? && (u.value.phase == FlowAPI || u.value.phase == PeerDBServer || u.value.phase == UI || u.value.phase == EndMaintenance)
  }

  /** The spec has an init section, it has a switch for the namespace job, and the switch says false; nothing less. */
  predicate NsOff(spec: Spec) {
    spec.init.Some? && spec.init.value.nsRegister.Some? && spec.init.value.nsRegister.value.enabled == Some(false)
  }

  /** The same for the search-attribute job. */
  predicate SearchOff(spec: Spec) {
    spec.init.Some? && spec.init.value.searchAttr.Some? && spec.init.value.searchAttr.value.enabled == Some(false)
  }

  /** The init jobs that are not switched off have succeeded: by default, both. */
  predicate InitDone(w: World, spec: Spec) {
    && (!NsOff(spec) ==> Succeeds(w, KeyOf(NsRegister, spec.version)))
    && (!SearchOff(spec) ==> Succeeds(w, KeyOf(SearchAttr, spec.version)))
  }

  /** Version and init section are those of `spec`, now and in the reconcile in flight. */
  ghost predicate InitFixed(s: Sys, spec: Spec) {
    && s.w.cluster.spec.version == spec.version && s.w.cluster.spec.init == spec.init
    && (s.ctl.Busy? ==> s.ctl.r.c.spec.version == spec.version && s.ctl.r.c.spec.init == spec.init)
  }

  ghost predicate KeepsInit(a: Act, spec: Spec) {
    a.Outside? && a.e.EditSpec? ==> a.e.spec.version == spec.version && a.e.spec.init == spec.init
  }

  lemma InitStaysFixed(s: Sys, a: Act, spec: Spec)
    requires Inv(s) && InitFixed(s, spec) && KeepsInit(a, spec)
    ensures InitFixed(Apply(s, a), spec)
  {
    hide Step, Facts;
    if a.Call? && s.ctl.Busy? {
      StatusWrites(s.w, s.ctl.r, a.fails);
      StepFacts(s.w, s.ctl.r, a.fails);
    }
  }

  /** A reconcile persists a rollout phase only from one, or after it saw the init jobs complete. */
  lemma FactsGiveInit(b: Run)
    requires Facts(b) && Persistable(b) && RollingOut(b.upgrade)
    ensures RollingOut(b.c.status.upgrade) ||
            (InitSeen(b.c, NsRegister, b.h.seen) && InitSeen(b.c, SearchAttr, b.h.seen))
  {
    hide GateOpen, Own;
  }

  lemma {:induction false} ExecSees(s: Sys, acts: seq<Act>)
    requires Initial(s) && forall i :: 0 <= i < |acts| ==> NeverRemovesJobs(acts[i])
    ensures SeenInv(Exec(s, acts)) && DeleteInv(Exec(s, acts))
  {
    hide Apply, DeletesFailed, Succeeds;
    if acts != [] {
      ExecSees(s, acts[..|acts| - 1]);
      ApplyDeletes(Exec(s, acts[..|acts| - 1]), acts[|acts| - 1]);
      ApplySees(Exec(s, acts[..|acts| - 1]), acts[|acts| - 1]);
    }
  }

  /** In a rollout phase the enabled init jobs of the spec are complete. */
  ghost predicate InitHolds(s: Sys, spec: Spec) { RollingOut(RecordAt(s)) ==> InitDone(s.w, spec) }

  /**
   From FlowAPI on, the enabled init jobs are complete for as long as version and init section stay: the run may have
   begun with any edits, and version and init section have their last value from `mid` on, where no rollout was under
   way yet or its jobs were done.
   */
  lemma {:induction false} InitJobsStayDone(s: Sys, before: seq<Act>, acts: seq<Act>, spec: Spec)
    requires Initial(s) && forall i :: 0 <= i < |before| ==> NeverRemovesJobs(before[i])
    requires InitFixed(Exec(s, before), spec) && InitHolds(Exec(s, before), spec)
    requires forall i :: 0 <= i < |acts| ==> KeepsInit(acts[i], spec) && NeverRemovesJobs(acts[i])
    ensures var t := Exec(Exec(s, before), acts);
            InitFixed(t, spec) && SeenInv(t) && DeleteInv(t) && InitHolds(t, spec)
  {
    hide Apply, Facts, Succeeds, DeletesFailed, Persists;
    if acts == [] {
      ExecSees(s, before);
    } else {
      var rest, a := acts[..|acts| - 1], acts[|acts| - 1];
      var mid := Exec(Exec(s, before), rest);
      InitJobsStayDone(s, before, rest, spec);
      ExecInv(s, before);
      ExecInv(Exec(s, before), rest);
      ApplyInv(mid, a);
      ApplyDeletes(mid, a);
      ApplySees(mid, a);
      InitStaysFixed(mid, a, spec);
      if Persists(mid, a) && RollingOut(RecordAt(Apply(mid, a))) { PersistedInit(mid, a, spec); }
    }
  }

  lemma PersistedInit(s: Sys, a: Act, spec: Spec)
    requires Inv(s) && SeenInv(s) && InitFixed(s, spec) && Persists(s, a) && RollingOut(RecordAt(Apply(s, a)))
    ensures RollingOut(RecordAt(s)) || InitDone(s.w, spec)
  {
    hide Facts, Succeeds, Step;
    FactsGiveInit(s.ctl.r);
  }

  /** The jobs a call may create: an init job that is not switched off, or the maintenance job of the phase. */
  predicate MayCreate(b: Run, key: JobKey) {
    match key.family
    case NsRegister => !NsOff(b.c.spec) && key.tag == Sanitize(b.c.spec.version)
    case SearchAttr => !SearchOff(b.c.spec) && key.tag == Sanitize(b.c.spec.version)
    case MaintenanceStart => RecordPhase(b.c) == StartMaintenance && key.tag == Sanitize(b.c.spec.version)
    case MaintenanceEnd => RecordPhase(b.c) == EndMaintenance && key.tag == Sanitize(b.c.spec.version)
  }

  lemma PostCreates(w: World, b: Run, f: Family, m: Mode, key: JobKey)
    requires Facts(b) && (b.pc == JobPost(f, m) || b.pc == MaintPost(f)) && key == KeyFor(b, f)
    ensures MayCreate(b, key)
  {
    hide Sanitize, Successor, Record, Own, Earned;
  }

  /** Over every run: a job that appears by a call of the operator is of the version read, and wanted by the spec read. */
  lemma CreatedJobs(s: Sys, acts: seq<Act>, fails: bool, key: JobKey)
    requires Initial(s) && Exec(s, acts).ctl.Busy?
    requires key !in Exec(s, acts).w.jobs && key in Apply(Exec(s, acts), Call(fails)).w.jobs
    ensures MayCreate(Exec(s, acts).ctl.r, key)
  {
    hide Exec, Facts, MayCreate, Sanitize;
    ExecInv(s, acts);
    var t := Exec(s, acts);
    CallCreates(t.w, t.ctl.r, fails, key);
    match t.ctl.r.pc {
      case JobPost(f, m) => PostCreates(t.w, t.ctl.r, f, m, key);
      case MaintPost(f) => PostCreates(t.w, t.ctl.r, f, Std, key);
    }
  }

  // ----- when an upgrade is blocked -----

  /** The init jobs the driver has already visited in this reconcile. */
  predicate Visited(b: Run, f: Family) {
    match b.pc
    case JobGet(g, Upg) => f == NsRegister && g == SearchAttr
    case JobPost(g, Upg) => f == NsRegister && g == SearchAttr
    case JobDelete(g, Upg) => f == NsRegister && g == SearchAttr
    case FailedGet(_) => true
    case _ => false
  }

  predicate BlockedAt(u: Option<Upgrade>) { u.Some? && u.value.phase == Blocked }

  predicate FailedNow(w: World, b: Run, f: Family) {
    Enabled(b.c.spec, f) && KeyFor(b, f) in w.jobs && w.jobs[KeyFor(b, f)] == Failed
  }

  /** No visited job is failed, and Blocked is not about to be persisted. */
  predicate NoFailureSeen(w: World, b: Run) {
    && (Visited(b, NsRegister) ==> !FailedNow(w, b, NsRegister))
    && (Visited(b, SearchAttr) ==> !FailedNow(w, b, SearchAttr))
    && !BlockedAt(b.upgrade)
  }

  predicate Clear(b: Run, s: Sys) { s.ctl.Busy? ==> NoFailureSeen(s.w, s.ctl.r) }

  lemma StartsClear(w: World, b: Run, now: int)
    requires !BlockedAt(b.upgrade)
    ensures b.conds.catalogReady == Yes && b.conds.temporalReady == Yes ==> NoFailureSeen(w, WaitingPhase(b, now))
    ensures NoFailureSeen(w, UpgJobsStart(b))
  {
    hide MaintenanceWindow.InWindow;
  }

  lemma DriveClear(w: World, b: Run, now: int)
    requires b.conds.catalogReady == Yes && b.conds.temporalReady == Yes && !BlockedAt(b.upgrade)
    ensures NoFailureSeen(w, Drive(b, now))
  {
    hide WaitingPhase, UpgJobsStart, FailedNow;
    StartsClear(w, b.(conds := b.conds.(upgradeInProgress := Yes)), now);
  }

  lemma LifecycleClear(w: World, b: Run, now: int)
    requires b.conds.catalogReady == Yes && b.conds.temporalReady == Yes
    requires b.upgrade == b.c.status.upgrade && !BlockedAt(b.upgrade)
    ensures NoFailureSeen(w, Lifecycle(b, now))
  {
    hide Drive, FailedNow;
    var u := CurrentRecord(b.c);
    DriveClear(w, b.(upgrade := Some(if Opens(b.c) then Upgrade(u.to, b.c.spec.version, Waiting, Some(now)) else u)), now);
  }

  lemma PlainClear(w: World, b: Run, o: Plain, m: Mode)
    requires Facts(b) && !BlockedAt(b.c.status.upgrade) && NoFailureSeen(w, b)
    ensures b.pc == PlainGet(o, m) ==> Clear(b, PlainGetStep(w, b, o, m))
    ensures b.pc == PlainPut(o, m) ==> Clear(b, PlainPutStep(w, b, o, m))
  {
    hide Lifecycle, FailedNow, DesiredPlain, CurrentRecord, Opens;
    if b.pc == PlainGet(o, m) && o == ConfigMap { LifecycleClear(w, b, w.clock); }
    if b.pc == PlainPut(o, m) && o == ConfigMap {
      var s := PlainPutStep(w, b, o, m);
      LifecycleClear(s.w, Note(b, WrotePlain(o)), w.clock);
    }
  }

  lemma AfterJobClear(w: World, b: Run, f: Family, m: Mode)
    requires f == NsRegister || f == SearchAttr
    requires !BlockedAt(b.upgrade)
    requires m == Upg ==> !FailedNow(w, b, f) && (f == SearchAttr ==> !FailedNow(w, b, NsRegister))
    ensures NoFailureSeen(w, AfterJob(b, f, m))
  {
  }

  lemma JobGetClear(w: World, b: Run, f: Family, m: Mode)
    requires WellKeyed(b.pc) && NoFailureSeen(w, b) && b.pc == JobGet(f, m)
    ensures Clear(b, JobGetStep(w, b, f, m))
  {
    hide AfterJob;
    var key := KeyFor(b, f);
    if key in w.jobs {
      if w.jobs[key] == Succeeded { AfterJobClear(w, b.(h := b.h.(seen := b.h.seen + {key})), f, m); }
      if w.jobs[key] == Running { AfterJobClear(w, Wait(b.(initReady := false)), f, m); }
    }
  }

  lemma JobWriteClear(w: World, b: Run, f: Family, m: Mode)
    requires WellKeyed(b.pc) && NoFailureSeen(w, b)
    ensures b.pc == JobPost(f, m) ==> Clear(b, JobPostStep(w, b, f, m))
    ensures b.pc == JobDelete(f, m) ==> Clear(b, JobDeleteStep(w, b, f, m))
  {
    hide AfterJob;
    var key := KeyFor(b, f);
    if b.pc == JobPost(f, m) && key !in w.jobs {
      AfterJobClear(JobPostStep(w, b, f, m).w, Note(b, WroteJob(key)), f, m);
    } else if b.pc == JobDelete(f, m) {
      AfterJobClear(JobDeleteStep(w, b, f, m).w, Note(b.(initReady := false), WroteJob(key)), f, m);
    }
  }

  lemma FailedGetClear(w: World, b: Run, f: Family, fails: bool)
    requires WellKeyed(b.pc) && NoFailureSeen(w, b) && b.pc == FailedGet(f) && Enabled(b.c.spec, f)
    ensures Clear(b, FailedGetStep(w, b, f, fails))
  {
  }

  lemma MaintClear(w: World, b: Run, f: Family)
    requires NoFailureSeen(w, b) && b.pc == MaintGet(f)
    ensures Clear(b, MaintGetStep(w, b, f))
  {
    hide FailedNow;
  }

  lemma RolloutClear(w: World, b: Run, k: Component)
    requires NoFailureSeen(w, b) && b.pc == RolloutGet(k)
    ensures Clear(b, RolloutGetStep(w, b, k))
  {
    hide Build, LiveObject.RolledOut, FailedNow;
  }

  /** The remaining calls never turn to a failure check. */
  lemma OtherClear(w: World, b: Run, fails: bool)
    requires NoFailureSeen(w, b)
    requires !b.pc.PlainGet? && !b.pc.PlainPut? && !b.pc.JobGet? && !b.pc.JobPost? && !b.pc.JobDelete? && !b.pc.FailedGet?
             && !b.pc.MaintGet? && !b.pc.RolloutGet?
    ensures Clear(b, Step(w, b, fails))
  {
    hide ConfigHash.ClusterText, AfterPlain, AfterJob, FailedGetStep, Build, LabelsOf, LiveObject.UpToDate, LiveObject.Merge,
         LiveObject.RolledOut, DesiredPlain, CurrentRecord, Opens, FailedNow, PlainGetStep, PlainPutStep, JobGetStep,
         JobPostStep, JobDeleteStep, MaintGetStep, RolloutGetStep, FencedGetStep, DepGetStep, DepPostStep, DepPutStep;
    if b.pc.FencedGet? || b.pc.DepGet? || b.pc.DepPost? || b.pc.DepPut? { ComponentClear(w, b, fails); }
  }

  lemma ComponentClear(w: World, b: Run, fails: bool)
    requires NoFailureSeen(w, b) && (b.pc.FencedGet? || b.pc.DepGet? || b.pc.DepPost? || b.pc.DepPut?)
    ensures Clear(b, Step(w, b, fails))
  {
    hide Build, LabelsOf, LiveObject.UpToDate, LiveObject.Merge, FailedNow;
  }

  lemma StepClear(w: World, b: Run, fails: bool)
    requires Facts(b) && !BlockedAt(b.c.status.upgrade) && NoFailureSeen(w, b)
    ensures Clear(b, Step(w, b, fails))
  {
    hide AfterSecret, PlainGetStep, PlainPutStep, JobGetStep, JobPostStep, JobDeleteStep, FailedGetStep, MaintGetStep,
         MaintPostStep, MaintDeleteStep, DepGetStep, DepPostStep, DepPutStep, RolloutGetStep, FencedGetStep, NoFailureSeen;
    match b.pc {
      case PlainGet(o, m) => PlainClear(w, b, o, m);
      case PlainPut(o, m) => PlainClear(w, b, o, m);
      case JobGet(f, m) => JobGetClear(w, b, f, m);
      case JobPost(f, m) => JobWriteClear(w, b, f, m);
      case JobDelete(f, m) => JobWriteClear(w, b, f, m);
      case FailedGet(f) => FailedGetClear(w, b, f, fails);
      case MaintGet(f) => MaintClear(w, b, f);
      case RolloutGet(k) => RolloutClear(w, b, k);
      case _ => OtherClear(w, b, fails);
    }
  }

  /** Job f fails after the driver has looked at it, and before the failure check is over. */
  predicate FailsVisited(b: Run, e: Env, f: Family) {
    e == JobEnds(KeyFor(b, f), false) && Visited(b, f) && Enabled(b.c.spec, f)
  }

  lemma EnvClear(w: World, b: Run, e: Env)
    requires NoFailureSeen(w, b)
    ensures NoFailureSeen(ApplyEnv(w, e), b) || FailsVisited(b, e, NsRegister) || FailsVisited(b, e, SearchAttr)
  {
    hide Sanitize;
  }

  lemma BeginClear(w: World)
    requires !BlockedAt(w.cluster.status.upgrade)
    ensures NoFailureSeen(w, Begin(w))
  {
  }

  lemma NotBlocked(w: World, b: Run)
    requires NoFailureSeen(w, b)
    ensures !BlockedAt(b.upgrade)
  {
  }

  /** At i the reconcile in flight has visited job f, and the job fails. */
  ghost predicate RacesAt(s: Sys, acts: seq<Act>, i: nat, f: Family) {
    && i < |acts| && acts[i].Outside? && InFlight(s, acts, i)
    && Exec(s, acts[..i]).ctl.Busy? && FailsVisited(Exec(s, acts[..i]).ctl.r, acts[i].e, f)
  }

  /** A visited job is failed, or Blocked about to be persisted, only after such a race in the same reconcile. */
  lemma {:induction false} FailureInFlight(s: Sys, acts: seq<Act>) returns (i: nat, f: Family)
    requires Initial(s)
    requires var t := Exec(s, acts); t.ctl.Busy? && !BlockedAt(t.ctl.r.c.status.upgrade) && !NoFailureSeen(t.w, t.ctl.r)
    ensures RacesAt(s, acts, i, f)
  {
    hide Step, Facts, NoFailureSeen, ApplyEnv, FailsVisited;
    var before, a := acts[..|acts| - 1], acts[|acts| - 1];
    var t := Exec(s, before);
    ExecInv(s, before);
    if t.ctl.Idle? {
      BeginClear(t.w);
      assert false;
    } else {
      if a.Call? { StepFacts(t.w, t.ctl.r, a.fails); }
      if !NoFailureSeen(t.w, t.ctl.r) {
        i, f := FailureInFlight(s, before);
        RaceStays(s, acts, i, f);
      } else {
        if a.Call? { StepClear(t.w, t.ctl.r, a.fails); } else if a.Outside? { EnvClear(t.w, t.ctl.r, a.e); }
        i, f := |before|, if FailsVisited(t.ctl.r, a.e, NsRegister) then NsRegister else SearchAttr;
        assert acts[..i] == before && acts[..|acts|] == acts;
      }
    }
  }

  lemma RaceStays(s: Sys, acts: seq<Act>, i: nat, f: Family)
    requires acts != [] && Exec(s, acts).ctl.Busy? && RacesAt(s, acts[..|acts| - 1], i, f)
    ensures RacesAt(s, acts, i, f)
  {
    hide Exec, FailsVisited;
    var before := acts[..|acts| - 1];
    forall j | i <= j <= |acts| ensures Exec(s, acts[..j]).ctl.Busy? {
      if j < |acts| {
        assert before[..j] == acts[..j] && Exec(s, before[..j]).ctl.Busy?;
      } else {
        assert acts[..j] == acts;
      }
    }
    assert before[..i] == acts[..i];
  }

  /**
   When an upgrade is found blocked, act j persisted that, and the reconcile that did so had read it unblocked and met
   a race: at i, while it was in flight and between its two looks at job f, the job failed.
   */
  lemma {:induction false} BlockedNeedsARace(s: Sys, acts: seq<Act>) returns (i: nat, j: nat, f: Family)
    requires Initial(s) && BlockedAt(RecordAt(Exec(s, acts)))
    ensures i < j < |acts| && Persists(Exec(s, acts[..j]), acts[j]) && BlockedAt(Exec(s, acts[..j]).ctl.r.upgrade)
    ensures !BlockedAt(Exec(s, acts[..j]).ctl.r.c.status.upgrade) && RacesAt(s, acts[..j], i, f)
  {
    hide Apply, Facts, Persists, NoFailureSeen, RacesAt;
    var before := acts[..|acts| - 1];
    var t := Exec(s, before);
    if BlockedAt(RecordAt(t)) {
      i, j, f := BlockedNeedsARace(s, before);
      assert before[..j] == acts[..j];
    } else {
      ExecInv(s, before);
      ApplyInv(t, acts[|acts| - 1]);
      PersistsBlocked(t, acts[|acts| - 1]);
      i, f := FailureInFlight(s, before);
      j := |before|;
      assert acts[..j] == before;
      RaceIsEarlier(s, before, i, f);
    }
  }

  lemma RaceIsEarlier(s: Sys, acts: seq<Act>, i: nat, f: Family)
    requires RacesAt(s, acts, i, f)
    ensures i < |acts|
  {
  }

  lemma PersistsBlocked(s: Sys, a: Act)
    requires Inv(s) && Persists(s, a) && BlockedAt(RecordAt(Apply(s, a))) && !BlockedAt(RecordAt(s))
    ensures s.ctl.Busy? && BlockedAt(s.ctl.r.upgrade) && !BlockedAt(s.ctl.r.c.status.upgrade) && !NoFailureSeen(s.w, s.ctl.r)
  {
    hide Facts, Apply;
  }

  /** No job fails while a reconcile is in flight. */
  ghost predicate CalmRun(s: Sys, acts: seq<Act>) {
    forall i :: 0 <= i < |acts| && acts[i].Outside? && acts[i].e.JobEnds? && !acts[i].e.ok ==> Exec(s, acts[..i]).ctl.Idle?
  }

  lemma RaceIsNotCalm(s: Sys, acts: seq<Act>, j: nat, i: nat, f: Family)
    requires j <= |acts| && RacesAt(s, acts[..j], i, f)
    ensures !CalmRun(s, acts)
  {
    hide Exec;
    assert acts[..j][..i] == acts[..i];
  }

  /** Hence a run in which no job fails while a reconcile is in flight never blocks: failed init jobs are retried instead. */
  lemma CalmRunsNeverBlock(s: Sys, acts: seq<Act>)
    requires Initial(s) && CalmRun(s, acts)
    ensures !BlockedAt(RecordAt(Exec(s, acts)))
  {
    hide Apply, Exec, Persists;
    if BlockedAt(RecordAt(Exec(s, acts))) {
      var i, j, f := BlockedNeedsARace(s, acts);
      RaceIsNotCalm(s, acts, j, i, f);
      assert false;
    }
  }
}
