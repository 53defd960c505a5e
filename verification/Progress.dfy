/**
 Bounded progress. With the version fixed, the gate open and no fence, every completed reconcile of an upgrade
 waits for an unfinished job or rollout, or pays for itself out of a potential that only job failures refill:
 the number of reconciles that do not wait is bounded by a constant plus a constant per failure.
 */
module Progress {
  import opened Basics
  import opened JobNames
  import opened Model
  import opened ClusterMachine
  import opened ReconcileFacts
  import opened PhaseGraph
  import opened Jobs
  import ConfigHash
  import LiveObject
  import MaintenanceWindow

  // ----- the potential -----

  function PhaseRank(p: Phase): nat {
    match p
    case Complete => 0
    case EndMaintenance => 1
    case UI => 2
    case PeerDBServer => 3
    case FlowAPI => 4
    case InitJobs => 5
    case Config => 6
    case StartMaintenance => 7
    case Waiting => 8
    case Blocked => 9
  }

  /** The steps left of the record, and of the next one when this one goes to another version. */
  function RecordRank(u: Option<Upgrade>, v: string): nat {
    if u.None? then 0 else PhaseRank(u.value.phase) + if u.value.to == v then 0 else 10
  }

  function JobRank(w: World, key: JobKey): nat {
    if key !in w.jobs then 2
    else match w.jobs[key] case Running => 1 case Failed => 3 case Succeeded => 0
  }

  function JobsRank(w: World, v: string): nat {
    JobRank(w, KeyOf(NsRegister, v)) + JobRank(w, KeyOf(SearchAttr, v)) +
    JobRank(w, KeyOf(MaintenanceStart, v)) + JobRank(w, KeyOf(MaintenanceEnd, v))
  }

  /** A visited init job has failed, which may yet block the upgrade. */
  predicate Owes(w: World, b: Run) { !BlockedAt(b.c.status.upgrade) && !NoFailureSeen(w, b) }

  function RunRank(w: World, b: Run): nat { (if b.h.worked then 1 else 0) + (if Owes(w, b) then 5 else 0) }

  ghost function Potential(s: Sys, v: string): nat {
    RecordRank(RecordAt(s), v) + JobsRank(s.w, v) + if s.ctl.Busy? then RunRank(s.w, s.ctl.r) else 0
  }

  // ----- a reconcile that ends by waiting has a reason -----

  predicate Excused(h: History) { h.waited || h.worked }

  predicate Accounted(b: Run) {
    match b.pc
    case JobGet(_, Upg) => b.initReady || Excused(b.h)
    case JobDelete(_, Upg) => b.initReady || Excused(b.h)
    case FailedGet(_) => Excused(b.h)
    case StatusGet(false) => Excused(b.h)
    case StatusPut(false, _) => Excused(b.h)
    case _ => true
  }

  predicate Accounts(s: Sys) { s.ctl.Busy? ==> Accounted(s.ctl.r) }

  lemma AfterJobAccounted(b: Run, f: Family, m: Mode)
    requires m == Upg ==> b.initReady || Excused(b.h)
    ensures Accounted(AfterJob(b, f, m))
  {
  }

  lemma LifecycleAccounted(b: Run, now: int)
    requires GateOpen(b.c.spec, now) && !Fenced(b.c) && Untouched(b)
    requires b.conds.catalogReady == Yes && b.conds.temporalReady == Yes
    ensures Accounted(Lifecycle(b, now))
  {
    hide MaintenanceWindow.InWindow, Drive;
    var u := CurrentRecord(b.c);
    DriveAccounted(b.(upgrade := Some(if Opens(b.c) then Upgrade(u.to, b.c.spec.version, Waiting, Some(now)) else u)), now);
  }

  lemma DriveAccounted(b: Run, now: int)
    requires GateOpen(b.c.spec, now) && b.conds.catalogReady == Yes && b.conds.temporalReady == Yes
    ensures Accounted(Drive(b, now))
  {
    hide MaintenanceWindow.InWindow;
  }

  lemma PlainAccounted(w: World, b: Run, o: Plain, m: Mode)
    requires Facts(b) && !Fenced(b.c) && GateOpen(b.c.spec, w.clock)
    ensures b.pc == PlainGet(o, m) ==> Accounts(PlainGetStep(w, b, o, m))
    ensures b.pc == PlainPut(o, m) ==> Accounts(PlainPutStep(w, b, o, m))
  {
    hide Lifecycle, GateOpen, DesiredPlain, CurrentRecord, Opens;
    if o == ConfigMap && b.pc == PlainGet(o, m) { LifecycleAccounted(b, w.clock); }
    if o == ConfigMap && b.pc == PlainPut(o, m) { LifecycleAccounted(Note(b, WrotePlain(o)), w.clock); }
  }

  lemma JobAccounted(w: World, b: Run, f: Family, m: Mode)
    requires Accounted(b)
    ensures b.pc == JobGet(f, m) ==> Accounts(JobGetStep(w, b, f, m))
    ensures b.pc == JobPost(f, m) ==> Accounts(JobPostStep(w, b, f, m))
    ensures b.pc == JobDelete(f, m) ==> Accounts(JobDeleteStep(w, b, f, m))
  {
    hide AfterJob, Quiet, NewPass;
    var key := KeyFor(b, f);
    if b.pc == JobGet(f, m) {
      AfterJobAccounted(b.(h := b.h.(seen := b.h.seen + {key})), f, m);
      AfterJobAccounted(Wait(b.(initReady := false)), f, m);
    }
    AfterJobAccounted(Note(b, WroteJob(key)), f, m);
    AfterJobAccounted(Note(b.(initReady := false), WroteJob(key)), f, m);
  }

  lemma OtherAccounted(w: World, b: Run, fails: bool)
    requires Accounted(b)
    requires !b.pc.PlainGet? && !b.pc.PlainPut? && !b.pc.JobGet? && !b.pc.JobPost? && !b.pc.JobDelete?
    ensures Accounts(Step(w, b, fails))
  {
    hide ConfigHash.ClusterText, PlainGetStep, PlainPutStep, JobGetStep, JobPostStep, JobDeleteStep, Build, LabelsOf,
         LiveObject.RolledOut, LiveObject.UpToDate, LiveObject.Merge, Quiet, NewPass, DepGetStep, DepPostStep, DepPutStep,
         RolloutGetStep, MaintGetStep, FencedGetStep;
    if b.pc.DepGet? || b.pc.DepPost? || b.pc.DepPut? { DepAccounted(w, b, fails); }
    if b.pc.RolloutGet? || b.pc.MaintGet? || b.pc.FencedGet? { PhaseAccounted(w, b, fails); }
  }

  lemma PhaseAccounted(w: World, b: Run, fails: bool)
    requires b.pc.RolloutGet? || b.pc.MaintGet? || b.pc.FencedGet?
    ensures Accounts(Step(w, b, fails))
  {
    hide Build, LiveObject.RolledOut;
  }

  lemma DepAccounted(w: World, b: Run, fails: bool)
    requires b.pc.DepGet? || b.pc.DepPost? || b.pc.DepPut?
    ensures Accounts(Step(w, b, fails))
  {
    hide Build, LabelsOf, LiveObject.UpToDate, LiveObject.Merge;
  }

  lemma StepAccounted(w: World, b: Run, fails: bool)
    requires Facts(b) && Accounted(b) && !Fenced(b.c) && GateOpen(b.c.spec, w.clock)
    ensures Accounts(Step(w, b, fails))
  {
    hide AfterSecret, PlainGetStep, PlainPutStep, JobGetStep, JobPostStep, JobDeleteStep, FailedGetStep, MaintGetStep,
         MaintPostStep, MaintDeleteStep, DepGetStep, DepPostStep, DepPutStep, RolloutGetStep, FencedGetStep,
         Accounted, Facts, GateOpen;
    match b.pc {
      case PlainGet(o, m) => PlainAccounted(w, b, o, m);
      case PlainPut(o, m) => PlainAccounted(w, b, o, m);
      case JobGet(f, m) => JobAccounted(w, b, f, m);
      case JobPost(f, m) => JobAccounted(w, b, f, m);
      case JobDelete(f, m) => JobAccounted(w, b, f, m);
      case _ => OtherAccounted(w, b, fails);
    }
  }

  // ----- work on jobs is paid for by the rank of the jobs -----

  lemma PostRank(w: World, f: Family, v: string)
    requires KeyOf(f, v) !in w.jobs
    ensures JobsRank(w.(jobs := w.jobs[KeyOf(f, v) := Running]), v) + 1 == JobsRank(w, v)
  {
  }

  lemma DeleteRank(w: World, f: Family, v: string)
    requires KeyOf(f, v) in w.jobs ==> w.jobs[KeyOf(f, v)] == Failed
    ensures JobsRank(w.(jobs := w.jobs - {KeyOf(f, v)}), v) + (if KeyOf(f, v) in w.jobs then 1 else 0) == JobsRank(w, v)
  {
  }

  function WorkRank(s: Sys, v: string): nat {
    JobsRank(s.w, v) + if s.ctl.Busy? && s.ctl.r.h.worked then 1 else 0
  }

  /** The job about to be deleted is there: only the operator removes jobs. */
  predicate DeletesPresent(w: World, b: Run) {
    match b.pc
    case JobDelete(f, _) => KeyFor(b, f) in w.jobs && w.jobs[KeyFor(b, f)] == Failed
    case MaintDelete(f) => KeyFor(b, f) in w.jobs && w.jobs[KeyFor(b, f)] == Failed
    case _ => true
  }

  predicate Present(s: Sys) { s.ctl.Busy? ==> DeletesPresent(s.w, s.ctl.r) }

  lemma StepPresent(w: World, b: Run, fails: bool)
    ensures Present(Step(w, b, fails))
  {
    hide Step;
    StepReadsFailed(w, b, fails);
  }

  lemma WritesPayFor(w: World, b: Run, f: Family, m: Mode, v: string)
    requires b.c.spec.version == v && DeletesPresent(w, b)
    ensures b.pc == JobPost(f, m) ==> WorkRank(JobPostStep(w, b, f, m), v) <= WorkRank(Sys(w, Busy(b)), v)
    ensures b.pc == JobDelete(f, m) ==> WorkRank(JobDeleteStep(w, b, f, m), v) <= WorkRank(Sys(w, Busy(b)), v)
    ensures b.pc == MaintPost(f) ==> WorkRank(MaintPostStep(w, b, f), v) <= WorkRank(Sys(w, Busy(b)), v)
    ensures b.pc == MaintDelete(f) ==> WorkRank(MaintDeleteStep(w, b, f), v) <= WorkRank(Sys(w, Busy(b)), v)
  {
    hide AfterJob, JobsRank, Reads, NewPass;
    var key := KeyOf(f, v);
    if key !in w.jobs { PostRank(w, f, v); }
    if key in w.jobs && w.jobs[key] == Failed { DeleteRank(w, f, v); }
  }

  predicate NoJobWritten(w: World, b: Run, s: Sys) {
    s.w.jobs == w.jobs && (s.ctl.Busy? ==> s.ctl.r.h.worked == b.h.worked)
  }

  lemma DeploymentsWriteNoJob(w: World, b: Run, fails: bool)
    requires b.pc.DepGet? || b.pc.DepPost? || b.pc.DepPut? || b.pc.PlainGet? || b.pc.PlainPut? || b.pc.RolloutGet?
    ensures NoJobWritten(w, b, Step(w, b, fails))
  {
    hide AfterSecret, JobGetStep, JobPostStep, JobDeleteStep, FailedGetStep, MaintGetStep, MaintPostStep, MaintDeleteStep,
         FencedGetStep, StatusGetStep, StatusPutStep, AfterPlain, RolledOutPhase,
         Build, LabelsOf, LiveObject.UpToDate, LiveObject.Merge, LiveObject.RolledOut, DesiredPlain, Reads, NewPass;
  }

  lemma OthersWriteNoJob(w: World, b: Run, fails: bool)
    requires !b.pc.JobPost? && !b.pc.JobDelete? && !b.pc.MaintPost? && !b.pc.MaintDelete?
    ensures NoJobWritten(w, b, Step(w, b, fails))
  {
    hide ConfigHash.ClusterText, AfterPlain, AfterJob, FailuresDone, MaintenanceDone, RolledOutPhase, AfterFencedGet,
         DesiredPlain, Reads, NewPass, JobPostStep, JobDeleteStep, MaintPostStep, MaintDeleteStep,
         DepGetStep, DepPostStep, DepPutStep, PlainGetStep, PlainPutStep, RolloutGetStep;
    if b.pc.DepGet? || b.pc.DepPost? || b.pc.DepPut? || b.pc.PlainGet? || b.pc.PlainPut? || b.pc.RolloutGet? {
      DeploymentsWriteNoJob(w, b, fails);
    }
  }

  lemma StepWork(w: World, b: Run, fails: bool, v: string)
    requires b.c.spec.version == v && DeletesPresent(w, b)
    ensures WorkRank(Step(w, b, fails), v) <= WorkRank(Sys(w, Busy(b)), v)
  {
    hide AfterSecret, PlainGetStep, PlainPutStep, JobGetStep, JobPostStep, JobDeleteStep, FailedGetStep, MaintGetStep,
         MaintPostStep, MaintDeleteStep, DepGetStep, DepPostStep, DepPutStep, RolloutGetStep, FencedGetStep,
         StatusGetStep, StatusPutStep, DeletesPresent;
    match b.pc {
      case JobPost(f, m) => WritesPayFor(w, b, f, m, v);
      case JobDelete(f, m) => WritesPayFor(w, b, f, m, v);
      case MaintPost(f) => WritesPayFor(w, b, f, Std, v);
      case MaintDelete(f) => WritesPayFor(w, b, f, Std, v);
      case _ => OthersWriteNoJob(w, b, fails);
    }
  }

  // ----- what is persisted -----

  /** A persisted record never gains rank, except that entering Blocked costs what the failed job owes. */
  lemma PersistedRank(b: Run, v: string)
    requires Facts(b) && Persistable(b) && b.c.spec.version == v && !Fenced(b.c)
    ensures RecordRank(b.upgrade, v) <= RecordRank(b.c.status.upgrade, v)
            + if BlockedAt(b.upgrade) && !BlockedAt(b.c.status.upgrade) then 4 else 0
    ensures StageOf(b.pc) == Done && RecordPhase(b.c) != Complete ==>
              RecordRank(b.upgrade, v) < RecordRank(b.c.status.upgrade, v)
  {
    hide GateOpen, Own, Earned;
  }

  // ----- the bound -----

  /** The version is v, no fence is up and the gate is open, now and for the reconcile in flight. */
  ghost predicate Open(s: Sys, v: string) {
    && s.w.cluster.spec.version == v && !Fenced(s.w.cluster)
    && (s.ctl.Busy? ==> s.ctl.r.c.spec.version == v && !Fenced(s.ctl.r.c) && GateOpen(s.ctl.r.c.spec, s.w.clock))
  }

  ghost predicate Failure(a: Act) { a.Outside? && a.e.JobEnds? && !a.e.ok }

  /** The act ends a reconcile whose status is then the persisted one. */
  ghost predicate Completes(s: Sys, a: Act) {
    && s.ctl.Busy? && a == Call(false) && (s.ctl.r.pc.StatusGet? || s.ctl.r.pc.StatusPut?)
    && Apply(s, a).ctl.Idle? && Apply(s, a).w.cluster.status == StatusOf(s.ctl.r)
  }

  /** It was not held back: it went through to its end, or met no unfinished job or rollout. */
  ghost predicate Moves(s: Sys, a: Act) {
    Completes(s, a) && (StageOf(s.ctl.r.pc) == Done || !s.ctl.r.h.waited)
  }

  /** It was not held back while it worked on an upgrade. */
  ghost predicate CompletesUnhindered(s: Sys, a: Act) { Moves(s, a) && RecordPhase(s.ctl.r.c) != Complete }

  function OweRank(s: Sys): nat { if s.ctl.Busy? && Owes(s.w, s.ctl.r) then 5 else 0 }

  lemma PotentialSplits(s: Sys, v: string)
    ensures Potential(s, v) == RecordRank(RecordAt(s), v) + WorkRank(s, v) + OweRank(s)
  {
  }

  lemma StepOwes(w: World, b: Run, fails: bool)
    requires Facts(b)
    ensures OweRank(Step(w, b, fails)) <= OweRank(Sys(w, Busy(b)))
  {
    hide Step, NoFailureSeen, Facts;
    StepFacts(w, b, fails);
    if !BlockedAt(b.c.status.upgrade) && NoFailureSeen(w, b) { StepClear(w, b, fails); }
  }

  /** The last call of a reconcile: the status is written, found equal, or met a conflict. */
  lemma EndPotential(s: Sys, v: string)
    requires Inv(s) && Open(s, v) && Accounts(s) && s.ctl.Busy?
    requires s.ctl.r.pc.StatusPut? || s.ctl.r.pc.EarlyStatus? || s.ctl.r.pc.StatusGet?
    requires Apply(s, Call(false)).ctl.Idle?
    ensures (if CompletesUnhindered(s, Call(false)) then 1 else 0) + Potential(Apply(s, Call(false)), v) <= Potential(s, v)
  {
    hide Facts, RecordRank, GateOpen, RecordPhase, Step, Potential, WorkRank, OweRank, Accounted;
    var b, n := s.ctl.r, Apply(s, Call(false));
    StatusCall(s.w, b);
    PersistedRank(b, v);
    PotentialSplits(s, v);
    PotentialSplits(n, v);
    EndRanks(s, n, v);
    if !b.pc.EarlyStatus? { HeldOrDone(b); }
  }

  /** What is settled when a reconcile ends: its work, and what a failed job owes. */
  lemma EndRanks(s: Sys, n: Sys, v: string)
    requires s.ctl.Busy? && n.ctl.Idle? && n.w.jobs == s.w.jobs
    ensures WorkRank(n, v) + (if s.ctl.r.h.worked then 1 else 0) == WorkRank(s, v)
    ensures OweRank(n) + (if BlockedAt(s.ctl.r.upgrade) && !BlockedAt(s.ctl.r.c.status.upgrade) then 5 else 0) <= OweRank(s)
  {
    hide JobRank;
    if BlockedAt(s.ctl.r.upgrade) { BlockedOwes(s.w, s.ctl.r); }
    SameJobs(s.w, n.w, v);
  }

  lemma SameJobs(w: World, u: World, v: string)
    requires u.jobs == w.jobs
    ensures JobsRank(u, v) == JobsRank(w, v)
  {
  }

  /** What the calls on the status leave when they end the reconcile. */
  lemma StatusCall(w: World, b: Run)
    requires b.pc.StatusPut? || b.pc.EarlyStatus? || b.pc.StatusGet?
    ensures var n := Step(w, b, false);
            n.ctl.Idle? ==> n.w.jobs == w.jobs && (n.w.cluster.status == w.cluster.status || n.w.cluster.status == StatusOf(b))
  {
    hide ConfigHash.ClusterText;
  }

  lemma BlockedOwes(w: World, b: Run)
    requires BlockedAt(b.upgrade)
    ensures !BlockedAt(b.c.status.upgrade) ==> Owes(w, b)
  {
  }

  lemma HeldOrDone(b: Run)
    requires Facts(b) && (b.pc.StatusGet? || b.pc.StatusPut?)
    ensures StageOf(b.pc) == Done || (StageOf(b.pc) == Held && (Accounted(b) ==> Excused(b.h)))
  {
  }

  /** Any other call neither persists anything nor completes a reconcile. */
  lemma CallPotential(s: Sys, fails: bool, v: string)
    requires Inv(s) && Open(s, v) && Accounts(s) && Present(s) && s.ctl.Busy?
    ensures var n := Apply(s, Call(fails));
            && (if CompletesUnhindered(s, Call(fails)) then 1 else 0) + Potential(n, v) <= Potential(s, v)
            && Accounts(n) && Present(n)
  {
    hide Step, Facts, RecordRank, WorkRank, OweRank, Accounted, DeletesPresent, GateOpen, RecordPhase, Potential;
    var w, b := s.w, s.ctl.r;
    StepAccounted(w, b, fails);
    StepPresent(w, b, fails);
    var n := Apply(s, Call(fails));
    if !fails && n.ctl.Idle? && (b.pc.StatusPut? || b.pc.EarlyStatus? || b.pc.StatusGet?) {
      EndPotential(s, v);
    } else {
      StepWork(w, b, fails, v);
      StepOwes(w, b, fails);
      StatusWrites(w, b, fails);
      PotentialSplits(s, v);
      PotentialSplits(n, v);
    }
  }

  /** A job that ends well lowers the rank, one that fails adds two. */
  lemma EnvJobsRank(w: World, e: Env, v: string)
    requires !e.JobRemoved?
    ensures JobsRank(ApplyEnv(w, e), v) <= JobsRank(w, v) + if e.JobEnds? && !e.ok then 2 else 0
  {
    hide Sanitize;
  }

  lemma EnvPotential(s: Sys, e: Env, v: string)
    requires !e.JobRemoved?
    ensures Potential(Sys(ApplyEnv(s.w, e), s.ctl), v) <= Potential(s, v) + if e.JobEnds? && !e.ok then 7 else 0
  {
    hide NoFailureSeen, PhaseRank, JobsRank, ApplyEnv;
    EnvJobsRank(s.w, e, v);
    EnvKeepsStatus(s.w, e);
    if s.ctl.Busy? && NoFailureSeen(s.w, s.ctl.r) && !(e.JobEnds? && !e.ok) { EnvClear(s.w, s.ctl.r, e); }
  }

  lemma StartPotential(s: Sys, v: string)
    requires s.ctl.Idle?
    ensures Potential(Apply(s, Start), v) <= Potential(s, v)
  {
    hide NoFailureSeen, PhaseRank, JobRank;
    if !BlockedAt(s.w.cluster.status.upgrade) { BeginClear(s.w); }
  }

  lemma ApplyPotential(s: Sys, a: Act, v: string)
    requires Inv(s) && Open(s, v) && Accounts(s) && Present(s) && NeverRemovesJobs(a)
    ensures var n := Apply(s, a);
            && (if CompletesUnhindered(s, a) then 1 else 0) + Potential(n, v)
               <= Potential(s, v) + (if Failure(a) then 7 else 0)
            && Accounts(n) && Present(n)
  {
    hide Step, Facts, Open;
    match a {
      case Start => if s.ctl.Idle? { hide Potential; StartPotential(s, v); }
      case Call(fails) => if s.ctl.Busy? { hide Potential, Accounts, Present, CompletesUnhindered; CallPotential(s, fails, v); }
      case Crash =>
      case Outside(e) => EnvPotential(s, e, v);
    }
  }

  // ----- over runs -----

  ghost function Unhindered(s: Sys, acts: seq<Act>): nat {
    if acts == [] then 0
    else Unhindered(s, acts[..|acts| - 1]) + if CompletesUnhindered(Exec(s, acts[..|acts| - 1]), acts[|acts| - 1]) then 1 else 0
  }

  ghost function Failures(acts: seq<Act>): nat {
    if acts == [] then 0 else Failures(acts[..|acts| - 1]) + if Failure(acts[|acts| - 1]) then 1 else 0
  }

  ghost predicate OpenRun(s: Sys, acts: seq<Act>, v: string) {
    forall i :: 0 <= i < |acts| ==> Open(Exec(s, acts[..i]), v) && NeverRemovesJobs(acts[i])
  }

  lemma {:induction false} PotentialBound(s: Sys, acts: seq<Act>, v: string)
    requires Inv(s) && s.ctl.Idle? && OpenRun(s, acts, v)
    ensures Unhindered(s, acts) + Potential(Exec(s, acts), v) <= Potential(s, v) + 7 * Failures(acts)
    ensures Accounts(Exec(s, acts)) && Present(Exec(s, acts))
  {
    hide Apply, Potential, Inv, Accounts, Present, Open, CompletesUnhindered, Failure;
    if acts == [] {
      IdleAccounts(s);
    } else {
      var before, a := acts[..|acts| - 1], acts[|acts| - 1];
      var mid := Exec(s, before);
      forall i | 0 <= i < |before| ensures Open(Exec(s, before[..i]), v) && NeverRemovesJobs(before[i]) {
        assert before[..i] == acts[..i];
        assert Open(Exec(s, acts[..i]), v) && NeverRemovesJobs(acts[i]);
      }
      PotentialBound(s, before, v);
      ExecInv(s, before);
      assert Open(Exec(s, acts[..|before|]), v) && NeverRemovesJobs(acts[|before|]);
      ApplyPotential(mid, a, v);
    }
  }

  lemma IdleAccounts(s: Sys)
    requires s.ctl.Idle?
    ensures Accounts(s) && Present(s)
  {
  }

  lemma PotentialAtRest(s: Sys, v: string)
    requires s.ctl.Idle?
    ensures Potential(s, v) <= 31
  {
  }

  /**
   The main bound: however the reconciles, rollouts, job endings and crashes are interleaved, the reconciles that
   complete on an upgrade without being held back number at most 31 plus 7 for every job failure.
   */
  lemma BoundedProgress(s: Sys, acts: seq<Act>, v: string)
    requires Inv(s) && s.ctl.Idle? && OpenRun(s, acts, v)
    ensures Unhindered(s, acts) <= 31 + 7 * Failures(acts)
  {
    hide Potential, Inv, Accounts, Present;
    PotentialBound(s, acts, v);
    PotentialAtRest(s, v);
  }

  /** Completed reconciles that were not held back, on an upgrade or not. */
  ghost function NotWaiting(s: Sys, acts: seq<Act>): nat {
    if acts == [] then 0
    else
      var mid, a := Exec(s, acts[..|acts| - 1]), acts[|acts| - 1];
      NotWaiting(s, acts[..|acts| - 1]) + if Moves(mid, a) then 1 else 0
  }

  /** Reconcile i read the record complete and at version v. */
  ghost predicate FoundComplete(s: Sys, acts: seq<Act>, i: nat, v: string)
    requires i < |acts|
  {
    var at := Exec(s, acts[..i]);
    && Completes(at, acts[i])
    && CurrentRecord(at.ctl.r.c).phase == Complete && CurrentRecord(at.ctl.r.c).to == v
  }

  lemma {:induction false} AllOnUpgrades(s: Sys, acts: seq<Act>, v: string)
    requires OpenRun(s, acts, v)
    requires forall i :: 0 <= i < |acts| ==> !FoundComplete(s, acts, i, v)
    ensures NotWaiting(s, acts) == Unhindered(s, acts)
  {
    hide Apply, Exec;
    if acts != [] {
      var before, last := acts[..|acts| - 1], |acts| - 1;
      forall i | 0 <= i < |before|
        ensures Open(Exec(s, before[..i]), v) && NeverRemovesJobs(before[i]) && !FoundComplete(s, before, i, v)
      {
        assert before[..i] == acts[..i];
        assert Open(Exec(s, acts[..i]), v) && NeverRemovesJobs(acts[i]) && !FoundComplete(s, acts, i, v);
      }
      AllOnUpgrades(s, before, v);
      assert Open(Exec(s, acts[..last]), v) && !FoundComplete(s, acts, last, v);
    }
  }

  /** Hence a run with more reconciles that complete without waiting has reached Complete at spec.version. */
  lemma CompleteIsReached(s: Sys, acts: seq<Act>, v: string) returns (i: nat)
    requires Inv(s) && s.ctl.Idle? && OpenRun(s, acts, v)
    requires NotWaiting(s, acts) > 31 + 7 * Failures(acts)
    ensures i < |acts| && FoundComplete(s, acts, i, v)
  {
    hide Inv, OpenRun, NotWaiting, Unhindered;
    if forall i :: 0 <= i < |acts| ==> !FoundComplete(s, acts, i, v) {
      AllOnUpgrades(s, acts, v);
      BoundedProgress(s, acts, v);
      assert false;
    } else {
      i :| 0 <= i < |acts| && FoundComplete(s, acts, i, v);
    }
  }
}
