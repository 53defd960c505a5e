/**
 What every persisted status and every write promises: coherent conditions, the upgrade gate, the
 maintenance bracket, and which objects a reconcile may touch.
 */
module Guarantees {
  import opened Basics
  import opened JobNames
  import opened Model
  import opened ClusterMachine
  import opened ReconcileFacts
  import opened PhaseGraph
  import ConfigHash
  import LiveObject
  import MaintenanceWindow

  // ----- conditions -----

  /** UpgradeInProgress is True exactly while a record is in progress. */
  predicate Coherent(st: Status) {
    st.conditions.upgradeInProgress == Yes <==> Active(st.upgrade)
  }

  /** BackupSafe is True at most while no record is in progress, or while one waits at the gate. */
  predicate SafeForBackup(st: Status) {
    st.conditions.backupSafe == Yes ==> (Active(st.upgrade) ==> st.upgrade.value.phase == Waiting)
  }

  lemma FactsKeepConditions(b: Run)
    requires Facts(b) && Persistable(b)
    ensures Coherent(b.c.status) ==> Coherent(StatusOf(b))
    ensures SafeForBackup(b.c.status) ==> SafeForBackup(StatusOf(b))
  {
    hide Facts, StageOf;
    if b.pc.EarlyStatus? || StageOf(b.pc) == Held { HeldKeepsConditions(b); } else { DoneKeepsConditions(b); }
  }

  lemma HeldKeepsConditions(b: Run)
    requires Facts(b) && Persistable(b) && (b.pc.EarlyStatus? || StageOf(b.pc) == Held)
    ensures Coherent(b.c.status) ==> Coherent(StatusOf(b))
    ensures SafeForBackup(b.c.status) ==> SafeForBackup(StatusOf(b))
  {
    hide GateOpen, Own, Successor, Earned;
  }

  lemma DoneKeepsConditions(b: Run)
    requires Facts(b) && Persistable(b) && !b.pc.EarlyStatus? && StageOf(b.pc) != Held
    ensures Coherent(b.c.status) ==> Coherent(StatusOf(b))
    ensures SafeForBackup(b.c.status) ==> SafeForBackup(StatusOf(b))
  {
    hide GateOpen, Own, Earned;
  }

  /** Every status ever persisted has coherent conditions. */
  lemma {:induction false} ConditionsCohere(s: Sys, acts: seq<Act>)
    requires Initial(s)
    ensures Coherent(Exec(s, acts).w.cluster.status) && SafeForBackup(Exec(s, acts).w.cluster.status)
  {
    hide Apply, Facts, Coherent, SafeForBackup;
    if acts == [] {
      NewStatusCoheres();
    } else {
      var mid := Exec(s, acts[..|acts| - 1]);
      ConditionsCohere(s, acts[..|acts| - 1]);
      ExecInv(s, acts[..|acts| - 1]);
      ApplyInv(mid, acts[|acts| - 1]);
      if Persists(mid, acts[|acts| - 1]) { FactsKeepConditions(mid.ctl.r); }
    }
  }

  lemma NewStatusCoheres()
    ensures Coherent(NEW_STATUS) && SafeForBackup(NEW_STATUS)
  {
  }

  // ----- the log of a reconcile and the store -----

  predicate Differ<K, V(==)>(m: map<K, V>, n: map<K, V>, k: K) {
    !((k in m <==> k in n) && (k in m ==> m[k] == n[k]))
  }

  /** The object x names is created, changed or deleted between w and v. */
  predicate Changes(w: World, v: World, x: Written) {
    match x
    case WroteDep(k) => Differ(w.deps, v.deps, k)
    case WroteJob(key) => Differ(w.jobs, v.jobs, key)
    case WrotePlain(o) => Differ(w.plain, v.plain, o)
  }

  /** A call that changes an object is in the log, and the reconcile goes on. */
  predicate Logs(w: World, b: Run, s: Sys, x: Written) {
    && (Changes(w, s.w, x) ==> s.ctl.Busy? && x in s.ctl.r.h.writes)
    && (s.ctl.Busy? ==> b.h.writes <= s.ctl.r.h.writes)
  }

  lemma JobsLog(w: World, b: Run, f: Family, m: Mode, x: Written)
    ensures Logs(w, b, JobPostStep(w, b, f, m), x) && Logs(w, b, JobDeleteStep(w, b, f, m), x)
    ensures Logs(w, b, MaintPostStep(w, b, f), x) && Logs(w, b, MaintDeleteStep(w, b, f), x)
  {
    hide AfterJob, Reads, NewPass;
  }

  lemma PostLogs(w: World, b: Run, k: Component, m: Mode, x: Written)
    ensures Logs(w, b, DepPostStep(w, b, k, m), x)
  {
    hide Build, LabelsOf;
  }

  lemma PutLogs(w: World, b: Run, k: Component, m: Mode, read: LiveObject.Deployment, x: Written)
    ensures Logs(w, b, DepPutStep(w, b, k, m, read), x)
  {
    hide Build, LabelsOf, LiveObject.Merge;
  }

  lemma PlainLogs(w: World, b: Run, o: Plain, m: Mode, x: Written)
    ensures Logs(w, b, PlainPutStep(w, b, o, m), x)
  {
    hide AfterPlain, DesiredPlain, Reads;
  }

  lemma ReadsLog(w: World, b: Run, fails: bool, x: Written)
    requires Reads(b.pc)
    ensures Logs(w, b, Step(w, b, fails), x)
  {
    hide Step, Reads;
    ReadsOnly(w, b, fails);
    ReadsKeepLog(w, b, fails);
  }

  lemma ReadsKeepLog(w: World, b: Run, fails: bool)
    requires Reads(b.pc)
    ensures var s := Step(w, b, fails); s.ctl.Busy? ==> s.ctl.r.h.writes == b.h.writes
  {
    hide ConfigHash.ClusterText, AfterPlain, AfterJob, FailuresDone, MaintenanceDone, RolledOutPhase, AfterFencedGet,
         Build, LiveObject.UpToDate, LiveObject.RolledOut, DesiredPlain, NewPass, JobPostStep, JobDeleteStep, MaintPostStep,
         MaintDeleteStep, DepPostStep, DepPutStep, PlainPutStep;
  }

  /** Whatever a call creates, changes or deletes is logged, for every kind of object. */
  lemma StepLogs(w: World, b: Run, fails: bool, x: Written)
    ensures Logs(w, b, Step(w, b, fails), x)
  {
    hide AfterSecret, PlainGetStep, PlainPutStep, JobGetStep, JobPostStep, JobDeleteStep, FailedGetStep, MaintGetStep,
         MaintPostStep, MaintDeleteStep, DepGetStep, DepPostStep, DepPutStep, RolloutGetStep, FencedGetStep, StatusGetStep;
    match b.pc {
      case PlainPut(o, m) => PlainLogs(w, b, o, m, x);
      case JobPost(f, m) => JobsLog(w, b, f, m, x);
      case JobDelete(f, m) => JobsLog(w, b, f, m, x);
      case MaintPost(f) => JobsLog(w, b, f, Std, x);
      case MaintDelete(f) => JobsLog(w, b, f, Std, x);
      case DepPost(k, m) => PostLogs(w, b, k, m, x);
      case DepPut(k, m, read) => PutLogs(w, b, k, m, read, x);
      case StatusPut(_, _) =>
      case EarlyStatus =>
      case _ => ReadsLog(w, b, fails, x);
    }
  }

  /** What a reconcile in flight changed by its call at i is in its log ever after. */
  lemma {:induction false} ChangesAreLogged(s: Sys, acts: seq<Act>, i: nat, x: Written)
    requires i < |acts| && acts[i].Call? && InFlight(s, acts, i)
    requires Changes(Exec(s, acts[..i]).w, Exec(s, acts[..i + 1]).w, x)
    ensures Exec(s, acts).ctl.Busy? && x in Exec(s, acts).ctl.r.h.writes
  {
    hide Step, Changes;
    assert acts[..|acts|] == acts && Exec(s, acts[..|acts|]).ctl.Busy?;
    var before, a := acts[..|acts| - 1], acts[|acts| - 1];
    var t := Exec(s, before);
    if a.Call? && t.ctl.Busy? { StepLogs(t.w, t.ctl.r, a.fails, x); }
    if i < |before| {
      assert before[..i] == acts[..i] && before[..i + 1] == acts[..i + 1];
      forall l | i <= l <= |before| ensures Exec(s, before[..l]).ctl.Busy? {
        assert before[..l] == acts[..l] && Exec(s, acts[..l]).ctl.Busy?;
      }
      ChangesAreLogged(s, before, i, x);
    } else {
      assert acts[..i] == before && Exec(s, acts[..i]).ctl.Busy?;
    }
  }

  // ----- the upgrade gate -----

  predicate Gated(b: Run) { b.h.gate.Some? && GateOpen(b.c.spec, b.h.gate.value) }

  /** Deployment, Service or Job, as opposed to what every reconcile writes. */
  predicate Guarded(x: Written) { x !in ALWAYS }

  /**
   The gate guards the store. When a reconcile that read Waiting, or Complete with a changed version, changes a
   Deployment, Service or Job, or persists a phase past Waiting, then it found the policy automatic and the window
   open at a moment of the run since it began, which j names.
   */
  lemma GateGuards(s: Sys, acts: seq<Act>, fails: bool, x: Written) returns (j: nat)
    requires Initial(s)
    requires var t := Exec(s, acts); t.ctl.Busy? && RecordPhase(t.ctl.r.c) == Waiting
    requires var t := Exec(s, acts); var n := Apply(t, Call(fails));
             (Guarded(x) && Changes(t.w, n.w, x)) ||
             (RecordAt(n) != RecordAt(t) && Active(RecordAt(n)) && RecordAt(n).value.phase != Waiting)
    ensures j <= |acts| && GateOpen(Exec(s, acts).ctl.r.c.spec, Exec(s, acts[..j]).w.clock) && InFlight(s, acts, j)
  {
    hide Exec, Facts, Changes, GateOpen, Step;
    ExecInv(s, acts);
    var t := Exec(s, acts);
    var n := Apply(t, Call(fails));
    ApplyInv(t, Call(fails));
    StepFacts(t.w, t.ctl.r, fails);
    if Changes(t.w, n.w, x) {
      StepLogs(t.w, t.ctl.r, fails, x);
      StepGate(t.w, t.ctl.r, fails);
      FactsGiveGate(n.ctl.r);
      var more := acts + [Call(fails)];
      assert more[..|acts|] == acts;
      assert Exec(s, more) == n by { ExecLast(s, more); }
      j := GateMoment(s, more, n.ctl.r);
      assert more[..j] == acts[..j];
      forall i | j <= i <= |acts| ensures Exec(s, acts[..i]).ctl.Busy? {
        assert more[..i] == acts[..i] && Exec(s, more[..i]).ctl.Busy?;
      }
    } else {
      FactsGiveGate(t.ctl.r);
      j := GateMoment(s, acts, t.ctl.r);
    }
  }

  lemma ExecLast(s: Sys, acts: seq<Act>)
    requires acts != []
    ensures Exec(s, acts) == Apply(Exec(s, acts[..|acts| - 1]), acts[|acts| - 1])
  {
  }

  /** The gate recorded by a reconcile is the clock of the call that passed it. */
  predicate GateAt(w: World, b: Run, s: Sys) {
    s.ctl.Busy? ==> s.ctl.r.c == b.c && (s.ctl.r.h.gate == b.h.gate || s.ctl.r.h.gate == Some(w.clock))
  }

  lemma PlainGate(w: World, b: Run, o: Plain, m: Mode)
    ensures GateAt(w, b, PlainGetStep(w, b, o, m)) && GateAt(w, b, PlainPutStep(w, b, o, m))
  {
    hide AfterPlain, DesiredPlain, Reads;
  }

  lemma DeploymentGate(w: World, b: Run, fails: bool)
    requires b.pc.DepGet? || b.pc.DepPost? || b.pc.DepPut? || b.pc.RolloutGet?
    ensures GateAt(w, b, Step(w, b, fails))
  {
    hide RolledOutPhase, Build, LabelsOf, LiveObject.UpToDate, LiveObject.Merge, LiveObject.RolledOut, Reads, NewPass;
  }

  lemma StepGate(w: World, b: Run, fails: bool)
    ensures GateAt(w, b, Step(w, b, fails))
  {
    hide ConfigHash.ClusterText, AfterJob, FailuresDone, MaintenanceDone, AfterFencedGet, DesiredPlain, NewPass, Reads,
         PlainGetStep, PlainPutStep, DepGetStep, DepPostStep, DepPutStep, RolloutGetStep;
    match b.pc {
      case PlainGet(o, m) => PlainGate(w, b, o, m);
      case PlainPut(o, m) => PlainGate(w, b, o, m);
      case DepGet(_, _) => DeploymentGate(w, b, fails);
      case DepPost(_, _) => DeploymentGate(w, b, fails);
      case DepPut(_, _, _) => DeploymentGate(w, b, fails);
      case RolloutGet(_) => DeploymentGate(w, b, fails);
      case _ =>
    }
  }

  lemma {:induction false} GateMoment(s: Sys, acts: seq<Act>, b: Run) returns (j: nat)
    requires s.ctl.Idle? && Exec(s, acts).ctl == Busy(b) && b.h.gate.Some?
    ensures j < |acts| && Exec(s, acts[..j]).w.clock == b.h.gate.value && InFlight(s, acts, j)
  {
    hide Step;
    var before, a := acts[..|acts| - 1], acts[|acts| - 1];
    var t := Exec(s, before);
    if a.Call? {
      StepGate(t.w, t.ctl.r, a.fails);
      if b.h.gate == Some(t.w.clock) {
        assert acts[..|acts|] == acts;
        return |before|;
      }
    }
    j := GateMoment(s, before, t.ctl.r);
    assert before[..j] == acts[..j];
    forall i | j <= i <= |acts| ensures Exec(s, acts[..i]).ctl.Busy? {
      if i <= |before| { assert before[..i] == acts[..i] && Exec(s, before[..i]).ctl.Busy?; } else { assert acts[..i] == acts; }
    }
  }

  lemma FactsGiveGate(b: Run)
    requires Facts(b) && RecordPhase(b.c) == Waiting
    ensures !(b.h.writes <= ALWAYS) ==> Gated(b)
    ensures Persistable(b) && Active(b.upgrade) && b.upgrade.value.phase != Waiting ==> Gated(b)
  {
    hide GateOpen;
  }

  /** In every other phase the driver does the same whatever the clock, the policy and the window say. */
  lemma LaterPhasesIgnoreTheGate(b: Run, now: int, spec: Spec, later: int)
    requires b.upgrade.Some? && b.upgrade.value.phase != Waiting
    requires spec == b.c.spec.(policy := spec.policy, window := spec.window)
    ensures var c := b.c.(spec := spec);
            Drive(b.(c := c), later) == Drive(b, now).(c := c)
  {
    hide MaintenanceWindow.InWindow;
    assert FirstJob(spec) == FirstJob(b.c.spec);
  }

  // ----- the maintenance bracket -----

  /** MaintenanceMode is True from Config to EndMaintenance and in Blocked, and not True outside an upgrade. */
  predicate Bracketed(st: Status) {
    && (Active(st.upgrade) && st.upgrade.value.phase != Waiting && st.upgrade.value.phase != StartMaintenance
        ==> st.conditions.maintenanceMode == Yes)
    && (!Active(st.upgrade) ==> st.conditions.maintenanceMode != Yes)
  }

  lemma FactsKeepBracket(b: Run)
    requires Facts(b) && Persistable(b) && b.c.spec.maintenance && Bracketed(b.c.status)
    ensures Bracketed(StatusOf(b))
  {
    hide Facts, StageOf;
    if b.pc.EarlyStatus? || StageOf(b.pc) == Held { HeldKeepsBracket(b); } else { DoneKeepsBracket(b); }
  }

  lemma HeldKeepsBracket(b: Run)
    requires Facts(b) && Persistable(b) && b.c.spec.maintenance && Bracketed(b.c.status)
    requires b.pc.EarlyStatus? || StageOf(b.pc) == Held
    ensures Bracketed(StatusOf(b))
  {
    hide GateOpen, Own, Earned, Successor;
  }

  lemma DoneKeepsBracket(b: Run)
    requires Facts(b) && Persistable(b) && b.c.spec.maintenance && Bracketed(b.c.status)
    requires !b.pc.EarlyStatus? && StageOf(b.pc) != Held
    ensures Bracketed(StatusOf(b))
  {
    hide GateOpen, Own, Earned;
  }

  /** spec.maintenance has the value m now, in the reconcile in flight, and after every edit of the run. */
  ghost predicate Maintains(s: Sys, m: bool) {
    s.w.cluster.spec.maintenance == m && (s.ctl.Busy? ==> s.ctl.r.c.spec.maintenance == m)
  }

  ghost predicate KeepsMaintenance(a: Act, m: bool) {
    a.Outside? && a.e.EditSpec? ==> a.e.spec.maintenance == m
  }

  lemma MaintainsStays(s: Sys, a: Act, m: bool)
    requires Inv(s) && Maintains(s, m) && KeepsMaintenance(a, m)
    ensures Maintains(Apply(s, a), m)
  {
    hide Step, Facts;
    if a.Call? && s.ctl.Busy? {
      StatusWrites(s.w, s.ctl.r, a.fails);
      StepFacts(s.w, s.ctl.r, a.fails);
    }
  }

  /** While maintenance stays configured, every persisted status brackets the rollout. */
  lemma {:induction false} MaintenanceBracket(s: Sys, acts: seq<Act>)
    requires Initial(s) && Maintains(s, true)
    requires forall i :: 0 <= i < |acts| ==> KeepsMaintenance(acts[i], true)
    ensures Bracketed(Exec(s, acts).w.cluster.status) && Maintains(Exec(s, acts), true)
  {
    hide Apply, Facts, Bracketed, Maintains;
    if acts == [] {
      NewStatusBracketed();
    } else {
      var mid, a := Exec(s, acts[..|acts| - 1]), acts[|acts| - 1];
      MaintenanceBracket(s, acts[..|acts| - 1]);
      ExecInv(s, acts[..|acts| - 1]);
      ApplyInv(mid, a);
      MaintainsStays(mid, a, true);
      if Persists(mid, a) {
        MaintainedRun(mid);
        FactsKeepBracket(mid.ctl.r);
      }
    }
  }

  lemma NewStatusBracketed()
    ensures Bracketed(NEW_STATUS)
  {
  }

  lemma MaintainedRun(s: Sys)
    requires s.ctl.Busy? && Maintains(s, true)
    ensures s.ctl.r.c.spec.maintenance
  {
  }

  /** The reconcile that made act i had read the version's job of family f complete. */
  ghost predicate SawComplete(s: Sys, acts: seq<Act>, i: nat, f: Family)
    requires i < |acts|
  {
    var at := Exec(s, acts[..i]);
    && Persists(at, acts[i])
    && KeyOf(f, at.ctl.r.c.spec.version) in at.ctl.r.h.seen
  }

  /** With maintenance configured, Config is entered from StartMaintenance and Complete from EndMaintenance, each by a
      reconcile that saw the job complete. */
  lemma MaintainedStep(s: Sys, a: Act)
    requires Inv(s) && Maintains(s, true)
    ensures var u, v := RecordAt(s), RecordAt(Apply(s, a));
            u != v && v.Some? ==>
              && (v.value.phase == Config ==>
                    Active(u) && u.value.phase == StartMaintenance && Persists(s, a)
                    && KeyOf(MaintenanceStart, s.ctl.r.c.spec.version) in s.ctl.r.h.seen)
              && (v.value.phase == Complete && Active(u) ==>
                    u.value.phase == EndMaintenance && Persists(s, a)
                    && KeyOf(MaintenanceEnd, s.ctl.r.c.spec.version) in s.ctl.r.h.seen)
  {
    hide Apply, Step;
    ApplyInv(s, a);
    if RecordAt(s) != RecordAt(Apply(s, a)) { FactsGiveEarned(s.ctl.r); }
  }

  lemma FactsGiveEarned(b: Run)
    requires Facts(b) && Persistable(b) && b.c.spec.maintenance && b.upgrade.Some? && b.upgrade != b.c.status.upgrade
    ensures b.upgrade.value.phase == Config ==>
              Active(b.c.status.upgrade) && b.c.status.upgrade.value.phase == StartMaintenance
              && KeyOf(MaintenanceStart, b.c.spec.version) in b.h.seen
    ensures b.upgrade.value.phase == Complete && Active(b.c.status.upgrade) ==>
              b.c.status.upgrade.value.phase == EndMaintenance
              && KeyOf(MaintenanceEnd, b.c.spec.version) in b.h.seen
  {
    hide GateOpen, Own;
  }

  /** The last entry into phase p before k, seen from inside the record. */
  lemma {:induction false} EntryBefore(t: seq<Option<Upgrade>>, j: nat, k: nat, p: Phase) returns (i: nat)
    requires FollowsGraph(t) && Span(t, j, k) && In(t, k, p) && p != Complete
    ensures j <= i < k && !In(t, i, p) && In(t, i + 1, p) && (j < i ==> Active(t[i]))
  {
    if k - 1 > j && In(t, k - 1, p) { i := EntryBefore(t, j, k - 1, p); } else { i := k - 1; }
  }

  /**
   With maintenance configured throughout, a record becomes Complete only after a reconcile had read the start
   job complete and, later, another one the end job: acts x and k - 1 persist what they found.
   */
  lemma MaintenanceJobsRan(s: Sys, acts: seq<Act>, j: nat, k: nat) returns (x: nat)
    requires Initial(s) && Maintains(s, true)
    requires forall i :: 0 <= i < |acts| ==> KeepsMaintenance(acts[i], true)
    requires Span(Trail(s, acts), j, k) && j + 1 < k && In(Trail(s, acts), k, Complete)
    ensures j < x < k - 1
    ensures var t := Trail(s, acts); In(t, x, StartMaintenance) && In(t, x + 1, Config) && In(t, k - 1, EndMaintenance)
    ensures SawComplete(s, acts, x, MaintenanceStart) && SawComplete(s, acts, k - 1, MaintenanceEnd)
  {
    hide Edge, Apply, Maintains, Facts, Persists, Exec;
    var t := Trail(s, acts);
    var c, _, _, _, u := UpgradeOrder(s, acts, j, k);
    RunsFollowTheGraph(s, acts);
    x := EntryBefore(t, j, c, Config);
    MaintainedAt(s, acts, x);
    MaintainedAt(s, acts, k - 1);
  }

  lemma MaintainedAt(s: Sys, acts: seq<Act>, i: nat)
    requires Initial(s) && Maintains(s, true) && i < |acts|
    requires forall i :: 0 <= i < |acts| ==> KeepsMaintenance(acts[i], true)
    ensures var t := Trail(s, acts);
            t[i] != t[i + 1] && t[i + 1].Some? ==>
              && (t[i + 1].value.phase == Config ==> In(t, i, StartMaintenance) && SawComplete(s, acts, i, MaintenanceStart))
              && (t[i + 1].value.phase == Complete && Active(t[i]) ==>
                    In(t, i, EndMaintenance) && SawComplete(s, acts, i, MaintenanceEnd))
  {
    hide Apply, Maintains, Facts;
    TrailAt(s, acts, i);
    TrailAt(s, acts, i + 1);
    assert acts[..i + 1][..i] == acts[..i];
    MaintenanceBracket(s, acts[..i]);
    ExecInv(s, acts[..i]);
    MaintainedStep(Exec(s, acts[..i]), acts[i]);
  }

  lemma {:induction false} TrailAt(s: Sys, acts: seq<Act>, i: nat)
    requires i <= |acts|
    ensures Trail(s, acts)[i] == RecordAt(Exec(s, acts[..i]))
  {
    hide Exec;
    if i < |acts| {
      TrailAt(s, acts[..|acts| - 1], i);
      assert acts[..|acts| - 1][..i] == acts[..i];
    } else {
      assert acts[..i] == acts;
    }
  }

  // ----- without maintenance -----

  predicate Maintenance(f: Family) { f == MaintenanceStart || f == MaintenanceEnd }

  predicate Unmaintained(u: Option<Upgrade>) {
    u.None? || (u.value.phase != StartMaintenance && u.value.phase != EndMaintenance)
  }

  lemma FactsKeepUnmaintained(b: Run)
    requires Facts(b) && !b.c.spec.maintenance && Unmaintained(b.c.status.upgrade)
    ensures Persistable(b) ==> Unmaintained(b.upgrade)
    ensures !b.pc.MaintPost?
  {
    hide GateOpen, Own;
  }

  lemma JobsCreated(w: World, b: Run, fails: bool, key: JobKey)
    requires Facts(b) && key !in w.jobs && key in Step(w, b, fails).w.jobs
    ensures b.pc.MaintPost? || !Maintenance(key.family)
  {
    hide Step, Facts;
    CallCreates(w, b, fails, key);
    if b.pc.JobPost? { InitFamily(b); }
  }

  lemma InitFamily(b: Run)
    requires Facts(b) && b.pc.JobPost?
    ensures !Maintenance(b.pc.f)
  {
  }

  /** While maintenance is never configured, no maintenance job is created and no maintenance phase entered. */
  lemma {:induction false} NoMaintenanceNoJobs(s: Sys, acts: seq<Act>, key: JobKey)
    requires Initial(s) && Maintains(s, false) && Maintenance(key.family) && key !in s.w.jobs
    requires forall i :: 0 <= i < |acts| ==> KeepsMaintenance(acts[i], false)
    ensures key !in Exec(s, acts).w.jobs && Unmaintained(RecordAt(Exec(s, acts))) && Maintains(Exec(s, acts), false)
  {
    hide Step, Facts, Persists;
    if acts != [] {
      var mid, a := Exec(s, acts[..|acts| - 1]), acts[|acts| - 1];
      NoMaintenanceNoJobs(s, acts[..|acts| - 1], key);
      ExecInv(s, acts[..|acts| - 1]);
      ApplyInv(mid, a);
      MaintainsStays(mid, a, false);
      if mid.ctl.Busy? {
        FactsKeepUnmaintained(mid.ctl.r);
        if a.Call? && key in Step(mid.w, mid.ctl.r, a.fails).w.jobs { JobsCreated(mid.w, mid.ctl.r, a.fails, key); }
      }
      if Persists(mid, a) { PersistsWhat(mid, a); }
    }
  }

  lemma PersistsWhat(s: Sys, a: Act)
    requires Persists(s, a)
    ensures Persistable(s.ctl.r) && RecordAt(Apply(s, a)) == s.ctl.r.upgrade
  {
  }

  // ----- write sets -----

  /**
   What a reconcile changes in the store: if it is to end by waiting in a phase, everything it created, changed or
   deleted by any of its calls is the ServiceAccount, the ConfigMap or one of that phase's own objects; if it read a
   fence, it is one of the first two.
   */
  lemma WriteSets(s: Sys, acts: seq<Act>, i: nat, x: Written)
    requires Initial(s) && i < |acts| && acts[i].Call? && InFlight(s, acts, i)
    requires Changes(Exec(s, acts[..i]).w, Exec(s, acts[..i + 1]).w, x)
    ensures Exec(s, acts).ctl.Busy?
    ensures var b := Exec(s, acts).ctl.r;
            && (StageOf(b.pc) == Held ==> x in ALWAYS + Own(b.c, RecordPhase(b.c)))
            && (Fenced(b.c) ==> x in ALWAYS)
  {
    hide Exec, Changes, Facts;
    ExecInv(s, acts);
    ChangesAreLogged(s, acts, i, x);
    FactsGiveWrites(Exec(s, acts).ctl.r);
  }

  lemma FactsGiveWrites(b: Run)
    requires Facts(b)
    ensures StageOf(b.pc) == Held ==> b.h.writes <= ALWAYS + Own(b.c, RecordPhase(b.c))
    ensures Fenced(b.c) ==> b.h.writes <= ALWAYS
  {
    hide GateOpen, Own;
  }

  /** While the driver works on a component's Deployment and Service, the persisted phase is that component's. */
  lemma DriverWritesInPhase(s: Sys, acts: seq<Act>, k: Component)
    requires Initial(s)
    ensures var t := Exec(s, acts);
            t.ctl.Busy? && StageOf(t.ctl.r.pc) == Driver(ComponentPhase(k)) ==>
              Active(RecordAt(t)) && RecordAt(t).value.phase == ComponentPhase(k) && !Fenced(t.ctl.r.c)
  {
    hide GateOpen, Own;
    ExecInv(s, acts);
  }

  /** The last moment before k at which no record was in progress. */
  lemma {:induction false} SpanBefore(t: seq<Option<Upgrade>>, k: nat) returns (j: nat)
    requires 0 < k < |t| && !Active(t[0]) && Active(t[k])
    ensures Span(t, j, k)
  {
    if Active(t[k - 1]) { j := SpanBefore(t, k - 1); } else { j := k - 1; }
  }

  /**
   The order of the driver: while it works on component k, the record that opened after j has persisted Config, then
   InitJobs, then the phase of every component before k.
   */
  lemma DriverOrder(s: Sys, acts: seq<Act>, k: Component) returns (j: nat, c: nat, i: nat, a: nat, v: nat)
    requires Initial(s)
    requires var t := Exec(s, acts); t.ctl.Busy? && StageOf(t.ctl.r.pc) == Driver(ComponentPhase(k))
    ensures var t := Trail(s, acts);
            && Span(t, j, |acts|) && j < c < i < |acts| && In(t, c, Config) && In(t, i, InitJobs)
            && (k != Api ==> i < a < |acts| && In(t, a, FlowAPI))
            && (k == Ui ==> a < v < |acts| && In(t, v, PeerDBServer))
  {
    hide Edge, Exec, Facts;
    DriverWritesInPhase(s, acts, k);
    RunsFollowTheGraph(s, acts);
    var t := Trail(s, acts);
    NothingRecorded(s, acts);
    j := SpanBefore(t, |acts|);
    a, v := |acts|, |acts|;
    if k == Ui { v := PhaseBefore(t, j, |acts|, UI, PeerDBServer); }
    if k != Api { a := PhaseBefore(t, j, v, PeerDBServer, FlowAPI); }
    i := PhaseBefore(t, j, a, FlowAPI, InitJobs);
    c := PhaseBefore(t, j, i, InitJobs, Config);
  }

  lemma NothingRecorded(s: Sys, acts: seq<Act>)
    requires Initial(s)
    ensures Trail(s, acts)[0].None? && (Active(RecordAt(Exec(s, acts))) ==> acts != [])
  {
    TrailAt(s, acts, 0);
  }

  /** With maintenance configured throughout, a reconcile had moreover read the start job complete before Config. */
  lemma MaintainedDriverOrder(s: Sys, acts: seq<Act>, k: Component) returns (j: nat, x: nat, c: nat)
    requires Initial(s) && Maintains(s, true)
    requires forall i :: 0 <= i < |acts| ==> KeepsMaintenance(acts[i], true)
    requires var t := Exec(s, acts); t.ctl.Busy? && StageOf(t.ctl.r.pc) == Driver(ComponentPhase(k))
    ensures var t := Trail(s, acts);
            && Span(t, j, |acts|) && j < x < c < |acts| && In(t, x, StartMaintenance) && In(t, c, Config)
            && SawComplete(s, acts, x, MaintenanceStart)
  {
    hide Edge, Exec, Facts, Maintains, Persists, Apply;
    var i, a, v;
    j, c, i, a, v := DriverOrder(s, acts, k);
    RunsFollowTheGraph(s, acts);
    x := EntryBefore(Trail(s, acts), j, c, Config);
    MaintainedAt(s, acts, x);
  }
}
