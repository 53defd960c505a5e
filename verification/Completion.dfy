/**
 No dead ends: from every state a run can reach, whatever crashes, edits, failures and half-done work led there, the
 upgrade can still be completed by nothing but reconciles, provided that jobs succeed and Deployments roll out while
 they are looked at. A reconcile whose calls succeed always comes to its end.
 */
module Completion {
  import opened Basics
  import opened JobNames
  import opened Model
  import opened ClusterMachine
  import opened ReconcileFacts
  import opened PhaseGraph
  import opened Progress
  import opened LiveObject
  import ConfigHash
  import MaintenanceWindow

  // ----- a reconcile comes to its end -----

  function ComponentRank(k: Component): nat { match k case Ui => 2 case Server => 6 case Api => 10 }

  /** How far a reconcile has come: every successful call lowers it. */
  function PcRank(pc: Pc): nat {
    match pc
    case SecretGet => 28
    case EarlyStatus => 0
    case PlainGet(o, m) =>
      (match o case ServiceAccount => 27 case ConfigMap => 25 case Service(k) => if m == Upg then 20 else ComponentRank(k) + 1)
    case PlainPut(o, m) =>
      (match o case ServiceAccount => 26 case ConfigMap => 24 case Service(k) => if m == Upg then 19 else ComponentRank(k))
    case JobGet(f, m) => (if f == NsRegister then 2 else 0) + if m == Upg then 21 else 15
    case JobPost(f, m) => (if f == NsRegister then 2 else 0) + if m == Upg then 20 else 14
    case JobDelete(f, m) => (if f == NsRegister then 2 else 0) + if m == Upg then 20 else 14
    case FailedGet(f) => if f == NsRegister then 19 else 18
    case MaintGet(_) => 19
    case MaintPost(_) => 18
    case MaintDelete(_) => 18
    case DepGet(k, m) => if m == Upg then 22 else ComponentRank(k) + 3
    case DepPost(k, m) => if m == Upg then 21 else ComponentRank(k) + 2
    case DepPut(k, m, _) => if m == Upg then 21 else ComponentRank(k) + 2
    case RolloutGet(_) => 18
    case FencedGet(k) => ComponentRank(k)
    case StatusGet(_) => 1
    case StatusPut(_, _) => 0
  }

  /** Nobody has interfered since the last read, and what is about to be read is not unfinished. */
  predicate Good(w: World, b: Run) {
    match b.pc
    case SecretGet => w.secret.Some?
    case EarlyStatus => false
    case PlainGet(o, m) => o.Service? ==> o.k in w.deps
    case PlainPut(o, m) => DesiredPlain(b.c, o).Some? && (o.Service? ==> o.k in w.deps)
    case JobPost(f, _) => KeyFor(b, f) !in w.jobs
    case MaintPost(f) => KeyFor(b, f) !in w.jobs
    case DepPost(k, _) => k !in w.deps
    case DepPut(k, _, read) => k in w.deps && w.deps[k].rv == read.rv
    case RolloutGet(k) => k in w.deps
    case StatusPut(_, rv) => w.cluster.rv == rv
    case _ => true
  }

  predicate Helped(w: World, b: Run) {
    match b.pc
    case JobGet(f, _) => KeyFor(b, f) in w.jobs ==> w.jobs[KeyFor(b, f)] != Running
    case MaintGet(f) => KeyFor(b, f) in w.jobs ==> w.jobs[KeyFor(b, f)] != Running
    case RolloutGet(k) => k in w.deps && RolledOut(w.deps[k], DesiredReplicas(Build(b.c, k, b.hash)))
    case _ => true
  }

  /** The call succeeds, the reconcile gets further, and it did not have to wait; or it ends with its status persisted. */
  predicate Proceeds(b: Run, s: Sys) {
    match s.ctl
    case Busy(r) => PcRank(r.pc) < PcRank(b.pc) && Good(s.w, r) && r.h.waited == b.h.waited && r.c == b.c
    case Idle => (b.pc.StatusGet? || b.pc.StatusPut?) && s.w.cluster.status == StatusOf(b)
  }

  /** The next call is a read of the driver or of standard reconciliation that needs nothing. */
  predicate Easy(pc: Pc) { pc.JobGet? || pc.FailedGet? || pc.MaintGet? || pc.DepGet? || pc.FencedGet? || pc.StatusGet? }

  // ----- local computation -----

  predicate Below(r: Run, n: nat) { Easy(r.pc) && PcRank(r.pc) < n }

  lemma StdStartBelow(b: Run)
    ensures Below(StdStart(b), 18)
  {
  }

  lemma UpgJobsDoneBelow(b: Run)
    ensures Below(UpgJobsDone(b), 20) && Below(FailuresDone(b, true), 20) && Below(FailuresDone(b, false), 20)
  {
    hide StdStart;
    StdStartBelow(SetPhase(b.(conds := b.conds.(initialized := Yes)), FlowAPI));
  }

  lemma AfterJobBelow(b: Run, f: Family, m: Mode)
    requires f == NsRegister || f == SearchAttr
    ensures Below(AfterJob(b, f, m), PcRank(JobPost(f, m)))
  {
    hide UpgJobsDone, NewPass, Quiet;
    UpgJobsDoneBelow(b);
  }

  lemma WaitingBelow(b: Run, now: int)
    ensures Below(WaitingPhase(b, now), 24) && Below(BlockedPhase(b), 24) && Below(UpgJobsStart(b), 24)
  {
    hide MaintenanceWindow.InWindow, UpgJobsDone;
    UpgJobsDoneBelow(b.(initReady := true));
  }

  lemma DriveBelow(b: Run, now: int)
    ensures Below(Drive(b, now), 24)
  {
    hide WaitingPhase, BlockedPhase, UpgJobsStart, StdStart;
    var b1 := b.(conds := b.conds.(upgradeInProgress := Yes));
    WaitingBelow(b1, now);
    StdStartBelow(b1);
    StdStartBelow(SetPhase(b1, InitJobs));
  }

  lemma LifecycleBelow(b: Run, now: int)
    ensures Below(Lifecycle(b, now), 24)
  {
    hide Drive, StdStart;
    var u := CurrentRecord(b.c);
    StdStartBelow(b.(upgrade := Some(u)));
    DriveBelow(b.(upgrade := Some(u)), now);
    DriveBelow(b.(upgrade := Some(Upgrade(u.to, b.c.spec.version, Waiting, Some(now)))), now);
  }

  lemma RolledOutBelow(b: Run, k: Component)
    ensures Below(RolledOutPhase(b, k), 18)
  {
  }

  lemma MaintenanceBelow(b: Run, f: Family)
    ensures Below(MaintenanceDone(b, f), 18)
  {
  }

  // ----- the calls -----

  lemma AfterPlainProceeds(w: World, b: Run, o: Plain, m: Mode, now: int)
    requires (b.pc == PlainGet(o, m) || b.pc == PlainPut(o, m)) && (o.Service? ==> o.k in w.deps)
    ensures Proceeds(b, Sys(w, Busy(AfterPlain(b, o, m, now))))
  {
    hide Lifecycle, Reads, NewPassOrDeployment;
    LifecycleBelow(b, now);
  }

  lemma PlainGetProceeds(w: World, b: Run, o: Plain, m: Mode)
    requires b.pc == PlainGet(o, m) && Good(w, b)
    ensures Proceeds(b, PlainGetStep(w, b, o, m))
  {
    hide AfterPlain;
    AfterPlainProceeds(w, b, o, m, w.clock);
  }

  lemma PlainPutProceeds(w: World, b: Run, o: Plain, m: Mode)
    requires b.pc == PlainPut(o, m) && Good(w, b)
    ensures Proceeds(b, PlainPutStep(w, b, o, m))
  {
    hide AfterPlain, DesiredPlain;
    var n := PlainPutStep(w, b, o, m);
    AfterPlainProceeds(n.w, Note(b, WrotePlain(o)), o, m, w.clock);
  }

  lemma JobGetProceeds(w: World, b: Run, f: Family, m: Mode)
    requires b.pc == JobGet(f, m) && WellKeyed(b.pc) && Helped(w, b)
    ensures Proceeds(b, JobGetStep(w, b, f, m))
  {
    hide AfterJob, NewPass, Reads;
    AfterJobBelow(b.(h := b.h.(seen := b.h.seen + {KeyFor(b, f)})), f, m);
  }

  lemma JobPostProceeds(w: World, b: Run, f: Family, m: Mode)
    requires b.pc == JobPost(f, m) && WellKeyed(b.pc) && Good(w, b)
    ensures Proceeds(b, JobPostStep(w, b, f, m))
  {
    hide AfterJob, NewPass, Reads;
    AfterJobBelow(Note(b, WroteJob(KeyFor(b, f))), f, m);
  }

  lemma JobDeleteProceeds(w: World, b: Run, f: Family, m: Mode)
    requires b.pc == JobDelete(f, m) && WellKeyed(b.pc)
    ensures Proceeds(b, JobDeleteStep(w, b, f, m))
  {
    hide AfterJob, NewPass, Reads;
    AfterJobBelow(Note(b.(initReady := false), WroteJob(KeyFor(b, f))), f, m);
  }

  lemma FailedGetProceeds(w: World, b: Run, f: Family)
    requires b.pc == FailedGet(f)
    ensures Proceeds(b, FailedGetStep(w, b, f, false))
  {
  }

  lemma MaintProceeds(w: World, b: Run, f: Family)
    ensures b.pc == MaintPost(f) && Good(w, b) ==> Proceeds(b, MaintPostStep(w, b, f))
    ensures b.pc == MaintDelete(f) ==> Proceeds(b, MaintDeleteStep(w, b, f))
  {
  }

  lemma MaintGetProceeds(w: World, b: Run, f: Family)
    requires b.pc == MaintGet(f) && Helped(w, b)
    ensures Proceeds(b, MaintGetStep(w, b, f))
  {
    hide MaintenanceDone, NewPass, Reads, Good;
    MaintenanceBelow(b, f);
    EasyIsGood(w, MaintenanceDone(b, f));
    WritesAreGood(w, b, f);
  }

  lemma EasyIsGood(w: World, r: Run)
    requires Easy(r.pc)
    ensures Good(w, r)
  {
  }

  /** A maintenance job read as missing can be created, one read as failed deleted. */
  lemma WritesAreGood(w: World, b: Run, f: Family)
    ensures KeyFor(b, f) !in w.jobs ==> Good(w, b.(conds := b.conds.(maintenanceMode := Yes), pc := MaintPost(f)))
    ensures Good(w, b.(conds := b.conds.(degraded := Yes), pc := MaintDelete(f)))
  {
  }

  lemma DepGetProceeds(w: World, b: Run, k: Component, m: Mode)
    requires b.pc == DepGet(k, m)
    ensures Proceeds(b, DepGetStep(w, b, k, m))
  {
    hide Build, UpToDate;
  }

  lemma DepWriteProceeds(w: World, b: Run, k: Component, m: Mode)
    requires Good(w, b)
    ensures b.pc == DepPost(k, m) ==> Proceeds(b, DepPostStep(w, b, k, m))
    ensures b.pc.DepPut? && b.pc.k == k && b.pc.m == m ==> Proceeds(b, DepPutStep(w, b, k, m, b.pc.read))
  {
    hide Build, Merge, LabelsOf;
  }

  lemma RolloutGetProceeds(w: World, b: Run, k: Component)
    requires b.pc == RolloutGet(k) && Helped(w, b)
    ensures Proceeds(b, RolloutGetStep(w, b, k))
  {
    hide Build, RolledOut, RolledOutPhase, NewPass, Reads;
    RolledOutBelow(b, k);
  }

  lemma FencedGetProceeds(w: World, b: Run, k: Component)
    requires b.pc == FencedGet(k)
    ensures Proceeds(b, FencedGetStep(w, b, k))
  {
  }

  lemma SecretProceeds(w: World, b: Run)
    requires b.pc == SecretGet && Good(w, b)
    ensures Proceeds(b, Sys(w, Busy(AfterSecret(b, w.secret))))
  {
    hide ConfigHash.ClusterText;
  }

  lemma StatusProceeds(w: World, b: Run)
    requires Good(w, b)
    ensures b.pc.StatusGet? ==> Proceeds(b, StatusGetStep(w, b, b.pc.last))
    ensures b.pc.StatusPut? ==> Proceeds(b, StatusPutStep(w, b, b.pc.rv))
  {
  }

  /** Every call of an undisturbed reconcile that needs not wait brings it closer to its end. */
  lemma StepProceeds(w: World, b: Run)
    requires WellKeyed(b.pc) && Good(w, b) && Helped(w, b)
    ensures Proceeds(b, Step(w, b, false))
  {
    hide AfterSecret, PlainGetStep, PlainPutStep, JobGetStep, JobPostStep, JobDeleteStep, FailedGetStep, MaintGetStep,
         MaintPostStep, MaintDeleteStep, DepGetStep, DepPostStep, DepPutStep, RolloutGetStep, FencedGetStep, StatusGetStep,
         StatusPutStep, Proceeds;
    match b.pc {
      case SecretGet => SecretProceeds(w, b);
      case PlainGet(o, m) => PlainGetProceeds(w, b, o, m);
      case PlainPut(o, m) => PlainPutProceeds(w, b, o, m);
      case JobGet(f, m) => JobGetProceeds(w, b, f, m);
      case JobPost(f, m) => JobPostProceeds(w, b, f, m);
      case JobDelete(f, m) => JobDeleteProceeds(w, b, f, m);
      case FailedGet(f) => FailedGetProceeds(w, b, f);
      case MaintGet(f) => MaintGetProceeds(w, b, f);
      case MaintPost(f) => MaintProceeds(w, b, f);
      case MaintDelete(f) => MaintProceeds(w, b, f);
      case DepGet(k, m) => DepGetProceeds(w, b, k, m);
      case DepPost(k, m) => DepWriteProceeds(w, b, k, m);
      case DepPut(k, m, _) => DepWriteProceeds(w, b, k, m);
      case RolloutGet(k) => RolloutGetProceeds(w, b, k);
      case FencedGet(k) => FencedGetProceeds(w, b, k);
      case StatusGet(_) => StatusProceeds(w, b);
      case StatusPut(_, _) => StatusProceeds(w, b);
    }
  }

  // ----- a helpful world -----

  /** Reconciles whose calls succeed, jobs that succeed and Deployments that roll out; nothing else. */
  predicate Helpful(a: Act) {
    a == Start || a == Call(false) || (a.Outside? && (a.e.RolloutAdvances? || (a.e.JobEnds? && a.e.ok)))
  }

  ghost predicate AllHelpful(acts: seq<Act>) { forall i :: 0 <= i < |acts| ==> Helpful(acts[i]) }

  /** What helpful acts leave alone. */
  predicate Same(w: World, v: World) {
    v.secret == w.secret && v.clock == w.clock && v.cluster == w.cluster.(status := v.cluster.status, rv := v.cluster.rv)
  }

  lemma StepSame(w: World, b: Run)
    ensures Same(w, Step(w, b, false).w)
  {
    hide Step, Reads;
    if Reads(b.pc) { ReadsOnly(w, b, false); } else { WriteSame(w, b); }
  }

  lemma WriteSame(w: World, b: Run)
    requires !Reads(b.pc)
    ensures Same(w, Step(w, b, false).w)
  {
    hide AfterSecret, AfterPlain, AfterJob, Build, LabelsOf, Merge, DesiredPlain, Stop, NewPass, PlainGetStep, JobGetStep,
         FailedGetStep, MaintGetStep, DepGetStep, RolloutGetStep, FencedGetStep, StatusGetStep, Quiet, QuietAt;
  }

  /** Not paused, no backup, a readable secret and an open gate, at version v. */
  predicate Able(w: World, v: string) {
    && w.cluster.spec.version == v && !w.cluster.spec.paused && !Fenced(w.cluster) && w.secret.Some?
    && GateOpen(w.cluster.spec, w.clock)
  }

  /** A reconcile at version v is in flight, nobody has interfered with it and it has not had to wait. */
  ghost predicate Flies(s: Sys, v: string, b: Run) {
    && s.ctl == Busy(b) && Inv(s) && Open(s, v) && Accounts(s) && Present(s) && Good(s.w, b) && !b.h.waited
  }

  lemma OneAct(s: Sys, a: Act)
    ensures Exec(s, [a]) == Apply(s, a)
  {
    assert [a][..0] == [] && Exec(s, []) == s;
  }

  lemma Join(s: Sys, acts: seq<Act>, more: seq<Act>) returns (all: seq<Act>)
    requires AllHelpful(acts) && AllHelpful(more)
    ensures AllHelpful(all) && Exec(s, all) == Exec(Exec(s, acts), more)
  {
    all := acts + more;
    ExecConcat(s, acts, more);
  }

  /** What the reconcile is about to look at is finished first. */
  function Help(w: World, b: Run): Option<Env> {
    match b.pc
    case JobGet(f, _) => Some(JobEnds(KeyFor(b, f), true))
    case MaintGet(f) => Some(JobEnds(KeyFor(b, f), true))
    case RolloutGet(k) =>
      if k !in w.deps then None
      else var n := DesiredReplicas(Build(b.c, k, b.hash)); Some(RolloutAdvances(k, Rollout(w.deps[k].generation, n, n, n, n)))
    case _ => None
  }

  lemma HelpHelps(w: World, b: Run)
    requires Good(w, b)
    ensures Help(w, b).None? ==> Helped(w, b)
    ensures Help(w, b).Some? ==>
              var v := ApplyEnv(w, Help(w, b).value);
              Helped(v, b) && Good(v, b) && Same(w, v) && v.cluster == w.cluster && Helpful(Outside(Help(w, b).value))
  {
    hide Build;
  }

  lemma HelpIt(s: Sys, v: string, b: Run) returns (acts: seq<Act>)
    requires Flies(s, v, b)
    ensures var t := Exec(s, acts);
            AllHelpful(acts) && Flies(t, v, b) && Helped(t.w, b) && Same(s.w, t.w) && Potential(t, v) <= Potential(s, v)
  {
    hide Exec, Potential, Facts, Good, Helped, ApplyEnv, Help, Accounted, DeletesPresent, GateOpen, CompletesUnhindered;
    HelpHelps(s.w, b);
    if Help(s.w, b).None? {
      acts := [];
      ExecNone(s);
    } else {
      var a := Outside(Help(s.w, b).value);
      acts := [a];
      OneAct(s, a);
      ApplyInv(s, a);
      ApplyPotential(s, a, v);
    }
  }

  lemma ExecNone(s: Sys)
    ensures Exec(s, []) == s
  {
  }

  /** One call: the reconcile gets further, or ends and has paid for itself if it worked on an upgrade. */
  lemma CallIt(s: Sys, v: string, b: Run) returns (n: Sys)
    requires Flies(s, v, b) && Helped(s.w, b)
    ensures n == Exec(s, [Call(false)]) && Same(s.w, n.w) && Inv(n) && Potential(n, v) <= Potential(s, v)
    ensures n.ctl.Busy? ==> Flies(n, v, n.ctl.r) && PcRank(n.ctl.r.pc) < PcRank(b.pc) && n.ctl.r.c == b.c
    ensures n.ctl.Idle? && RecordPhase(b.c) != Complete ==> Potential(n, v) < Potential(s, v)
    ensures n.ctl.Idle? && RecordPhase(b.c) == Complete ==> RecordAt(n) == Some(CurrentRecord(b.c))
  {
    hide Step, Potential, Facts, Good, Helped, Accounted, DeletesPresent, GateOpen, RecordPhase, PcRank, CurrentRecord, Exec;
    n := Apply(s, Call(false));
    OneAct(s, Call(false));
    KeyedWell(b);
    StepProceeds(s.w, b);
    StepSame(s.w, b);
    ApplyInv(s, Call(false));
    ApplyPotential(s, Call(false), v);
    if n.ctl.Idle? { EndsComplete(b); }
  }

  lemma KeyedWell(b: Run)
    requires Facts(b)
    ensures WellKeyed(b.pc)
  {
  }

  /** A reconcile that found nothing to upgrade ends with the record it found. */
  lemma EndsComplete(b: Run)
    requires Facts(b) && (b.pc.StatusGet? || b.pc.StatusPut?)
    ensures RecordPhase(b.c) == Complete ==> b.upgrade == Some(CurrentRecord(b.c))
  {
    hide GateOpen, Own, Earned;
  }

  /** A reconcile in flight comes to its end. */
  lemma {:induction false} Fly(s: Sys, v: string, b: Run) returns (acts: seq<Act>)
    requires Flies(s, v, b)
    ensures AllHelpful(acts)
    ensures var t := Exec(s, acts);
            && t.ctl.Idle? && Inv(t) && Same(s.w, t.w) && Potential(t, v) <= Potential(s, v)
            && (if RecordPhase(b.c) != Complete then Potential(t, v) < Potential(s, v) else RecordAt(t) == Some(CurrentRecord(b.c)))
    decreases PcRank(b.pc)
  {
    hide Exec, Potential, Flies, Inv, Helped, RecordPhase, PcRank, CurrentRecord;
    acts := HelpIt(s, v, b);
    var t := Exec(s, acts);
    var n := CallIt(t, v, b);
    acts := Join(s, acts, [Call(false)]);
    if n.ctl.Busy? {
      var more := Fly(n, v, n.ctl.r);
      acts := Join(s, acts, more);
    }
  }

  lemma Takeoff(s: Sys, v: string) returns (n: Sys)
    requires Inv(s) && s.ctl.Idle? && Able(s.w, v)
    ensures n == Exec(s, [Start]) && n.ctl.Busy? && Flies(n, v, n.ctl.r) && n.ctl.r.c == s.w.cluster && n.w == s.w
    ensures Potential(n, v) <= Potential(s, v)
  {
    hide Potential, Facts, GateOpen, Exec, CompletesUnhindered;
    n := Apply(s, Start);
    OneAct(s, Start);
    IdleAccounts(s);
    ApplyInv(s, Start);
    ApplyPotential(s, Start, v);
  }

  /** Reconciles in a helpful world complete the upgrade, whatever the state they start from. */
  lemma {:induction false} CanComplete(s: Sys, v: string) returns (acts: seq<Act>)
    requires Inv(s) && s.ctl.Idle? && Able(s.w, v)
    ensures AllHelpful(acts)
    ensures var t := Exec(s, acts);
            t.ctl.Idle? && RecordAt(t).Some? && RecordAt(t).value.phase == Complete && RecordAt(t).value.to == v
    decreases Potential(s, v)
  {
    hide Exec, Potential, Flies, Inv, GateOpen;
    var n := Takeoff(s, v);
    var more := Fly(n, v, n.ctl.r);
    acts := Join(s, [Start], more);
    if RecordPhase(s.w.cluster) != Complete {
      var t := Exec(s, acts);
      var rest := CanComplete(t, v);
      acts := Join(s, acts, rest);
    }
  }

  /**
   No dead ends: after every run, with whatever crashes, edits, failed jobs and lost writes, once no reconcile is in
   flight, the cluster is not paused or fenced, the secret is readable and the gate is open, a helpful world completes
   the upgrade to spec.version.
   */
  lemma NoDeadEnds(s: Sys, before: seq<Act>) returns (acts: seq<Act>)
    requires Initial(s) && Exec(s, before).ctl.Idle?
    requires Able(Exec(s, before).w, Exec(s, before).w.cluster.spec.version)
    ensures AllHelpful(acts)
    ensures var t := Exec(Exec(s, before), acts);
            && t.ctl.Idle? && RecordAt(t).Some? && RecordAt(t).value.phase == Complete
            && RecordAt(t).value.to == Exec(s, before).w.cluster.spec.version
  {
    hide Exec;
    ExecInv(s, before);
    acts := CanComplete(Exec(s, before), Exec(s, before).w.cluster.spec.version);
  }
}
