/**
 What a reconcile leaves behind: all ten conditions it persists, told from the conditions it read and from what its
 own calls found in the store; and that a paused cluster is left alone.
 */
module Outcome {
  import opened Basics
  import opened JobNames
  import opened Model
  import opened ClusterMachine
  import opened ReconcileFacts
  import opened PhaseGraph
  import Jobs
  import ConfigHash
  import LiveObject
  import MaintenanceWindow

  // ----- what the calls of a reconcile found -----

  /** The worlds in which a reconcile looked at the health of each component, at each init job and at a maintenance job. */
  datatype Found = Found(
    api: Option<World>, server: Option<World>, ui: Option<World>,
    ns: Option<World>, search: Option<World>, maintenance: Option<World>)

  const NOTHING := Found(None, None, None, None, None, None)

  function Of(l: Found, k: Component): Option<World> { match k case Api => l.api case Server => l.server case Ui => l.ui }

  /** A successful call at pc, made in world w. */
  function Look(l: Found, pc: Pc, w: World): Found {
    match pc
    case DepGet(Api, Std) => l.(api := Some(w))
    case DepGet(Server, Std) => l.(server := Some(w))
    case DepGet(Ui, Std) => l.(ui := Some(w))
    case FencedGet(Api) => l.(api := Some(w))
    case FencedGet(Server) => l.(server := Some(w))
    case FencedGet(Ui) => l.(ui := Some(w))
    case JobGet(NsRegister, Std) => l.(ns := Some(w))
    case JobGet(SearchAttr, Std) => l.(search := Some(w))
    case MaintGet(_) => l.(maintenance := Some(w))
    case _ => l
  }

  /** What the calls of the reconcile in flight have found, from its start on. */
  ghost function Seen(s: Sys, acts: seq<Act>): Found {
    if acts == [] then NOTHING
    else
      var before, a := acts[..|acts| - 1], acts[|acts| - 1];
      var t := Exec(s, before);
      if t.ctl.Idle? then NOTHING
      else if a == Call(false) then Look(Seen(s, before), t.ctl.r.pc, t.w)
      else Seen(s, before)
  }

  /** The Deployment exists and as many pods are ready as it has. */
  predicate Healthy(w: World, k: Component) { k in w.deps && w.deps[k].status.ready >= w.deps[k].status.replicas }

  function Rank(k: Component): nat { match k case Api => 0 case Server => 1 case Ui => 2 }

  /** The health of k has been looked at in the final pass of the reconcile. */
  predicate HealthKnown(pc: Pc, k: Component) {
    match pc
    case DepGet(n, m) => m == Std && Rank(k) < Rank(n)
    case DepPost(n, m) => m == Std && Rank(k) <= Rank(n)
    case DepPut(n, m, _) => m == Std && Rank(k) <= Rank(n)
    case PlainGet(Service(n), m) => m == Std && Rank(k) <= Rank(n)
    case PlainPut(Service(n), m) => m == Std && Rank(k) <= Rank(n)
    case FencedGet(n) => Rank(k) < Rank(n)
    case StatusGet(last) => last
    case StatusPut(last, _) => last
    case _ => false
  }

  /** Standard reconciliation, or the health check of a fenced reconcile. */
  predicate FinalPass(pc: Pc) {
    match pc
    case JobGet(_, m) => m == Std
    case JobPost(_, m) => m == Std
    case JobDelete(_, m) => m == Std
    case DepGet(_, m) => m == Std
    case DepPost(_, m) => m == Std
    case DepPut(_, m, _) => m == Std
    case PlainGet(o, m) => o.Service? && m == Std
    case PlainPut(o, m) => o.Service? && m == Std
    case FencedGet(_) => true
    case StatusGet(last) => last
    case StatusPut(last, _) => last
    case _ => false
  }

  predicate SeenHealthy(l: Found, k: Component) { Of(l, k).Some? && Healthy(Of(l, k).value, k) }

  predicate HealthTold(b: Run, l: Found) {
    FinalPass(b.pc) ==>
      && (forall k :: HealthKnown(b.pc, k) ==> Of(l, k).Some?)
      && (b.compReady <==> forall k :: HealthKnown(b.pc, k) ==> SeenHealthy(l, k))
  }

  /** Init job f has been looked at in standard reconciliation. */
  predicate JobKnown(pc: Pc, f: Family) {
    FinalPass(pc) &&
    match pc
    case JobGet(g, _) => f == NsRegister && g == SearchAttr
    case JobPost(g, _) => f == NsRegister || g == SearchAttr
    case JobDelete(g, _) => f == NsRegister && g == SearchAttr
    case _ => true
  }

  /** The look found the job of this version succeeded. */
  predicate SeenDone(l: Option<World>, f: Family, version: string) { l.Some? && Jobs.Succeeds(l.value, KeyOf(f, version)) }

  predicate JobsTold(b: Run, l: Found) {
    FinalPass(b.pc) && !Fenced(b.c) ==>
      && (JobKnown(b.pc, NsRegister) && !Jobs.NsOff(b.c.spec) ==> l.ns.Some?)
      && (JobKnown(b.pc, SearchAttr) && !Jobs.SearchOff(b.c.spec) ==> l.search.Some?)
      && (b.initReady <==>
           && (JobKnown(b.pc, NsRegister) && !Jobs.NsOff(b.c.spec) ==> SeenDone(l.ns, NsRegister, b.c.spec.version))
           && (JobKnown(b.pc, SearchAttr) && !Jobs.SearchOff(b.c.spec) ==> SeenDone(l.search, SearchAttr, b.c.spec.version)))
  }

  /** A job about to be deleted was found, and not succeeded. */
  predicate DeleteTold(b: Run, l: Found) {
    match b.pc
    case JobDelete(NsRegister, Std) => l.ns.Some? && !SeenDone(l.ns, NsRegister, b.c.spec.version)
    case JobDelete(SearchAttr, Std) => l.search.Some? && !SeenDone(l.search, SearchAttr, b.c.spec.version)
    case _ => true
  }

  /** A reconcile held in a maintenance phase reports what it found of the job. */
  predicate MaintenanceTold(b: Run, l: Found) {
    (b.pc == StatusGet(false) || (b.pc.StatusPut? && !b.pc.last) || b.pc.MaintPost? || b.pc.MaintDelete?)
    && (RecordPhase(b.c) == StartMaintenance || RecordPhase(b.c) == EndMaintenance) ==>
      && l.maintenance.Some?
      && var key := KeyOf(if RecordPhase(b.c) == StartMaintenance then MaintenanceStart else MaintenanceEnd, b.c.spec.version);
         b.conds == if key !in l.maintenance.value.jobs then Upgrading(b.c).(maintenanceMode := Yes)
                    else if l.maintenance.value.jobs[key] == Failed then Upgrading(b.c).(degraded := Yes)
                    else Upgrading(b.c)
  }

  predicate Told(b: Run, l: Found) { HealthTold(b, l) && JobsTold(b, l) && DeleteTold(b, l) && MaintenanceTold(b, l) }

  ghost predicate Tells(s: Sys, l: Found) { s.ctl.Busy? ==> Told(s.ctl.r, l) }

  // ----- the final pass begins -----

  /** At the beginning of the final pass everything still counts as ready; jobs that are off are skipped. */
  predicate Enters(r: Run) {
    FinalPass(r.pc) ==>
      r.compReady && r.initReady &&
      match r.pc
      case FencedGet(k) => k == Api && Fenced(r.c)
      case JobGet(f, _) => !Fenced(r.c) && (f == NsRegister || (f == SearchAttr && Jobs.NsOff(r.c.spec)))
      case DepGet(k, _) => k == Api && !Fenced(r.c) && Jobs.NsOff(r.c.spec) && Jobs.SearchOff(r.c.spec)
      case _ => false
  }

  lemma EntersTold(r: Run, l: Found)
    requires Enters(r)
    ensures HealthTold(r, l) && JobsTold(r, l) && DeleteTold(r, l)
  {
  }

  lemma StdStartEnters(b: Run)
    ensures Enters(StdStart(b))
  {
  }

  lemma UpgJobsDoneEnters(b: Run)
    ensures Enters(UpgJobsDone(b)) && Enters(FailuresDone(b, true)) && Enters(FailuresDone(b, false))
  {
    hide StdStart;
    StdStartEnters(SetPhase(b.(conds := b.conds.(initialized := Yes)), FlowAPI));
  }

  lemma WaitingEnters(b: Run, now: int)
    ensures Enters(WaitingPhase(b, now)) && Enters(BlockedPhase(b)) && Enters(UpgJobsStart(b))
  {
    hide MaintenanceWindow.InWindow, UpgJobsDone;
    UpgJobsDoneEnters(b.(initReady := true));
  }

  lemma DriveEnters(b: Run, now: int)
    ensures Enters(Drive(b, now))
  {
    hide WaitingPhase, BlockedPhase, UpgJobsStart, StdStart;
    var b1 := b.(conds := b.conds.(upgradeInProgress := Yes));
    WaitingEnters(b1, now);
    StdStartEnters(b1);
    StdStartEnters(SetPhase(b1, InitJobs));
  }

  lemma LifecycleEnters(b: Run, now: int)
    ensures Enters(Lifecycle(b, now))
  {
    hide Drive, StdStart, Enters;
    var u := CurrentRecord(b.c);
    StdStartEnters(b.(upgrade := Some(u)));
    DriveEnters(b.(upgrade := Some(u)), now);
    DriveEnters(b.(upgrade := Some(Upgrade(u.to, b.c.spec.version, Waiting, Some(now)))), now);
  }

  lemma RolledOutEnters(b: Run, k: Component)
    ensures Enters(RolledOutPhase(b, k))
  {
    hide StdStart, Enters;
    StdStartEnters(SetPhase(b, PeerDBServer));
    StdStartEnters(SetPhase(b, UI));
    StdStartEnters(SetPhase(b, EndMaintenance));
    StdStartEnters(SetPhase(b.(conds := b.conds.(upgradeInProgress := No)), Complete));
  }

  lemma MaintenanceEnters(b: Run, f: Family)
    ensures Enters(MaintenanceDone(b, f))
  {
    hide StdStart, Enters;
    var b1 := b.(h := b.h.(seen := b.h.seen + {KeyFor(b, f)}));
    StdStartEnters(SetPhase(b1.(conds := b1.conds.(maintenanceMode := No, upgradeInProgress := No)), Complete));
    StdStartEnters(SetPhase(b1.(conds := b1.conds.(maintenanceMode := Yes)), Config));
  }

  /** Outside the final pass, and not held by a maintenance job, there is nothing to tell. */
  lemma Elsewhere(r: Run, l: Found)
    requires !FinalPass(r.pc) && r.pc != StatusGet(false) && !r.pc.StatusPut? && !r.pc.MaintPost? && !r.pc.MaintDelete?
    ensures Told(r, l)
  {
  }

  predicate Unmaintained(c: Cluster) { RecordPhase(c) != StartMaintenance && RecordPhase(c) != EndMaintenance }

  lemma EntersTells(r: Run, l: Found)
    requires Enters(r) && !r.pc.MaintPost? && !r.pc.MaintDelete? && !r.pc.StatusPut?
    requires r.pc == StatusGet(false) ==> Unmaintained(r.c)
    ensures Told(r, l)
  {
    hide Enters;
    EntersTold(r, l);
  }

  // ----- the calls -----

  lemma LifecycleHeld(b: Run, now: int)
    ensures Lifecycle(b, now).pc == StatusGet(false) ==> Unmaintained(b.c)
  {
    hide MaintenanceWindow.InWindow;
  }

  lemma LifecycleTold(b: Run, now: int, l: Found)
    ensures Told(Lifecycle(b, now), l)
  {
    hide Lifecycle, Enters, Told, Unmaintained;
    LifecycleEnters(b, now);
    LifecycleHeld(b, now);
    EntersTells(Lifecycle(b, now), l);
  }

  lemma AfterServiceTold(b: Run, k: Component, m: Mode, l: Found)
    requires (b.pc == PlainGet(Service(k), m) || b.pc == PlainPut(Service(k), m)) && Told(b, l)
    ensures Told(AfterService(b, k, m), l)
  {
    hide Healthy, Jobs.NsOff, Jobs.SearchOff, SeenDone, RecordPhase;
  }

  lemma AfterPlainTold(b: Run, o: Plain, m: Mode, now: int, l: Found)
    requires (b.pc == PlainGet(o, m) || b.pc == PlainPut(o, m)) && Told(b, l)
    ensures Told(AfterPlain(b, o, m, now), l)
  {
    hide Lifecycle, AfterService, Told;
    match o {
      case ServiceAccount => Elsewhere(b.(pc := PlainGet(ConfigMap, m)), l);
      case ConfigMap => LifecycleTold(b, now, l);
      case Service(k) => AfterServiceTold(b, k, m, l);
    }
  }

  /** Told looks at the program point, the flags and what was read alone. */
  lemma ToldElsewhere(b: Run, r: Run, l: Found)
    requires Told(b, l) && r == b.(h := r.h)
    ensures Told(r, l)
  {
    hide Healthy, Jobs.NsOff, Jobs.SearchOff, SeenDone, RecordPhase, FinalPass, HealthKnown, JobKnown;
  }

  lemma PlainTold(w: World, b: Run, o: Plain, m: Mode, l: Found)
    requires Told(b, l) && WellKeyed(b.pc)
    ensures b.pc == PlainGet(o, m) ==> Tells(PlainGetStep(w, b, o, m), l)
    ensures b.pc == PlainPut(o, m) ==> Tells(PlainPutStep(w, b, o, m), l)
  {
    hide AfterPlain, DesiredPlain, Told;
    if b.pc == PlainGet(o, m) {
      AfterPlainTold(b, o, m, w.clock, l);
      PutTold(b, o, m, l);
    }
    if b.pc == PlainPut(o, m) {
      ToldElsewhere(b, Note(b, WrotePlain(o)), l);
      AfterPlainTold(Note(b, WrotePlain(o)), o, m, w.clock, l);
    }
  }

  lemma PutTold(b: Run, o: Plain, m: Mode, l: Found)
    requires Told(b, l) && b.pc == PlainGet(o, m)
    ensures Told(b.(pc := PlainPut(o, m)), l)
  {
    hide Healthy, Jobs.NsOff, Jobs.SearchOff, SeenDone, RecordPhase;
  }

  lemma DepGetTold(w: World, b: Run, k: Component, m: Mode, l: Found)
    requires b.pc == DepGet(k, m) && Told(b, l)
    ensures Tells(DepGetStep(w, b, k, m), Look(l, b.pc, w))
  {
    hide Build, LiveObject.UpToDate, Jobs.NsOff, Jobs.SearchOff, SeenDone, RecordPhase, Look;
    var n := DepGetStep(w, b, k, m).ctl.r;
    LookElse(l, b.pc, w, k);
    if m == Std { HealthLooked(b, n, k, l, w); }
  }

  /** The call that looks at k's health leaves the other findings. */
  lemma LookElse(l: Found, pc: Pc, w: World, k: Component)
    requires pc == FencedGet(k) || (pc.DepGet? && pc.k == k)
    ensures var m := Look(l, pc, w);
            && m.ns == l.ns && m.search == l.search && m.maintenance == l.maintenance
            && (forall n :: n != k ==> Of(m, n) == Of(l, n))
            && (pc != DepGet(k, Upg) ==> Of(m, k) == Some(w))
            && (pc == DepGet(k, Upg) ==> m == l)
  {
  }

  lemma HealthLooked(b: Run, r: Run, k: Component, l: Found, w: World)
    requires (b.pc == DepGet(k, Std) || b.pc == FencedGet(k)) && HealthTold(b, l) && FinalPass(r.pc)
    requires forall n :: HealthKnown(r.pc, n) <==> n == k || HealthKnown(b.pc, n)
    requires r.compReady == (b.compReady && Healthy(w, k))
    ensures HealthTold(r, Look(l, b.pc, w))
  {
    hide Healthy, Look;
    var m := Look(l, b.pc, w);
    LookElse(l, b.pc, w, k);
    assert !HealthKnown(b.pc, k);
    forall n | HealthKnown(r.pc, n) ensures Of(m, n).Some? && (n != k ==> SeenHealthy(m, n) == SeenHealthy(l, n)) {
    }
    assert SeenHealthy(m, k) == Healthy(w, k) && HealthKnown(r.pc, k);
    if !b.compReady {
      var n :| HealthKnown(b.pc, n) && !SeenHealthy(l, n);
      assert HealthKnown(r.pc, n) && !SeenHealthy(m, n);
    }
  }

  lemma DepWriteTold(w: World, b: Run, k: Component, m: Mode, l: Found)
    requires Told(b, l)
    ensures b.pc == DepPost(k, m) ==> Tells(DepPostStep(w, b, k, m), l)
    ensures b.pc.DepPut? && b.pc.k == k && b.pc.m == m ==> Tells(DepPutStep(w, b, k, m, b.pc.read), l)
  {
    hide Build, LabelsOf, LiveObject.Merge, Healthy, Jobs.NsOff, Jobs.SearchOff, SeenDone, RecordPhase;
  }

  lemma FencedGetTold(w: World, b: Run, k: Component, l: Found)
    requires b.pc == FencedGet(k) && Told(b, l) && Fenced(b.c)
    ensures Tells(FencedGetStep(w, b, k), Look(l, b.pc, w))
  {
    hide RecordPhase, Look;
    LookElse(l, b.pc, w, k);
    HealthLooked(b, FencedGetStep(w, b, k).ctl.r, k, l, w);
  }

  lemma AfterJobTold(b: Run, f: Family, m: Mode, l: Found)
    requires f == NsRegister || f == SearchAttr
    requires m == Std ==> FinalPass(b.pc) && (b.pc.JobGet? || b.pc.JobPost? || b.pc.JobDelete?) && b.compReady && !Fenced(b.c)
    requires m == Std ==>
               && (!Jobs.NsOff(b.c.spec) ==> l.ns.Some?)
               && (f == SearchAttr && !Jobs.SearchOff(b.c.spec) ==> l.search.Some?)
               && (b.initReady <==>
                    && (!Jobs.NsOff(b.c.spec) ==> SeenDone(l.ns, NsRegister, b.c.spec.version))
                    && (f == SearchAttr && !Jobs.SearchOff(b.c.spec) ==> SeenDone(l.search, SearchAttr, b.c.spec.version)))
    requires m == Upg ==> Unmaintained(b.c)
    ensures Told(AfterJob(b, f, m), l)
  {
    hide UpgJobsDone, SeenDone, Healthy, RecordPhase;
    if m == Upg && NextJob(b.c.spec, f).None? {
      UpgJobsDoneEnters(b);
      EntersTells(UpgJobsDone(b), l);
    }
  }

  lemma FailedGetTold(w: World, b: Run, f: Family, fails: bool, l: Found)
    requires Unmaintained(b.c) && b.pc == FailedGet(f)
    ensures Tells(FailedGetStep(w, b, f, fails), l)
  {
    hide RecordPhase;
  }

  lemma RolloutGetTold(w: World, b: Run, k: Component, l: Found)
    requires Unmaintained(b.c)
    ensures Tells(RolloutGetStep(w, b, k), l)
  {
    hide RolledOutPhase, Build, LiveObject.RolledOut, Enters, Told, Unmaintained;
    RolledOutEnters(b, k);
    RolledOutStands(b, k);
    EntersTells(RolledOutPhase(b, k), l);
    EntersTells(Stop(Wait(b)), l) by { StopEnters(b); }
  }

  lemma RolledOutStands(b: Run, k: Component)
    ensures FinalPass(RolledOutPhase(b, k).pc) && !RolledOutPhase(b, k).pc.StatusPut? && RolledOutPhase(b, k).pc != StatusGet(false)
  {
  }

  lemma StopEnters(b: Run)
    ensures Enters(Stop(Wait(b)))
  {
  }

  lemma JobGetTold(w: World, b: Run, f: Family, m: Mode, l: Found)
    requires b.pc == JobGet(f, m) && Facts(b) && Told(b, l)
    ensures Tells(JobGetStep(w, b, f, m), Look(l, b.pc, w))
  {
    hide AfterJob, Told, Healthy, Sanitize;
    var key, n := KeyFor(b, f), Look(l, b.pc, w);
    JobTold(b, f, m, l);
    if key !in w.jobs {
      JobMissedTold(w, b, f, m, l, b.(initReady := false, pc := JobPost(f, m)));
    } else {
      match w.jobs[key]
      case Succeeded => AfterJobTold(b.(h := b.h.(seen := b.h.seen + {key})), f, m, n);
      case Failed => JobMissedTold(w, b, f, m, l, b.(pc := JobDelete(f, m)));
      case Running => AfterJobTold(Wait(b.(initReady := false)), f, m, n);
    }
  }

  /** What Told says at a visit of job f. */
  lemma JobTold(b: Run, f: Family, m: Mode, l: Found)
    requires b.pc == JobGet(f, m) && Facts(b) && Told(b, l)
    ensures m == Std ==> FinalPass(b.pc) && b.compReady && !Fenced(b.c)
    ensures m == Std && f == SearchAttr ==>
              && (!Jobs.NsOff(b.c.spec) ==> l.ns.Some?)
              && (b.initReady <==> (!Jobs.NsOff(b.c.spec) ==> SeenDone(l.ns, NsRegister, b.c.spec.version)))
    ensures m == Std && f == NsRegister ==> b.initReady
    ensures m == Std ==> (f == NsRegister && !Jobs.NsOff(b.c.spec)) || (f == SearchAttr && !Jobs.SearchOff(b.c.spec))
    ensures m == Upg ==> Unmaintained(b.c)
  {
    hide Healthy, SeenDone, Successor, Record, Own, Earned;
  }

  /** The job is missing or failed: it is not done. */
  lemma JobMissedTold(w: World, b: Run, f: Family, m: Mode, l: Found, r: Run)
    requires b.pc == JobGet(f, m) && Facts(b) && Told(b, l)
    requires KeyFor(b, f) in w.jobs ==> w.jobs[KeyFor(b, f)] == Failed
    requires r == b.(initReady := false, pc := JobPost(f, m)) || r == b.(pc := JobDelete(f, m))
    ensures r.pc.JobPost? ==> Told(r, Look(l, b.pc, w))
    ensures r.pc.JobDelete? ==> Told(r, Look(l, b.pc, w))
  {
    hide Healthy, Sanitize, Successor, Record, Own, Earned;
  }

  lemma JobPostTold(w: World, b: Run, f: Family, m: Mode, l: Found)
    requires b.pc == JobPost(f, m) && Facts(b) && Told(b, l)
    ensures Tells(JobPostStep(w, b, f, m), l)
  {
    hide AfterJob, Told, Sanitize;
    JobWriteTold(b, f, m, l);
    AfterJobTold(Note(b, WroteJob(KeyFor(b, f))), f, m, l);
  }

  lemma JobDeleteTold(w: World, b: Run, f: Family, m: Mode, l: Found)
    requires b.pc == JobDelete(f, m) && Facts(b) && Told(b, l)
    ensures Tells(JobDeleteStep(w, b, f, m), l)
  {
    hide AfterJob, Told, Sanitize;
    JobWriteTold(b, f, m, l);
    AfterJobTold(Note(b.(initReady := false), WroteJob(KeyFor(b, f))), f, m, l);
  }

  /** What Told says when job f is about to be created or deleted. */
  lemma JobWriteTold(b: Run, f: Family, m: Mode, l: Found)
    requires (b.pc == JobPost(f, m) || b.pc == JobDelete(f, m)) && Facts(b) && Told(b, l)
    ensures f == NsRegister || f == SearchAttr
    ensures m == Std ==>
              && FinalPass(b.pc) && b.compReady && !Fenced(b.c)
              && (!Jobs.NsOff(b.c.spec) ==> l.ns.Some?)
              && (f == SearchAttr && !Jobs.SearchOff(b.c.spec) ==> l.search.Some?)
              && ((b.pc.JobPost? && b.initReady) <==>
                    && b.pc.JobPost?
                    && (!Jobs.NsOff(b.c.spec) ==> SeenDone(l.ns, NsRegister, b.c.spec.version))
                    && (f == SearchAttr && !Jobs.SearchOff(b.c.spec) ==> SeenDone(l.search, SearchAttr, b.c.spec.version)))
              && (b.pc.JobDelete? ==>
                    !(&& (!Jobs.NsOff(b.c.spec) ==> SeenDone(l.ns, NsRegister, b.c.spec.version))
                      && (f == SearchAttr && !Jobs.SearchOff(b.c.spec) ==> SeenDone(l.search, SearchAttr, b.c.spec.version))))
    ensures m == Upg ==> Unmaintained(b.c)
  {
    hide Healthy, SeenDone, Successor, Record, Own, Earned;
  }

  lemma MaintGetTold(w: World, b: Run, f: Family, l: Found)
    requires b.pc == MaintGet(f) && Facts(b)
    ensures Tells(MaintGetStep(w, b, f), Look(l, b.pc, w))
  {
    hide MaintenanceDone, Told, Facts, Sanitize;
    var n := Look(l, b.pc, w);
    MaintenanceEnters(b, f);
    MaintenanceStands(b, f);
    EntersTells(MaintenanceDone(b, f), n);
    MaintSeenTold(w, b, f, l);
  }

  lemma MaintenanceStands(b: Run, f: Family)
    ensures FinalPass(MaintenanceDone(b, f).pc) && Easy(MaintenanceDone(b, f).pc)
  {
  }

  predicate Easy(pc: Pc) { !pc.StatusPut? && pc != StatusGet(false) && !pc.MaintPost? && !pc.MaintDelete? }

  lemma MaintSeenTold(w: World, b: Run, f: Family, l: Found)
    requires b.pc == MaintGet(f) && Facts(b)
    ensures var n, key := Look(l, b.pc, w), KeyFor(b, f);
            && (key !in w.jobs ==> Told(b.(conds := b.conds.(maintenanceMode := Yes), pc := MaintPost(f)), n))
            && (key in w.jobs && w.jobs[key] == Failed ==> Told(b.(conds := b.conds.(degraded := Yes), pc := MaintDelete(f)), n))
            && (key in w.jobs && w.jobs[key] == Running ==> Told(Stop(Wait(b)), n))
  {
    hide Told, Facts, Sanitize, Look;
    var n, key := Look(l, b.pc, w), KeyFor(b, f);
    if key !in w.jobs { MaintReported(w, b, f, l, b.(conds := b.conds.(maintenanceMode := Yes), pc := MaintPost(f))); }
    else if w.jobs[key] == Failed { MaintReported(w, b, f, l, b.(conds := b.conds.(degraded := Yes), pc := MaintDelete(f))); }
    else if w.jobs[key] == Running { MaintReported(w, b, f, l, Stop(Wait(b))); }
  }

  /** What the look at a maintenance job leads to. */
  lemma MaintReported(w: World, b: Run, f: Family, l: Found, r: Run)
    requires b.pc == MaintGet(f) && Facts(b)
    requires var key := KeyFor(b, f);
             if key !in w.jobs then r == b.(conds := b.conds.(maintenanceMode := Yes), pc := MaintPost(f))
             else if w.jobs[key] == Failed then r == b.(conds := b.conds.(degraded := Yes), pc := MaintDelete(f))
             else w.jobs[key] == Running && r == Stop(Wait(b))
    ensures Told(r, Look(l, b.pc, w))
  {
    hide Sanitize, Successor, Record, Own, Earned;
  }

  lemma MaintWriteTold(w: World, b: Run, f: Family, l: Found)
    requires Told(b, l)
    ensures b.pc == MaintPost(f) ==> Tells(MaintPostStep(w, b, f), l)
    ensures b.pc == MaintDelete(f) ==> Tells(MaintDeleteStep(w, b, f), l)
  {
    hide Sanitize, Upgrading, RecordPhase;
  }

  lemma StatusGetTold(w: World, b: Run, last: bool, l: Found)
    requires b.pc == StatusGet(last) && Told(b, l)
    ensures Tells(StatusGetStep(w, b, last), l)
  {
    hide Healthy, Jobs.NsOff, Jobs.SearchOff, SeenDone, RecordPhase, Upgrading;
  }

  lemma SecretTold(b: Run, secret: Option<string>, l: Found)
    ensures Told(AfterSecret(b, secret), l)
  {
    hide ConfigHash.ClusterText, DesiredPlain;
  }

  lemma DriverUnmaintained(b: Run)
    requires Facts(b)
    ensures b.pc.FailedGet? || b.pc.RolloutGet? ==> Unmaintained(b.c)
    ensures b.pc.FencedGet? ==> Fenced(b.c)
    ensures WellKeyed(b.pc)
  {
    hide Successor, Record, Own, Earned;
  }

  /** Every call keeps telling the truth about what was found. */
  lemma StepTold(w: World, b: Run, fails: bool, l: Found)
    requires Facts(b) && Told(b, l)
    ensures Tells(Step(w, b, fails), if fails then l else Look(l, b.pc, w))
  {
    hide AfterSecret, PlainGetStep, PlainPutStep, JobGetStep, JobPostStep, JobDeleteStep, FailedGetStep, MaintGetStep,
         MaintPostStep, MaintDeleteStep, DepGetStep, DepPostStep, DepPutStep, RolloutGetStep, FencedGetStep, StatusGetStep,
         StatusPutStep, Told, Facts;
    DriverUnmaintained(b);
    match b.pc {
      case SecretGet => SecretTold(b, if fails then None else w.secret, l);
      case EarlyStatus => StatusEnds(w, b, b.c.rv);
      case PlainGet(o, m) => PlainTold(w, b, o, m, l);
      case PlainPut(o, m) => PlainTold(w, b, o, m, l);
      case JobGet(f, m) => JobGetTold(w, b, f, m, l);
      case JobPost(f, m) => JobPostTold(w, b, f, m, l);
      case JobDelete(f, m) => JobDeleteTold(w, b, f, m, l);
      case FailedGet(f) => FailedGetTold(w, b, f, fails, l);
      case MaintGet(f) => MaintGetTold(w, b, f, l);
      case MaintPost(f) => MaintWriteTold(w, b, f, l);
      case MaintDelete(f) => MaintWriteTold(w, b, f, l);
      case DepGet(k, m) => DepGetTold(w, b, k, m, l);
      case DepPost(k, m) => DepWriteTold(w, b, k, m, l);
      case DepPut(k, m, _) => DepWriteTold(w, b, k, m, l);
      case RolloutGet(k) => RolloutGetTold(w, b, k, l);
      case FencedGet(k) => FencedGetTold(w, b, k, l);
      case StatusGet(last) => StatusGetTold(w, b, last, l);
      case StatusPut(_, rv) => StatusEnds(w, b, rv);
    }
  }

  lemma StatusEnds(w: World, b: Run, rv: nat)
    ensures StatusPutStep(w, b, rv).ctl.Idle?
  {
  }

  // ----- over runs -----

  lemma BeginTold(w: World)
    ensures Told(Begin(w), NOTHING)
  {
  }

  /** What the reconcile in flight believes is what its own calls found. */
  lemma {:induction false} SeenTold(s: Sys, acts: seq<Act>)
    requires Initial(s)
    ensures Tells(Exec(s, acts), Seen(s, acts))
  {
    hide Step, Told, Facts, Begin, Look;
    if acts != [] {
      var before, a := acts[..|acts| - 1], acts[|acts| - 1];
      var t := Exec(s, before);
      SeenTold(s, before);
      ExecInv(s, before);
      if t.ctl.Busy? && a.Call? { StepTold(t.w, t.ctl.r, a.fails, Seen(s, before)); }
      if t.ctl.Idle? { BeginTold(t.w); }
    }
  }

  /**
   Readiness. When a reconcile comes to its end, components count as ready exactly when its own look at every component
   found the Deployment with all its pods ready, and init counts as ready exactly when its own look at every init job
   that is not switched off found it succeeded; fenced, init counts as ready unseen.
   */
  lemma Readiness(s: Sys, acts: seq<Act>)
    requires Initial(s) && Exec(s, acts).ctl.Busy?
    requires Exec(s, acts).ctl.r.pc == StatusGet(true) || (Exec(s, acts).ctl.r.pc.StatusPut? && Exec(s, acts).ctl.r.pc.last)
    ensures var b, l := Exec(s, acts).ctl.r, Seen(s, acts);
            && l.api.Some? && l.server.Some? && l.ui.Some?
            && (b.compReady <==> Healthy(l.api.value, Api) && Healthy(l.server.value, Server) && Healthy(l.ui.value, Ui))
            && (Fenced(b.c) ==> b.initReady)
            && (!Fenced(b.c) ==>
                  (b.initReady <==>
                    && (!Jobs.NsOff(b.c.spec) ==> SeenDone(l.ns, NsRegister, b.c.spec.version))
                    && (!Jobs.SearchOff(b.c.spec) ==> SeenDone(l.search, SearchAttr, b.c.spec.version))))
  {
    hide Exec, Facts, Told;
    SeenTold(s, acts);
    ExecInv(s, acts);
    EndTold(Exec(s, acts).ctl.r, Seen(s, acts));
  }

  lemma EndTold(b: Run, l: Found)
    requires Told(b, l) && Facts(b) && (b.pc == StatusGet(true) || (b.pc.StatusPut? && b.pc.last))
    ensures l.api.Some? && l.server.Some? && l.ui.Some?
    ensures b.compReady <==> Healthy(l.api.value, Api) && Healthy(l.server.value, Server) && Healthy(l.ui.value, Ui)
    ensures Fenced(b.c) ==> b.initReady
    ensures !Fenced(b.c) ==>
              (b.initReady <==>
                && (!Jobs.NsOff(b.c.spec) ==> SeenDone(l.ns, NsRegister, b.c.spec.version))
                && (!Jobs.SearchOff(b.c.spec) ==> SeenDone(l.search, SearchAttr, b.c.spec.version)))
  {
    hide Healthy, SeenDone, Successor, Record, Own, Earned, Moved;
    assert HealthKnown(b.pc, Api) && HealthKnown(b.pc, Server) && HealthKnown(b.pc, Ui);
    assert SeenHealthy(l, Api) == Healthy(l.api.value, Api) && SeenHealthy(l, Server) == Healthy(l.server.value, Server);
    assert SeenHealthy(l, Ui) == Healthy(l.ui.value, Ui);
  }

  // ----- a paused cluster -----

  /**
   A reconcile that read spec.paused makes a single call that changes no object and nothing of the cluster but its
   status: Ready turns False, the record stays.
   */
  lemma PausedIsLeftAlone(s: Sys, acts: seq<Act>, fails: bool)
    requires Initial(s) && Exec(s, acts).ctl.Busy? && Exec(s, acts).ctl.r.c.spec.paused
    ensures var t, n := Exec(s, acts), Apply(Exec(s, acts), Call(fails));
            && n.ctl.Idle? && n.w.deps == t.w.deps && n.w.jobs == t.w.jobs && n.w.plain == t.w.plain
            && n.w.cluster.spec == t.w.cluster.spec && n.w.cluster.backup == t.w.cluster.backup
            && (n.w.cluster.status == t.w.cluster.status ||
                (!fails && n.w.cluster.status ==
                  Status(t.ctl.r.c.generation,
                         t.w.cluster.status.conditions.(reconciling := Yes, ready := No),
                         t.w.cluster.status.upgrade)))
  {
    hide Exec;
    ExecInv(s, acts);
    PausedStops(Exec(s, acts).ctl.r);
  }

  lemma PausedStops(b: Run)
    requires Facts(b) && b.c.spec.paused
    ensures b.pc.EarlyStatus? && b.observed == b.c.generation && b.upgrade == b.c.status.upgrade
    ensures b.conds == b.c.status.conditions.(reconciling := Yes, ready := No)
  {
    hide Successor, Record, Own, Earned;
  }

  // ----- the conditions that are persisted -----

  predicate AllHealthy(l: Found) { SeenHealthy(l, Api) && SeenHealthy(l, Server) && SeenHealthy(l, Ui) }

  predicate AllDone(l: Found, c: Cluster) {
    || c.backup != ""
    || ((!Jobs.NsOff(c.spec) ==> SeenDone(l.ns, NsRegister, c.spec.version)) &&
        (!Jobs.SearchOff(c.spec) ==> SeenDone(l.search, SearchAttr, c.spec.version)))
  }

  function Truth(x: bool): Cond { if x then Yes else No }

  /** The conditions of a reconcile held in phase p, told from those read. */
  predicate HeldConditions(now: Conditions, r: Conditions, c: Cluster, p: Phase, l: Found) {
    var held := r.(reconciling := Yes, catalogReady := Yes, temporalReady := Yes, upgradeInProgress := Yes);
    match p
    case InitJobs => now == held.(initialized := No)
    case StartMaintenance => MaintenanceConditions(now, held, KeyOf(MaintenanceStart, c.spec.version), l)
    case EndMaintenance => MaintenanceConditions(now, held, KeyOf(MaintenanceEnd, c.spec.version), l)
    case _ => now == held
  }

  /** A missing job turns MaintenanceMode on, a failed one Degraded. */
  predicate MaintenanceConditions(now: Conditions, held: Conditions, key: JobKey, l: Found) {
    && l.maintenance.Some?
    && now == if key !in l.maintenance.value.jobs then held.(maintenanceMode := Yes)
              else if l.maintenance.value.jobs[key] == Failed then held.(degraded := Yes)
              else held
  }

  /** The conditions of a reconcile that came to its end with record u. */
  predicate EndConditions(now: Conditions, r: Conditions, c: Cluster, u: Option<Upgrade>, l: Found) {
    && now.reconciling == No && now.catalogReady == Yes && now.temporalReady == Yes
    && now.componentsReady == Truth(AllHealthy(l))
    && now.initialized == Truth(AllDone(l, c))
    && now.ready == Truth(AllHealthy(l) && AllDone(l, c))
    && now.backupSafe == Truth(c.backup == "" && u.Some? && u.value.phase == Complete && AllHealthy(l))
    && (c.backup != "" ==>
          now.upgradeInProgress == r.upgradeInProgress && now.maintenanceMode == r.maintenanceMode && now.degraded == r.degraded)
    && (c.backup == "" ==>
          && now.degraded == (if RecordPhase(c) == Blocked then No else r.degraded)
          && now.maintenanceMode == (if RecordPhase(c) == StartMaintenance then Yes
                                     else if RecordPhase(c) == EndMaintenance then No else r.maintenanceMode))
  }

  /**
   Every status the cluster controller ever persists: it replaces the status that was read, carries the generation that
   was read, and its conditions are those read, changed as the outcome of the reconcile demands.
   */
  lemma PersistedStatus(s: Sys, acts: seq<Act>, a: Act)
    requires Initial(s) && Persists(Exec(s, acts), a)
    ensures var t, l := Exec(s, acts), Seen(s, acts);
            var b, c, now := t.ctl.r, t.ctl.r.c, Apply(t, a).w.cluster.status;
            var r := t.w.cluster.status;
            && c.status == r && now.observedGeneration == c.generation
            && (c.spec.paused ==>
                  now.upgrade == r.upgrade && now.conditions == r.conditions.(reconciling := Yes, ready := No))
            && (!c.spec.paused && b.pc.EarlyStatus? ==>
                  now.upgrade == r.upgrade && now.conditions == r.conditions.(reconciling := Yes, catalogReady := No, ready := No))
            && (b.pc.StatusPut? && !b.pc.last ==> HeldConditions(now.conditions, r.conditions, c, RecordPhase(c), l))
            && (b.pc.StatusPut? && b.pc.last ==> EndConditions(now.conditions, r.conditions, c, now.upgrade, l))
  {
    hide Exec, Facts, Told, Apply;
    SeenTold(s, acts);
    ExecInv(s, acts);
    var t := Exec(s, acts);
    PersistsRun(t, a);
    PersistedTold(t.ctl.r, Seen(s, acts));
  }

  lemma PersistsRun(s: Sys, a: Act)
    requires Persists(s, a)
    ensures s.ctl.Busy? && (s.ctl.r.pc.StatusPut? || s.ctl.r.pc.EarlyStatus?)
    ensures Apply(s, a).w.cluster.status == Status(s.ctl.r.observed, s.ctl.r.conds, s.ctl.r.upgrade)
  {
  }

  lemma PersistedTold(b: Run, l: Found)
    requires Facts(b) && Told(b, l) && (b.pc.StatusPut? || b.pc.EarlyStatus?)
    ensures var r := b.c.status.conditions;
            && b.observed == b.c.generation
            && (b.c.spec.paused ==> b.upgrade == b.c.status.upgrade && b.conds == r.(reconciling := Yes, ready := No))
            && (!b.c.spec.paused && b.pc.EarlyStatus? ==>
                  b.upgrade == b.c.status.upgrade && b.conds == r.(reconciling := Yes, catalogReady := No, ready := No))
            && (b.pc.StatusPut? && !b.pc.last ==> HeldConditions(b.conds, r, b.c, RecordPhase(b.c), l))
            && (b.pc.StatusPut? && b.pc.last ==> EndConditions(b.conds, r, b.c, b.upgrade, l))
  {
    if b.pc.StatusPut? && b.pc.last { FinalTold(b, l); } else if b.pc.StatusPut? { HeldTold(b, l); } else { EarlyTold(b); }
  }

  lemma EarlyTold(b: Run)
    requires Facts(b) && b.pc.EarlyStatus?
    ensures b.observed == b.c.generation && b.upgrade == b.c.status.upgrade
    ensures b.conds == if b.c.spec.paused then b.c.status.conditions.(reconciling := Yes, ready := No)
                       else b.c.status.conditions.(reconciling := Yes, catalogReady := No, ready := No)
  {
    hide Successor, Record, Own, Earned;
  }

  lemma HeldTold(b: Run, l: Found)
    requires Facts(b) && Told(b, l) && b.pc.StatusPut? && !b.pc.last
    ensures b.observed == b.c.generation && !b.c.spec.paused
    ensures HeldConditions(b.conds, b.c.status.conditions, b.c, RecordPhase(b.c), l)
  {
    hide Successor, Record, Own, Earned, Healthy, SeenDone, HealthKnown, JobKnown, Sanitize;
  }

  lemma FinalTold(b: Run, l: Found)
    requires Facts(b) && Told(b, l) && b.pc.StatusPut? && b.pc.last
    ensures b.observed == b.c.generation && !b.c.spec.paused
    ensures EndConditions(b.conds, b.c.status.conditions, b.c, b.upgrade, l)
  {
    hide Successor, Record, Own, Earned, Healthy, SeenDone, Told;
    EndTold(b, l);
  }

  // ----- the failure check of the init jobs -----

  /** One look of the failure check: the world it was made in, and whether the call came through. */
  datatype Glance = Glance(w: World, heard: bool)
  datatype Checks = Checks(ns: Option<Glance>, search: Option<Glance>)

  const UNCHECKED := Checks(None, None)

  function Check(l: Checks, pc: Pc, w: World, fails: bool): Checks {
    match pc
    case FailedGet(NsRegister) => l.(ns := Some(Glance(w, !fails)))
    case FailedGet(SearchAttr) => l.(search := Some(Glance(w, !fails)))
    case _ => l
  }

  /** The looks of the failure check of the reconcile in flight. */
  ghost function Glances(s: Sys, acts: seq<Act>): Checks {
    if acts == [] then UNCHECKED
    else
      var before, a := acts[..|acts| - 1], acts[|acts| - 1];
      var t := Exec(s, before);
      if t.ctl.Idle? then UNCHECKED
      else if a.Call? then Check(Glances(s, before), t.ctl.r.pc, t.w, a.fails)
      else Glances(s, before)
  }

  /** The look came through and found the job failed. */
  predicate Bad(g: Option<Glance>, f: Family, version: string) {
    g.Some? && g.value.heard && KeyOf(f, version) in g.value.w.jobs && g.value.w.jobs[KeyOf(f, version)] == Failed
  }

  predicate HeldInInit(b: Run) {
    (b.pc == StatusGet(false) || (b.pc.StatusPut? && !b.pc.last)) && RecordPhase(b.c) == InitJobs
  }

  /** Blocked means a failed job was found; not blocked means every job that is not off was looked at in vain. */
  predicate CheckTold(b: Run, l: Checks) {
    && (!b.pc.FailedGet? && !HeldInInit(b) ==> l == UNCHECKED)
    && (b.pc == FailedGet(NsRegister) ==> l == UNCHECKED)
    && (b.pc == FailedGet(SearchAttr) ==>
          l.search.None? && !Bad(l.ns, NsRegister, b.c.spec.version) && (!Jobs.NsOff(b.c.spec) ==> l.ns.Some?))
    && (HeldInInit(b) ==>
          && (Jobs.BlockedAt(b.upgrade) <==> Bad(l.ns, NsRegister, b.c.spec.version) || Bad(l.search, SearchAttr, b.c.spec.version))
          && (!Jobs.BlockedAt(b.upgrade) ==> (!Jobs.NsOff(b.c.spec) ==> l.ns.Some?) && (!Jobs.SearchOff(b.c.spec) ==> l.search.Some?)))
  }

  ghost predicate ChecksTell(s: Sys, l: Checks) { s.ctl.Busy? ==> CheckTold(s.ctl.r, l) }

  /** The failure check neither begins nor ends here. */
  predicate OffCheck(r: Run) { !r.pc.FailedGet? && !HeldInInit(r) }

  lemma OffCheckTold(r: Run)
    requires OffCheck(r)
    ensures CheckTold(r, UNCHECKED)
  {
  }

  lemma FinalPassOff(r: Run)
    requires FinalPass(r.pc)
    ensures OffCheck(r)
  {
  }

  lemma LifecycleOff(b: Run, now: int)
    ensures OffCheck(Lifecycle(b, now))
  {
    hide Drive, StdStart;
    var u := CurrentRecord(b.c);
    StdStartOff(b.(upgrade := Some(u)));
    DriveOff(b.(upgrade := Some(u)), now);
    DriveOff(b.(upgrade := Some(Upgrade(u.to, b.c.spec.version, Waiting, Some(now)))), now);
  }

  lemma StdStartOff(b: Run)
    ensures !StdStart(b).pc.FailedGet? && !StdStart(b).pc.StatusGet? && !StdStart(b).pc.StatusPut?
  {
  }

  /** The driver holds at once only in Waiting and Blocked. */
  lemma DriveOff(b: Run, now: int)
    requires b.upgrade.Some?
    ensures !Drive(b, now).pc.FailedGet? && !Drive(b, now).pc.StatusPut?
    ensures Drive(b, now).pc == StatusGet(false) ==> b.upgrade.value.phase == Waiting || b.upgrade.value.phase == Blocked
  {
    hide MaintenanceWindow.InWindow;
  }

  lemma AfterPlainOff(b: Run, o: Plain, m: Mode, now: int)
    ensures OffCheck(AfterPlain(b, o, m, now))
  {
    hide Lifecycle, RecordPhase;
    LifecycleOff(b, now);
  }

  lemma PlainChecks(w: World, b: Run, o: Plain, m: Mode)
    ensures ChecksTell(PlainGetStep(w, b, o, m), UNCHECKED) && ChecksTell(PlainPutStep(w, b, o, m), UNCHECKED)
  {
    hide AfterPlain, DesiredPlain, CheckTold, RecordPhase;
    AfterPlainOff(b, o, m, w.clock);
    AfterPlainOff(Note(b, WrotePlain(o)), o, m, w.clock);
    OffCheckTold(AfterPlain(b, o, m, w.clock));
    OffCheckTold(AfterPlain(Note(b, WrotePlain(o)), o, m, w.clock));
    OffCheckTold(b.(pc := PlainPut(o, m)));
  }

  lemma AfterJobChecks(b: Run, f: Family, m: Mode)
    requires f == NsRegister || f == SearchAttr
    requires m == Upg && !b.initReady ==> !Jobs.BlockedAt(b.upgrade)
    ensures CheckTold(AfterJob(b, f, m), UNCHECKED)
  {
    hide RecordPhase;
  }

  lemma JobChecks(w: World, b: Run, f: Family, m: Mode)
    requires Facts(b) && (b.pc == JobGet(f, m) || b.pc == JobPost(f, m) || b.pc == JobDelete(f, m))
    ensures b.pc == JobGet(f, m) ==> ChecksTell(JobGetStep(w, b, f, m), UNCHECKED)
    ensures b.pc == JobPost(f, m) ==> ChecksTell(JobPostStep(w, b, f, m), UNCHECKED)
    ensures b.pc == JobDelete(f, m) ==> ChecksTell(JobDeleteStep(w, b, f, m), UNCHECKED)
  {
    hide AfterJob, CheckTold, Facts, Sanitize;
    var key := KeyFor(b, f);
    JobNotBlocked(b, f, m);
    AfterJobChecks(b.(h := b.h.(seen := b.h.seen + {key})), f, m);
    AfterJobChecks(Wait(b.(initReady := false)), f, m);
    AfterJobChecks(Note(b, WroteJob(key)), f, m);
    AfterJobChecks(Note(b.(initReady := false), WroteJob(key)), f, m);
    OffCheckTold(b.(initReady := false, pc := JobPost(f, m)));
    OffCheckTold(b.(pc := JobDelete(f, m)));
  }

  lemma JobNotBlocked(b: Run, f: Family, m: Mode)
    requires Facts(b) && (b.pc == JobGet(f, m) || b.pc == JobPost(f, m) || b.pc == JobDelete(f, m))
    ensures f == NsRegister || f == SearchAttr
    ensures m == Upg ==> !Jobs.BlockedAt(b.upgrade)
  {
    hide Own, Earned;
  }

  lemma FailedGetChecks(w: World, b: Run, f: Family, fails: bool, l: Checks)
    requires Facts(b) && b.pc == FailedGet(f) && CheckTold(b, l)
    ensures ChecksTell(FailedGetStep(w, b, f, fails), Check(l, b.pc, w, fails))
  {
    hide Sanitize, Facts;
    CheckStands(b, f);
  }

  /** During the failure check the record is in InitJobs and the job looked at is wanted. */
  lemma CheckStands(b: Run, f: Family)
    requires Facts(b) && b.pc == FailedGet(f)
    ensures f == NsRegister || f == SearchAttr
    ensures b.upgrade.Some? && !Jobs.BlockedAt(b.upgrade) && RecordPhase(b.c) == InitJobs && Enabled(b.c.spec, f)
  {
    hide Own, Earned;
  }

  lemma MaintChecks(w: World, b: Run, f: Family)
    requires Facts(b)
    ensures b.pc == MaintGet(f) ==> ChecksTell(MaintGetStep(w, b, f), UNCHECKED)
    ensures b.pc == MaintPost(f) ==> ChecksTell(MaintPostStep(w, b, f), UNCHECKED)
    ensures b.pc == MaintDelete(f) ==> ChecksTell(MaintDeleteStep(w, b, f), UNCHECKED)
  {
    hide MaintenanceDone, CheckTold, RecordPhase, Sanitize, Facts;
    MaintenanceStands(b, f);
    FinalPassOff(MaintenanceDone(b, f));
    OffCheckTold(MaintenanceDone(b, f));
    OffCheckTold(b.(conds := b.conds.(maintenanceMode := Yes), pc := MaintPost(f)));
    OffCheckTold(b.(conds := b.conds.(degraded := Yes), pc := MaintDelete(f)));
    if b.pc == MaintGet(f) || b.pc == MaintPost(f) || b.pc == MaintDelete(f) {
      MaintHeldOff(b, f);
      OffCheckTold(Stop(Wait(b)));
      OffCheckTold(Stop(Note(b, WroteJob(KeyFor(b, f)))));
    }
  }

  lemma MaintHeldOff(b: Run, f: Family)
    requires Facts(b) && (b.pc == MaintGet(f) || b.pc == MaintPost(f) || b.pc == MaintDelete(f))
    ensures OffCheck(Stop(Wait(b))) && OffCheck(Stop(Note(b, WroteJob(KeyFor(b, f)))))
  {
    hide Own, Earned, Sanitize;
  }

  lemma DeploymentChecks(w: World, b: Run, fails: bool)
    requires b.pc.DepGet? || b.pc.DepPost? || b.pc.DepPut? || b.pc.FencedGet?
    ensures ChecksTell(Step(w, b, fails), UNCHECKED)
  {
    hide Build, LabelsOf, LiveObject.UpToDate, LiveObject.Merge, RecordPhase;
  }

  lemma RolloutChecks(w: World, b: Run, k: Component)
    requires Facts(b) && b.pc == RolloutGet(k)
    ensures ChecksTell(RolloutGetStep(w, b, k), UNCHECKED)
  {
    hide RolledOutPhase, Build, LiveObject.RolledOut, CheckTold, Facts;
    RolledOutStands(b, k);
    FinalPassOff(RolledOutPhase(b, k));
    OffCheckTold(RolledOutPhase(b, k));
    RolloutHeldOff(b, k);
    OffCheckTold(Stop(Wait(b)));
  }

  lemma RolloutHeldOff(b: Run, k: Component)
    requires Facts(b) && b.pc == RolloutGet(k)
    ensures OffCheck(Stop(Wait(b)))
  {
    hide Own, Earned;
  }

  lemma StatusChecks(w: World, b: Run, last: bool, l: Checks)
    requires b.pc == StatusGet(last) && CheckTold(b, l)
    ensures ChecksTell(StatusGetStep(w, b, last), l)
  {
    hide RecordPhase, Bad, Jobs.NsOff, Jobs.SearchOff;
  }

  lemma SecretChecks(b: Run, secret: Option<string>)
    ensures CheckTold(AfterSecret(b, secret), UNCHECKED)
  {
    hide ConfigHash.ClusterText, DesiredPlain;
  }

  lemma Unchecked(b: Run, l: Checks)
    requires CheckTold(b, l)
    ensures !b.pc.FailedGet? && !b.pc.StatusGet? && !b.pc.StatusPut? ==> l == UNCHECKED
  {
  }

  lemma StepChecks(w: World, b: Run, fails: bool, l: Checks)
    requires Facts(b) && CheckTold(b, l)
    ensures ChecksTell(Step(w, b, fails), Check(l, b.pc, w, fails))
  {
    hide AfterSecret, PlainGetStep, PlainPutStep, JobGetStep, JobPostStep, JobDeleteStep, FailedGetStep, MaintGetStep,
         MaintPostStep, MaintDeleteStep, DepGetStep, DepPostStep, DepPutStep, RolloutGetStep, FencedGetStep, StatusGetStep,
         StatusPutStep, CheckTold, Facts;
    Unchecked(b, l);
    match b.pc {
      case SecretGet => SecretChecks(b, if fails then None else w.secret);
      case EarlyStatus => StatusEnds(w, b, b.c.rv);
      case PlainGet(o, m) => PlainChecks(w, b, o, m);
      case PlainPut(o, m) => PlainChecks(w, b, o, m);
      case JobGet(f, m) => JobChecks(w, b, f, m);
      case JobPost(f, m) => JobChecks(w, b, f, m);
      case JobDelete(f, m) => JobChecks(w, b, f, m);
      case FailedGet(f) => FailedGetChecks(w, b, f, fails, l);
      case MaintGet(f) => MaintChecks(w, b, f);
      case MaintPost(f) => MaintChecks(w, b, f);
      case MaintDelete(f) => MaintChecks(w, b, f);
      case DepGet(_, _) => DeploymentChecks(w, b, fails);
      case DepPost(_, _) => DeploymentChecks(w, b, fails);
      case DepPut(_, _, _) => DeploymentChecks(w, b, fails);
      case RolloutGet(k) => RolloutChecks(w, b, k);
      case FencedGet(_) => DeploymentChecks(w, b, fails);
      case StatusGet(last) => StatusChecks(w, b, last, l);
      case StatusPut(_, rv) => StatusEnds(w, b, rv);
    }
  }

  lemma BeginChecks(w: World)
    ensures CheckTold(Begin(w), UNCHECKED)
  {
  }

  lemma {:induction false} GlancesTold(s: Sys, acts: seq<Act>)
    requires Initial(s)
    ensures ChecksTell(Exec(s, acts), Glances(s, acts))
  {
    hide Step, CheckTold, Facts, Begin, Check;
    if acts != [] {
      var before, a := acts[..|acts| - 1], acts[|acts| - 1];
      var t := Exec(s, before);
      GlancesTold(s, before);
      ExecInv(s, before);
      if t.ctl.Busy? && a.Call? { StepChecks(t.w, t.ctl.r, a.fails, Glances(s, before)); }
      if t.ctl.Idle? { BeginChecks(t.w); }
    }
  }

  /**
   The failure check. A reconcile held in InitJobs is about to persist Blocked exactly when one of its own looks came
   through and found an init job of the version failed; otherwise it has looked at every init job that is not off.
   */
  lemma FailureCheck(s: Sys, acts: seq<Act>)
    requires Initial(s) && Exec(s, acts).ctl.Busy? && HeldInInit(Exec(s, acts).ctl.r)
    ensures var b, l := Exec(s, acts).ctl.r, Glances(s, acts);
            && (Jobs.BlockedAt(b.upgrade) <==>
                  Bad(l.ns, NsRegister, b.c.spec.version) || Bad(l.search, SearchAttr, b.c.spec.version))
            && (!Jobs.BlockedAt(b.upgrade) ==>
                  (!Jobs.NsOff(b.c.spec) ==> l.ns.Some?) && (!Jobs.SearchOff(b.c.spec) ==> l.search.Some?))
  {
    hide Exec, HeldInInit, Bad;
    GlancesTold(s, acts);
  }
}
