/**
 Writes over runs: a record is opened with the versions and the time of that moment, and no update of the status or of
 a Deployment ever replaces an object other than the one that was read.
 */
module Writes {
  import opened Basics
  import opened JobNames
  import opened Model
  import opened ClusterMachine
  import opened ReconcileFacts
  import opened PhaseGraph
  import LiveObject
  import ConfigHash

  // ----- the record a reconcile works with -----

  /** A call keeps the record but for its phase, fills in the missing one, or opens one stamped with the clock. */
  predicate Stamps(w: World, b: Run, s: Sys) {
    s.ctl.Busy? ==>
      || Kept(b.upgrade, s.ctl.r.upgrade)
      || Kept(Some(CurrentRecord(b.c)), s.ctl.r.upgrade)
      || (s.ctl.r.upgrade.Some? && s.ctl.r.upgrade.value.startedAt == Some(w.clock))
  }

  lemma PlainStamps(w: World, b: Run, o: Plain, m: Mode)
    ensures Stamps(w, b, PlainGetStep(w, b, o, m)) && Stamps(w, b, PlainPutStep(w, b, o, m))
  {
    hide AfterPlain, DesiredPlain, Reads, CurrentRecord;
  }

  lemma DeploymentStamps(w: World, b: Run, fails: bool)
    requires b.pc.DepGet? || b.pc.DepPost? || b.pc.DepPut? || b.pc.RolloutGet?
    ensures Stamps(w, b, Step(w, b, fails))
  {
    hide RolledOutPhase, Build, LabelsOf, LiveObject.UpToDate, LiveObject.Merge, LiveObject.RolledOut, Reads, NewPass, CurrentRecord;
  }

  lemma StepStamps(w: World, b: Run, fails: bool)
    ensures Stamps(w, b, Step(w, b, fails))
  {
    hide ConfigHash.ClusterText, AfterJob, FailuresDone, MaintenanceDone, AfterFencedGet, DesiredPlain, NewPass, Reads,
         PlainGetStep, PlainPutStep, DepGetStep, DepPostStep, DepPutStep, RolloutGetStep, CurrentRecord;
    match b.pc {
      case PlainGet(o, m) => PlainStamps(w, b, o, m);
      case PlainPut(o, m) => PlainStamps(w, b, o, m);
      case DepGet(_, _) => DeploymentStamps(w, b, fails);
      case DepPost(_, _) => DeploymentStamps(w, b, fails);
      case DepPut(_, _, _) => DeploymentStamps(w, b, fails);
      case RolloutGet(_) => DeploymentStamps(w, b, fails);
      case _ =>
    }
  }

  /** The record worked on was opened, as opposed to read or filled in. */
  predicate Fresh(b: Run) {
    && b.upgrade.Some? && !Kept(b.c.status.upgrade, b.upgrade) && !Kept(Some(CurrentRecord(b.c)), b.upgrade)
  }

  /** A freshly opened record carries the time of a moment, j, since the reconcile began. */
  lemma {:induction false} OpeningMoment(s: Sys, acts: seq<Act>, b: Run) returns (j: nat)
    requires Initial(s) && Exec(s, acts).ctl == Busy(b) && Fresh(b)
    ensures j < |acts| && InFlight(s, acts, j) && b.upgrade.value.startedAt == Some(Exec(s, acts[..j]).w.clock)
  {
    hide Step, Facts, CurrentRecord;
    var before, a := acts[..|acts| - 1], acts[|acts| - 1];
    var t := Exec(s, before);
    assert acts[..|acts|] == acts && acts[..|before|] == before;
    if a.Call? {
      ExecInv(s, before);
      StepStamps(t.w, t.ctl.r, a.fails);
      StepFacts(t.w, t.ctl.r, a.fails);
      if b.upgrade.value.startedAt == Some(t.w.clock) { return |before|; }
    }
    if t.ctl.Idle? {
      BeginKeeps(t.w);
      assert false;
    }
    j := OpeningMoment(s, before, t.ctl.r);
    assert before[..j] == acts[..j];
    forall i | j <= i <= |acts| ensures Exec(s, acts[..i]).ctl.Busy? {
      if i <= |before| { assert before[..i] == acts[..i] && Exec(s, before[..i]).ctl.Busy?; }
    }
  }

  lemma BeginKeeps(w: World)
    ensures !Fresh(Begin(w))
  {
  }

  /**
   What the first persisted record and every opened one look like. With no record the version in force is taken as
   complete. A record opens from a completed one towards the version read, stamped with a moment of the reconcile.
   */
  lemma NewRecords(s: Sys, acts: seq<Act>, a: Act) returns (j: nat)
    requires Initial(s)
    requires var u, v := RecordAt(Exec(s, acts)), RecordAt(Apply(Exec(s, acts), a)); u != v
    ensures var t := Exec(s, acts);
            var u, v, c := RecordAt(t), RecordAt(Apply(t, a)), t.ctl.r.c;
            && v.Some?
            && (u.None? ==> v == Some(Upgrade("", c.spec.version, Complete, None)))
            && (u.Some? && u.value.phase == Complete ==>
                  && v.value.from == u.value.to && v.value.to == c.spec.version != u.value.to
                  && j < |acts| && InFlight(s, acts, j) && v.value.startedAt == Some(Exec(s, acts[..j]).w.clock))
            && (u.Some? && u.value.phase != Complete ==> v.value == u.value.(phase := v.value.phase))
  {
    hide Exec, Apply, Facts;
    ExecInv(s, acts);
    var t := Exec(s, acts);
    ApplyInv(t, a);
    PersistsThis(t, a);
    RecordOf(t.ctl.r);
    j := 0;
    if RecordAt(t).Some? && RecordAt(t).value.phase == Complete { j := OpeningMoment(s, acts, t.ctl.r); }
  }

  lemma PersistsThis(s: Sys, a: Act)
    requires Persists(s, a)
    ensures s.ctl.Busy? && Persistable(s.ctl.r) && RecordAt(Apply(s, a)) == s.ctl.r.upgrade
  {
  }

  lemma RecordOf(b: Run)
    requires Facts(b) && Persistable(b) && b.upgrade != b.c.status.upgrade
    ensures b.upgrade.Some?
    ensures b.c.status.upgrade.None? ==> b.upgrade == Some(Upgrade("", b.c.spec.version, Complete, None))
    ensures b.c.status.upgrade.Some? && b.c.status.upgrade.value.phase == Complete ==>
              Fresh(b) && b.upgrade.value.from == b.c.status.upgrade.value.to
              && b.upgrade.value.to == b.c.spec.version != b.c.status.upgrade.value.to
    ensures b.c.status.upgrade.Some? && b.c.status.upgrade.value.phase != Complete ==>
              b.upgrade.value == b.c.status.upgrade.value.(phase := b.upgrade.value.phase)
  {
    hide GateOpen, Own;
  }

  // ----- no lost update of the cluster -----

  /** An act either leaves the cluster object or gives it a resource version never used before. */
  predicate Versions(w: World, v: World) {
    v.nextRv >= w.nextRv && (v.cluster == w.cluster || (v.cluster.rv == w.nextRv && v.nextRv > w.nextRv))
  }

  lemma StepVersions(w: World, b: Run, fails: bool)
    ensures Versions(w, Step(w, b, fails).w)
  {
    hide Step, Reads;
    if Reads(b.pc) { ReadsOnly(w, b, fails); } else { WriteVersions(w, b, fails); }
  }

  lemma WriteVersions(w: World, b: Run, fails: bool)
    requires !Reads(b.pc)
    ensures Versions(w, Step(w, b, fails).w)
  {
    hide AfterPlain, AfterJob, Build, LabelsOf, LiveObject.Merge, DesiredPlain, Stop, NewPass;
  }

  lemma ActVersions(s: Sys, a: Act)
    ensures Versions(s.w, Apply(s, a).w)
  {
    hide Step;
    if a.Call? && s.ctl.Busy? { StepVersions(s.w, s.ctl.r, a.fails); }
  }

  /** Over a run, an equal resource version means the same cluster object. */
  lemma {:induction false} ClusterVersions(s: Sys, acts: seq<Act>, i: nat)
    requires s.w.cluster.rv < s.w.nextRv && i <= |acts|
    ensures var m, t := Exec(s, acts[..i]).w, Exec(s, acts).w;
            && t.cluster.rv < t.nextRv && m.cluster.rv <= t.cluster.rv
            && (m.cluster.rv == t.cluster.rv ==> m.cluster == t.cluster)
  {
    hide Apply;
    if i == |acts| {
      assert acts[..i] == acts;
      if acts != [] {
        ClusterVersions(s, acts[..|acts| - 1], 0);
        ActVersions(Exec(s, acts[..|acts| - 1]), acts[|acts| - 1]);
      }
    } else {
      var before := acts[..|acts| - 1];
      assert before[..i] == acts[..i];
      ClusterVersions(s, before, i);
      ActVersions(Exec(s, before), acts[|acts| - 1]);
    }
  }

  lemma IntoStatusPut(w: World, b: Run, fails: bool)
    ensures var n := Step(w, b, fails);
            n.ctl.Busy? && n.ctl.r.pc.StatusPut? ==> b.pc.StatusGet? && !fails && n.ctl.r.pc.rv == w.cluster.rv
  {
    hide Step, Reads;
    if !b.pc.StatusGet? { NeverStatusPut(w, b, fails); } else { FromStatusGet(w, b, fails); }
  }

  lemma FromStatusGet(w: World, b: Run, fails: bool)
    requires b.pc.StatusGet?
    ensures var n := Step(w, b, fails); n.ctl.Busy? ==> !fails && n.ctl.r.pc == StatusPut(b.pc.last, w.cluster.rv)
  {
  }

  lemma NeverStatusPut(w: World, b: Run, fails: bool)
    requires !b.pc.StatusGet?
    ensures var n := Step(w, b, fails); n.ctl.Busy? ==> !n.ctl.r.pc.StatusPut?
  {
    hide ConfigHash.ClusterText, AfterPlain, AfterJob, FailuresDone, MaintenanceDone, RolledOutPhase, AfterFencedGet,
         Build, LabelsOf, LiveObject.UpToDate, LiveObject.Merge, LiveObject.RolledOut, DesiredPlain, NewPass;
  }

  /** The last read of updateStatus. */
  lemma {:induction false} LatestRead(s: Sys, acts: seq<Act>) returns (j: nat)
    requires s.ctl.Idle? && Exec(s, acts).ctl.Busy? && Exec(s, acts).ctl.r.pc.StatusPut?
    ensures j < |acts| && InFlight(s, acts, j) && acts[j] == Call(false)
    ensures Exec(s, acts[..j]).ctl.r.pc.StatusGet? && Exec(s, acts[..j]).w.cluster.rv == Exec(s, acts).ctl.r.pc.rv
  {
    hide Step;
    var before, a := acts[..|acts| - 1], acts[|acts| - 1];
    var t := Exec(s, before);
    assert acts[..|acts|] == acts && acts[..|before|] == before;
    if a.Call? {
      IntoStatusPut(t.w, t.ctl.r, a.fails);
      j := |before|;
    } else {
      j := LatestRead(s, before);
      assert before[..j] == acts[..j];
      forall i | j <= i <= |acts| ensures Exec(s, acts[..i]).ctl.Busy? {
        if i <= |before| { assert before[..i] == acts[..i] && Exec(s, before[..i]).ctl.Busy?; }
      }
    }
  }

  /**
   A status is written only over the cluster object that was read: at the start of a reconcile that stops early, or by
   updateStatus, at j, just before. An edit in between makes the write fail.
   */
  lemma StatusOverWhatWasRead(s: Sys, acts: seq<Act>) returns (j: nat)
    requires Initial(s) && Exec(s, acts).ctl.Busy? && Exec(s, acts).ctl.r.pc.StatusPut?
    ensures j < |acts| && InFlight(s, acts, j) && Exec(s, acts[..j]).ctl.r.pc.StatusGet? && acts[j] == Call(false)
    ensures Apply(Exec(s, acts), Call(false)).w.cluster != Exec(s, acts).w.cluster ==>
              Exec(s, acts).w.cluster == Exec(s, acts[..j]).w.cluster
  {
    hide Exec;
    j := LatestRead(s, acts);
    ClusterVersions(s, acts, j);
  }

  // ----- no lost update of a Deployment -----

  /** Versions are below the next one, and the version a reconcile read stands for what it read. */
  predicate Truthful(w: World, b: Run) {
    b.pc.DepPut? ==>
      var k, read := b.pc.k, b.pc.read;
      read.rv < w.nextRv && (k in w.deps && w.deps[k].rv == read.rv ==> w.deps[k] == read)
  }

  predicate Below(w: World) { forall k :: k in w.deps ==> w.deps[k].rv < w.nextRv }

  ghost predicate TruthfulAt(s: Sys) { Below(s.w) && (s.ctl.Busy? ==> Truthful(s.w, s.ctl.r)) }

  lemma DeploymentTruthful(w: World, b: Run, fails: bool)
    requires Below(w) && Truthful(w, b) && (b.pc.DepGet? || b.pc.DepPost? || b.pc.DepPut?)
    ensures TruthfulAt(Step(w, b, fails))
  {
    hide Build, LabelsOf, LiveObject.UpToDate, LiveObject.Merge;
  }

  lemma OtherTruthful(w: World, b: Run, fails: bool)
    requires !b.pc.DepGet? && !b.pc.DepPost? && !b.pc.DepPut?
    ensures var n := Step(w, b, fails); n.w.deps == w.deps && n.w.nextRv >= w.nextRv && (n.ctl.Busy? ==> !n.ctl.r.pc.DepPut?)
  {
    hide Step, Reads;
    if Reads(b.pc) { ReadsOnly(w, b, fails); } else { WritesNoDeployment(w, b, fails); }
    NeverDepPut(w, b, fails);
  }

  lemma WritesNoDeployment(w: World, b: Run, fails: bool)
    requires !Reads(b.pc) && !b.pc.DepPost? && !b.pc.DepPut?
    ensures Step(w, b, fails).w.deps == w.deps && Step(w, b, fails).w.nextRv >= w.nextRv
  {
    hide AfterPlain, AfterJob, DesiredPlain, Stop, NewPass;
  }

  lemma NeverDepPut(w: World, b: Run, fails: bool)
    requires !b.pc.DepGet? && !b.pc.DepPost? && !b.pc.DepPut?
    ensures var n := Step(w, b, fails); n.ctl.Busy? ==> !n.ctl.r.pc.DepPut?
  {
    hide ConfigHash.ClusterText, AfterPlain, AfterJob, FailuresDone, MaintenanceDone, RolledOutPhase, AfterFencedGet,
         Build, LiveObject.RolledOut, DesiredPlain, NewPass, DepGetStep, DepPostStep, DepPutStep;
  }

  lemma ActTruthful(s: Sys, a: Act)
    requires TruthfulAt(s)
    ensures TruthfulAt(Apply(s, a))
  {
    hide Step;
    if a.Call? && s.ctl.Busy? {
      if s.ctl.r.pc.DepGet? || s.ctl.r.pc.DepPost? || s.ctl.r.pc.DepPut? {
        DeploymentTruthful(s.w, s.ctl.r, a.fails);
      } else {
        OtherTruthful(s.w, s.ctl.r, a.fails);
      }
    }
  }

  lemma {:induction false} RunTruthful(s: Sys, acts: seq<Act>)
    requires Initial(s)
    ensures TruthfulAt(Exec(s, acts))
  {
    hide Apply, TruthfulAt;
    if acts == [] {
      InitialTruthful(s);
    } else {
      RunTruthful(s, acts[..|acts| - 1]);
      ActTruthful(Exec(s, acts[..|acts| - 1]), acts[|acts| - 1]);
    }
  }

  lemma InitialTruthful(s: Sys)
    requires Initial(s)
    ensures TruthfulAt(s)
  {
  }

  /**
   An existing Deployment is changed by a call only when it is, in every field, the one this reconcile read, and then
   only labels and managed fields change: what anybody else wrote since stands.
   */
  lemma DeploymentOverWhatWasRead(s: Sys, acts: seq<Act>, fails: bool, k: Component)
    requires Initial(s) && Exec(s, acts).ctl.Busy? && k in Exec(s, acts).w.deps
    requires var v := Apply(Exec(s, acts), Call(fails)).w; !(k in v.deps && v.deps[k] == Exec(s, acts).w.deps[k])
    ensures var t := Exec(s, acts); var b, v := t.ctl.r, Apply(t, Call(fails)).w;
            && b.pc.DepPut? && b.pc.k == k && t.w.deps[k] == b.pc.read
            && k in v.deps && v.deps[k].status == b.pc.read.status
            && LiveObject.ManagedFrom(v.deps[k].spec, b.pc.read.spec, Build(b.c, k, b.hash))
  {
    hide Exec, Step, Build, LiveObject.ManagedFrom;
    RunTruthful(s, acts);
    var t := Exec(s, acts);
    if t.ctl.r.pc.DepGet? || t.ctl.r.pc.DepPost? || t.ctl.r.pc.DepPut? {
      PutOverRead(t.w, t.ctl.r, fails, k);
    } else {
      OtherTruthful(t.w, t.ctl.r, fails);
    }
  }

  lemma PutOverRead(w: World, b: Run, fails: bool, k: Component)
    requires Truthful(w, b) && k in w.deps && (b.pc.DepGet? || b.pc.DepPost? || b.pc.DepPut?)
    ensures var v := Step(w, b, fails).w;
            (k in v.deps && v.deps[k] == w.deps[k]) ||
            (&& b.pc.DepPut? && b.pc.k == k && w.deps[k] == b.pc.read
             && k in v.deps && v.deps[k].status == b.pc.read.status
             && LiveObject.ManagedFrom(v.deps[k].spec, b.pc.read.spec, Build(b.c, k, b.hash)))
  {
    hide Build, LabelsOf, LiveObject.UpToDate, LiveObject.Merge, LiveObject.ManagedFrom;
    if b.pc.DepPut? {
      var read, want := b.pc.read.spec, Build(b.c, k, b.hash);
      LiveObject.MergeIsManagedFrom(LiveObject.Merge(read, want), read, want);
    }
  }

  // ----- errors -----

  /** The object a call depends on is not as the reconcile saw it: there already, or gone. */
  predicate Collides(w: World, b: Run) {
    match b.pc
    case JobPost(f, _) => KeyFor(b, f) in w.jobs
    case MaintPost(f) => KeyFor(b, f) in w.jobs
    case DepPost(k, _) => k in w.deps
    case DepPut(k, _, _) => k !in w.deps
    case RolloutGet(k) => k !in w.deps
    case _ => false
  }

  /**
   A call that fails, or that collides, ends the reconcile and changes nothing: in particular no status is persisted.
   Two failing reads are no errors: an unreadable secret, and the look for a failed init job.
   */
  lemma ErrorsEnd(w: World, b: Run, fails: bool)
    requires (fails && !b.pc.SecretGet? && !b.pc.FailedGet?) || (!fails && Collides(w, b))
    ensures Step(w, b, fails) == Sys(w, Idle)
  {
    hide Sanitize;
  }
}
