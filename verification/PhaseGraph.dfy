/**
 Every persisted step of an upgrade follows the phase graph, over every run: with crashes, lost status
 writes, conflicting edits and anything else happening between any two API calls.
 */
module PhaseGraph {
  import opened Basics
  import opened Model
  import opened ClusterMachine
  import opened ReconcileFacts

  /** The graph of phases; the only way back is InitJobs to Blocked to Waiting. */
  predicate PhaseEdge(p: Phase, q: Phase) {
    match p
    case Waiting => q == StartMaintenance || q == Config
    case Blocked => q == Waiting
    case StartMaintenance => q == Config
    case Config => q == InitJobs
    case InitJobs => q == FlowAPI || q == Blocked
    case FlowAPI => q == PeerDBServer
    case PeerDBServer => q == UI
    case UI => q == EndMaintenance || q == Complete
    case EndMaintenance => q == Complete
    case Complete => false
  }

  /** A record opens from a completed one and starts where that one ended; it may leave Waiting in the same step. */
  predicate OpeningEdge(a: Upgrade, b: Upgrade) {
    && a.phase == Complete
    && (b.phase == Waiting || b.phase == StartMaintenance || b.phase == Config)
    && b.from == a.to && b.to != a.to
  }

  predicate SameRecord(a: Upgrade, b: Upgrade) { b.from == a.from && b.to == a.to && b.startedAt == a.startedAt }

  /** What one persisted step may do to status.upgrade. */
  predicate Edge(a: Option<Upgrade>, b: Option<Upgrade>) {
    || a == b
    || (a.None? && b.Some? && b.value.phase == Complete)
    || (a.Some? && b.Some? && OpeningEdge(a.value, b.value))
    || (a.Some? && b.Some? && SameRecord(a.value, b.value) && PhaseEdge(a.value.phase, b.value.phase))
  }

  predicate Persistable(b: Run) { b.pc.EarlyStatus? || b.pc.StatusGet? || b.pc.StatusPut? }

  /** What a reconcile persists is one edge away from what it read. */
  lemma FactsGiveEdge(b: Run)
    requires Facts(b) && Persistable(b)
    ensures Edge(b.c.status.upgrade, b.upgrade)
  {
    hide GateOpen, Own;
  }

  ghost function RecordAt(s: Sys): Option<Upgrade> { s.w.cluster.status.upgrade }

  lemma ApplyEdge(s: Sys, a: Act)
    requires Inv(s)
    ensures Edge(RecordAt(s), RecordAt(Apply(s, a)))
  {
    hide Apply, Edge, Facts;
    ApplyInv(s, a);
    if Apply(s, a).w.cluster.status != s.w.cluster.status {
      FactsGiveEdge(s.ctl.r);
    } else {
      EdgeReflexive(RecordAt(s));
    }
  }

  lemma EdgeReflexive(a: Option<Upgrade>)
    ensures Edge(a, a)
  {
  }

  /** The upgrade records persisted along a run, one per state. */
  ghost function Trail(s: Sys, acts: seq<Act>): (t: seq<Option<Upgrade>>)
    ensures |t| == |acts| + 1 && t[|acts|] == RecordAt(Exec(s, acts))
  {
    if acts == [] then [RecordAt(s)]
    else Trail(s, acts[..|acts| - 1]) + [RecordAt(Exec(s, acts))]
  }

  ghost predicate FollowsGraph(t: seq<Option<Upgrade>>) {
    forall i :: 0 <= i < |t| - 1 ==> Edge(t[i], t[i + 1])
  }

  /** Every run moves the persisted record along the graph, one edge at a time. */
  lemma {:induction false} RunsFollowTheGraph(s: Sys, acts: seq<Act>)
    requires Inv(s)
    ensures FollowsGraph(Trail(s, acts))
  {
    hide Edge, Apply, Inv;
    if acts != [] {
      var before := acts[..|acts| - 1];
      RunsFollowTheGraph(s, before);
      ExecInv(s, before);
      ApplyEdge(Exec(s, before), acts[|acts| - 1]);
      var t := Trail(s, acts);
      forall i | 0 <= i < |t| - 1 ensures Edge(t[i], t[i + 1]) {
        if i < |t| - 2 { assert Edge(Trail(s, before)[i], Trail(s, before)[i + 1]); }
      }
    }
  }

  // ----- the order of the phases -----

  predicate In(t: seq<Option<Upgrade>>, i: int, p: Phase) {
    0 <= i < |t| && t[i].Some? && t[i].value.phase == p
  }

  predicate Active(u: Option<Upgrade>) { u.Some? && u.value.phase != Complete }

  /** The record is in progress strictly between j and k, and was not at j. */
  ghost predicate Span(t: seq<Option<Upgrade>>, j: nat, k: nat) {
    j < k < |t| && !Active(t[j]) && forall i :: j < i < k ==> Active(t[i])
  }

  predicate OnlyAfter(q: Phase, p: Phase) {
    || (p == Config && q == InitJobs) || (p == InitJobs && q == FlowAPI) || (p == FlowAPI && q == PeerDBServer)
    || (p == PeerDBServer && q == UI) || (p == UI && q == EndMaintenance)
  }

  /** A phase of the rollout is reached only from the one before it, within the same record. */
  lemma {:induction false} PhaseBefore(t: seq<Option<Upgrade>>, j: nat, k: nat, q: Phase, p: Phase) returns (i: nat)
    requires FollowsGraph(t) && Span(t, j, k) && In(t, k, q) && OnlyAfter(q, p)
    ensures j < i < k && In(t, i, p)
  {
    assert Edge(t[k - 1], t[k]);
    if k - 1 > j && t[k - 1].value.phase == q {
      i := PhaseBefore(t, j, k - 1, q, p);
    } else {
      i := k - 1;
    }
  }

  /** A record is persisted as Complete only after Config, InitJobs, FlowAPI, PeerDBServer and UI were, in that order. */
  lemma CompleteComesLast(t: seq<Option<Upgrade>>, j: nat, k: nat) returns (c: nat, i: nat, a: nat, v: nat, u: nat)
    requires FollowsGraph(t) && Span(t, j, k) && j + 1 < k && In(t, k, Complete)
    ensures j < c < i < a < v < u < k
    ensures In(t, c, Config) && In(t, i, InitJobs) && In(t, a, FlowAPI) && In(t, v, PeerDBServer) && In(t, u, UI)
  {
    assert Edge(t[k - 1], t[k]);
    if t[k - 1].value.phase == UI { u := k - 1; } else { u := PhaseBefore(t, j, k - 1, EndMaintenance, UI); }
    v := PhaseBefore(t, j, u, UI, PeerDBServer);
    a := PhaseBefore(t, j, v, PeerDBServer, FlowAPI);
    i := PhaseBefore(t, j, a, FlowAPI, InitJobs);
    c := PhaseBefore(t, j, i, InitJobs, Config);
  }

  /** CompleteComesLast for the records a run persists. */
  lemma UpgradeOrder(s: Sys, acts: seq<Act>, j: nat, k: nat) returns (c: nat, i: nat, a: nat, v: nat, u: nat)
    requires Initial(s)
    requires Span(Trail(s, acts), j, k) && j + 1 < k && In(Trail(s, acts), k, Complete)
    ensures j < c < i < a < v < u < k
    ensures var t := Trail(s, acts);
            In(t, c, Config) && In(t, i, InitJobs) && In(t, a, FlowAPI) && In(t, v, PeerDBServer) && In(t, u, UI)
  {
    hide Edge;
    RunsFollowTheGraph(s, acts);
    c, i, a, v, u := CompleteComesLast(Trail(s, acts), j, k);
  }

  // ----- the chain of versions -----

  predicate OpensAt(t: seq<Option<Upgrade>>, i: int) {
    0 <= i < |t| - 1 && t[i].Some? && t[i + 1].Some? && OpeningEdge(t[i].value, t[i + 1].value)
  }

  /** Until the next opening a record keeps its versions and its start. */
  lemma {:induction false} RecordIsFixed(t: seq<Option<Upgrade>>, i: nat, j: nat)
    requires FollowsGraph(t) && i <= j < |t| && t[i].Some?
    requires forall x :: i <= x < j ==> !OpensAt(t, x)
    ensures t[j].Some? && SameRecord(t[i].value, t[j].value)
  {
    if i < j {
      RecordIsFixed(t, i, j - 1);
      assert Edge(t[j - 1], t[j]) && !OpensAt(t, j - 1);
    }
  }

  /** A record opened at j starts from the version the previous one, opened at i, went to. */
  lemma RecordsChain(t: seq<Option<Upgrade>>, i: nat, j: nat)
    requires FollowsGraph(t) && i < j && OpensAt(t, i) && OpensAt(t, j)
    requires forall x :: i < x < j ==> !OpensAt(t, x)
    ensures t[j + 1].value.from == t[i + 1].value.to
    ensures t[j + 1].value.to != t[i + 1].value.to
  {
    RecordIsFixed(t, i + 1, j);
  }

  ghost function Openings(t: seq<Option<Upgrade>>): nat {
    if |t| < 2 then 0 else Openings(t[..|t| - 1]) + if OpensAt(t, |t| - 2) then 1 else 0
  }

  /** The reconcile in flight read another version than v. */
  ghost predicate Stale(s: Sys, v: string) { s.ctl.Busy? && s.ctl.r.c.spec.version != v }

  ghost predicate EditsVersion(a: Act, v: string) { a.Outside? && a.e.EditSpec? && a.e.spec.version != v }

  /** How many records may still open once the version stays v. */
  ghost function Budget(s: Sys, v: string): nat {
    if Stale(s, v) then 2
    else if RecordAt(s).Some? && RecordAt(s).value.to == v then 0
    else 1
  }

  /** A record changes its target only by opening towards the version that was read. */
  lemma FactsGiveTarget(b: Run)
    requires Facts(b) && Persistable(b) && b.upgrade.Some?
    ensures b.upgrade.value.to == b.c.spec.version
            || (b.c.status.upgrade.Some? && b.upgrade.value.to == b.c.status.upgrade.value.to)
    ensures b.c.status.upgrade.Some? && b.upgrade.value.to != b.c.status.upgrade.value.to ==> Opens(b.c)
  {
    hide GateOpen, Own;
  }

  lemma VersionStays(s: Sys, a: Act, v: string)
    requires Inv(s) && s.w.cluster.spec.version == v && !EditsVersion(a, v)
    ensures Apply(s, a).w.cluster.spec.version == v
    ensures Stale(Apply(s, a), v) ==> Stale(s, v)
  {
    hide Step, Facts;
    if a.Call? && s.ctl.Busy? {
      StatusWrites(s.w, s.ctl.r, a.fails);
      StepFacts(s.w, s.ctl.r, a.fails);
    }
  }

  /** One act opens a record only by spending the budget. */
  lemma BudgetDecreases(s: Sys, a: Act, v: string)
    requires Inv(s) && s.w.cluster.spec.version == v && !EditsVersion(a, v)
    ensures (if OpensAt([RecordAt(s), RecordAt(Apply(s, a))], 0) then 1 else 0) + Budget(Apply(s, a), v) <= Budget(s, v)
  {
    hide Apply, Facts, PhaseEdge;
    VersionStays(s, a, v);
    ApplyInv(s, a);
    if Apply(s, a).w.cluster.status != s.w.cluster.status {
      FactsGiveEdge(s.ctl.r);
      if s.ctl.r.upgrade.Some? { FactsGiveTarget(s.ctl.r); }
      PersistEnds(s, a);
    }
  }

  lemma PersistEnds(s: Sys, a: Act)
    requires Persists(s, a)
    ensures Apply(s, a).ctl.Idle?
  {
  }

  /**
   After the last edit of the version at most one more record opens, or two when a reconcile was in flight
   that had read an older version; the last one goes to spec.version.
   */
  lemma {:induction false} FewRecordsOpen(s: Sys, acts: seq<Act>, v: string)
    requires Inv(s) && s.w.cluster.spec.version == v
    requires forall i :: 0 <= i < |acts| ==> !EditsVersion(acts[i], v)
    ensures Openings(Trail(s, acts)) + Budget(Exec(s, acts), v) <= Budget(s, v) <= 2
    ensures Exec(s, acts).w.cluster.spec.version == v
  {
    hide Apply, Budget, Inv, OpeningEdge;
    if acts == [] {
      assert Budget(s, v) <= 2 by { BudgetBound(s, v); }
    } else {
      var before, last := acts[..|acts| - 1], acts[|acts| - 1];
      FewRecordsOpen(s, before, v);
      ExecInv(s, before);
      var mid := Exec(s, before);
      VersionStays(mid, last, v);
      BudgetDecreases(mid, last, v);
      var t := Trail(s, acts);
      assert t[..|t| - 1] == Trail(s, before);
      assert OpensAt(t, |t| - 2) <==> OpensAt([RecordAt(mid), RecordAt(Apply(mid, last))], 0);
    }
  }

  lemma BudgetBound(s: Sys, v: string)
    ensures Budget(s, v) <= 2
  {
  }

  /** An unfenced reconcile that finds the record complete and leaves it so has found it at spec.version. */
  lemma QuietMeansUpToDate(b: Run)
    requires Facts(b) && b.pc.StatusGet? && b.pc.last && !Fenced(b.c)
    requires b.c.status.upgrade.Some? && b.c.status.upgrade.value.phase == Complete && b.upgrade == b.c.status.upgrade
    ensures b.upgrade.value.to == b.c.spec.version
  {
    hide GateOpen, Own;
  }
}
