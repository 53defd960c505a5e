/**
 Deployments over whole runs: what a component phase guarantees when it is left, when that guarantee is lost to
 a swallowed conflict, and what standard reconciliation writes in the same step that leaves Waiting.
 */
module Components {
  import opened Basics
  import opened JobNames
  import opened LiveObject
  import opened Model
  import opened ClusterMachine
  import opened ReconcileFacts
  import opened PhaseGraph
  import ConfigHash

  /** The live Deployment needs no change for what this reconcile builds. */
  predicate Current(w: World, b: Run, k: Component) {
    k in w.deps && UpToDate(w.deps[k].spec, Build(b.c, k, b.hash))
  }

  function Rank(k: Component): nat { match k case Api => 0 case Server => 1 case Ui => 2 }

  /** The components whose Deployment the current pass of the reconcile has dealt with. */
  predicate Passed(b: Run, k: Component) {
    match b.pc
    case PlainGet(Service(n), m) => if m == Upg then n == k else Rank(k) <= Rank(n)
    case PlainPut(Service(n), m) => if m == Upg then n == k else Rank(k) <= Rank(n)
    case DepGet(n, m) => m == Std && Rank(k) < Rank(n)
    case DepPost(n, m) => m == Std && Rank(k) < Rank(n)
    case DepPut(n, m, _) => m == Std && Rank(k) < Rank(n)
    case RolloutGet(n) => n == k
    case StatusGet(last) => last && !Fenced(b.c)
    case StatusPut(last, _) => last && !Fenced(b.c)
    case _ => false
  }

  /** The pass the program point belongs to. */
  function PassOf(pc: Pc): Mode {
    match pc
    case PlainGet(_, m) => m
    case PlainPut(_, m) => m
    case DepGet(_, m) => m
    case DepPost(_, m) => m
    case DepPut(_, m, _) => m
    case RolloutGet(_) => Upg
    case _ => Std
  }

  /** The driver has not yet dealt with k's Deployment. */
  predicate Ahead(pc: Pc, k: Component) {
    pc.SecretGet? || ((pc.PlainGet? || pc.PlainPut?) && !pc.o.Service?) || Writing(pc, k)
  }

  predicate Writing(pc: Pc, k: Component) {
    pc == DepGet(k, Upg) || pc == DepPost(k, Upg) || (pc.DepPut? && pc.k == k && pc.m == Upg)
  }

  /** Once a pass has dealt with k's Deployment, it is current exactly when the pass met no conflict on it. */
  predicate Fits(w: World, b: Run, k: Component) {
    && (Passed(b, k) ==> (Current(w, b, k) <==> Lost(k, PassOf(b.pc)) !in b.h.conflicts))
    && (!(Passed(b, k) && PassOf(b.pc) == Std) ==> Lost(k, Std) !in b.h.conflicts)
    && (Ahead(b.pc, k) ==> Lost(k, Upg) !in b.h.conflicts)
    && (b.pc.DepPut? && b.pc.k == k ==>
          k in w.deps && w.deps[k].spec == b.pc.read.spec && !UpToDate(b.pc.read.spec, Build(b.c, k, b.hash)))
  }

  predicate Fitted(k: Component, s: Sys) { s.ctl.Busy? ==> Fits(s.w, s.ctl.r, k) }

  lemma BuiltIsCurrent(c: Cluster, k: Component, hash: string)
    ensures UpToDate(Build(c, k, hash), Build(c, k, hash))
  {
    var d := Build(c, k, hash);
    assert MergeAnnotations(d.template.annotations, d.template.annotations) == d.template.annotations;
    assert MergeContainers(d.template.containers, d.template.containers) == d.template.containers;
  }

  // ----- the calls that touch a Deployment -----

  predicate AtDeployment(pc: Pc, n: Component, m: Mode) {
    pc == DepGet(n, m) || pc == DepPost(n, m) || (pc.DepPut? && pc.k == n && pc.m == m)
  }

  /** A call on another component's Deployment is nothing to k's. */
  lemma OtherComponent(w: World, b: Run, v: World, r: Run, n: Component, m: Mode, k: Component)
    requires n != k && Fits(w, b, k) && AtDeployment(b.pc, n, m)
    requires AtDeployment(r.pc, n, m) || r.pc == PlainGet(Service(n), m)
    requires r.c == b.c && r.hash == b.hash && b.h.conflicts <= r.h.conflicts <= b.h.conflicts + {Lost(n, m)}
    requires (k in v.deps <==> k in w.deps) && (k in w.deps ==> v.deps[k] == w.deps[k])
    ensures Fits(v, r, k)
  {
    hide UpToDate, Build, Passed, Ahead;
    SamePass(b, r, n, m, k);
  }

  /** The pass over the Deployments stands where it stood, as far as k is concerned. */
  lemma SamePass(b: Run, r: Run, n: Component, m: Mode, k: Component)
    requires n != k && AtDeployment(b.pc, n, m) && (AtDeployment(r.pc, n, m) || r.pc == PlainGet(Service(n), m))
    ensures Passed(r, k) == Passed(b, k) && PassOf(r.pc) == PassOf(b.pc) && !Ahead(r.pc, k)
  {
  }

  lemma DepGetFits(w: World, b: Run, n: Component, m: Mode, k: Component)
    requires b.pc == DepGet(n, m) && Fits(w, b, k)
    ensures Fitted(k, DepGetStep(w, b, n, m))
  {
    hide UpToDate, Build, Fits;
    var s := DepGetStep(w, b, n, m);
    if n == k { DepGetOwn(w, b, m, k); } else { OtherComponent(w, b, s.w, s.ctl.r, n, m, k); }
  }

  lemma DepGetOwn(w: World, b: Run, m: Mode, k: Component)
    requires b.pc == DepGet(k, m) && Fits(w, b, k)
    ensures Fitted(k, DepGetStep(w, b, k, m))
  {
    hide UpToDate, Build;
  }

  lemma DepPostFits(w: World, b: Run, n: Component, m: Mode, k: Component)
    requires b.pc == DepPost(n, m) && Fits(w, b, k)
    ensures Fitted(k, DepPostStep(w, b, n, m))
  {
    hide UpToDate, Build, LabelsOf, Fits;
    var s := DepPostStep(w, b, n, m);
    if n == k { DepPostOwn(w, b, m, k); } else if s.ctl.Busy? { OtherComponent(w, b, s.w, s.ctl.r, n, m, k); }
  }

  lemma DepPostOwn(w: World, b: Run, m: Mode, k: Component)
    requires b.pc == DepPost(k, m) && Fits(w, b, k)
    ensures Fitted(k, DepPostStep(w, b, k, m))
  {
    hide UpToDate, Build, LabelsOf;
    BuiltIsCurrent(b.c, k, b.hash);
  }

  lemma DepPutFits(w: World, b: Run, n: Component, m: Mode, read: Deployment, k: Component)
    requires b.pc == DepPut(n, m, read) && Fits(w, b, k)
    ensures Fitted(k, DepPutStep(w, b, n, m, read))
  {
    hide UpToDate, Build, LabelsOf, Merge, Fits;
    var s := DepPutStep(w, b, n, m, read);
    if n == k { DepPutOwn(w, b, m, read, k); } else if s.ctl.Busy? { OtherComponent(w, b, s.w, s.ctl.r, n, m, k); }
  }

  lemma DepPutOwn(w: World, b: Run, m: Mode, read: Deployment, k: Component)
    requires b.pc == DepPut(k, m, read) && Fits(w, b, k)
    ensures Fitted(k, DepPutStep(w, b, k, m, read))
  {
    hide UpToDate, Build, LabelsOf, Merge;
    if w.deps[k].rv == read.rv { DepPutSucceeds(w, b, m, read, k); }
  }

  lemma DepPutSucceeds(w: World, b: Run, m: Mode, read: Deployment, k: Component)
    requires b.pc == DepPut(k, m, read) && Fits(w, b, k) && k in w.deps && w.deps[k].rv == read.rv
    ensures Fitted(k, DepPutStep(w, b, k, m, read))
  {
    hide UpToDate, Build, LabelsOf, Merge;
    MergeIdempotent(read.spec, Build(b.c, k, b.hash));
  }

  // ----- the calls that do not -----

  /** Program points outside the passes over Deployments. */
  predicate Away(pc: Pc) {
    NewPass(pc) || pc.JobPost? || pc.JobDelete? || pc.MaintPost? || pc.MaintDelete? || pc.FencedGet? || pc.EarlyStatus?
  }

  lemma AwayFits(w: World, r: Run, k: Component)
    requires Away(r.pc) && Lost(k, Std) !in r.h.conflicts
    ensures Fits(w, r, k)
  {
    hide UpToDate, Build;
  }

  /** A call that leaves the passes, or stays outside them, and met no conflict. */
  lemma LeavesPasses(b: Run, s: Sys, k: Component)
    requires Lost(k, Std) !in b.h.conflicts
    requires s.ctl.Busy? ==> Away(s.ctl.r.pc) && s.ctl.r.h.conflicts == b.h.conflicts
    ensures Fitted(k, s)
  {
    hide Fits, Away;
    if s.ctl.Busy? { AwayFits(s.w, s.ctl.r, k); }
  }

  lemma JobGetFits(w: World, b: Run, f: Family, m: Mode, k: Component)
    requires Lost(k, Std) !in b.h.conflicts
    ensures Fitted(k, JobGetStep(w, b, f, m))
  {
    hide AfterJob, Fitted, NewPass, Reads;
    LeavesPasses(b, JobGetStep(w, b, f, m), k);
  }

  lemma JobPostFits(w: World, b: Run, f: Family, m: Mode, k: Component)
    requires Lost(k, Std) !in b.h.conflicts
    ensures Fitted(k, JobPostStep(w, b, f, m))
  {
    hide AfterJob, Fitted, NewPass, Reads;
    LeavesPasses(b, JobPostStep(w, b, f, m), k);
  }

  lemma JobDeleteFits(w: World, b: Run, f: Family, m: Mode, k: Component)
    requires Lost(k, Std) !in b.h.conflicts
    ensures Fitted(k, JobDeleteStep(w, b, f, m))
  {
    hide AfterJob, Fitted, NewPass, Reads;
    LeavesPasses(b, JobDeleteStep(w, b, f, m), k);
  }

  lemma FailedGetFits(w: World, b: Run, f: Family, fails: bool, k: Component)
    requires Lost(k, Std) !in b.h.conflicts
    ensures Fitted(k, FailedGetStep(w, b, f, fails))
  {
    hide FailuresDone, Fitted, Reads;
    LeavesPasses(b, FailedGetStep(w, b, f, fails), k);
  }

  lemma MaintGetFits(w: World, b: Run, f: Family, k: Component)
    requires Lost(k, Std) !in b.h.conflicts
    ensures Fitted(k, MaintGetStep(w, b, f))
  {
    hide MaintenanceDone, Fitted, Reads;
    LeavesPasses(b, MaintGetStep(w, b, f), k);
  }

  lemma MaintWriteFits(w: World, b: Run, f: Family, k: Component)
    requires Lost(k, Std) !in b.h.conflicts
    ensures Fitted(k, MaintPostStep(w, b, f)) && Fitted(k, MaintDeleteStep(w, b, f))
  {
    hide Fitted;
    LeavesPasses(b, MaintPostStep(w, b, f), k);
    LeavesPasses(b, MaintDeleteStep(w, b, f), k);
  }

  lemma RolloutGetFits(w: World, b: Run, n: Component, k: Component)
    requires Lost(k, Std) !in b.h.conflicts
    ensures Fitted(k, RolloutGetStep(w, b, n))
  {
    hide RolledOutPhase, RolledOut, Build, Fitted, Reads;
    LeavesPasses(b, RolloutGetStep(w, b, n), k);
  }

  lemma FencedGetFits(w: World, b: Run, n: Component, k: Component)
    requires Lost(k, Std) !in b.h.conflicts && Fenced(b.c)
    ensures Fitted(k, FencedGetStep(w, b, n))
  {
    hide Build, UpToDate;
  }

  lemma SecretFits(w: World, b: Run, secret: Option<string>, k: Component)
    requires b.pc == SecretGet && Fits(w, b, k)
    ensures Fits(w, AfterSecret(b, secret), k)
  {
    hide ConfigHash.ClusterText, UpToDate, Build, DesiredPlain;
  }

  lemma StatusGetFits(w: World, b: Run, last: bool, k: Component)
    requires b.pc == StatusGet(last) && Fits(w, b, k)
    ensures Fitted(k, StatusGetStep(w, b, last))
  {
    hide UpToDate, Build;
  }

  /** After the ServiceAccount or the ConfigMap: the driver or standard reconciliation begins. */
  lemma LifecycleFits(w: World, b: Run, now: int, k: Component)
    requires Lost(k, Std) !in b.h.conflicts && Lost(k, Upg) !in b.h.conflicts
    ensures Fits(w, Lifecycle(b, now), k)
  {
    hide Lifecycle, UpToDate, Build;
  }

  lemma ServiceFits(w: World, b: Run, n: Component, m: Mode, k: Component)
    requires (b.pc == PlainGet(Service(n), m) || b.pc == PlainPut(Service(n), m)) && Fits(w, b, k) && (m == Std ==> !Fenced(b.c))
    ensures Fits(w, AfterService(b, n, m), k)
  {
    hide UpToDate, Build;
  }

  lemma AfterPlainFits(w: World, b: Run, o: Plain, m: Mode, now: int, k: Component)
    requires (b.pc == PlainGet(o, m) || b.pc == PlainPut(o, m)) && Fits(w, b, k) && (o.Service? && m == Std ==> !Fenced(b.c))
    ensures Fits(w, AfterPlain(b, o, m, now), k)
  {
    hide Lifecycle, AfterService, UpToDate, Build;
    match o {
      case ServiceAccount =>
      case ConfigMap => LifecycleFits(w, b, now, k);
      case Service(n) => ServiceFits(w, b, n, m, k);
    }
  }

  /** Fits looks at the Deployments, the conflicts and the program point alone. */
  lemma FitsElsewhere(w: World, b: Run, v: World, r: Run, k: Component)
    requires Fits(w, b, k) && v.deps == w.deps && r == b.(h := b.h.(writes := r.h.writes, worked := r.h.worked))
    ensures Fits(v, r, k)
  {
    hide UpToDate, Build;
  }

  lemma PlainGetFits(w: World, b: Run, o: Plain, m: Mode, k: Component)
    requires b.pc == PlainGet(o, m) && Fits(w, b, k) && (o.Service? && m == Std ==> !Fenced(b.c))
    ensures Fitted(k, PlainGetStep(w, b, o, m))
  {
    hide AfterPlain, DesiredPlain, UpToDate, Build;
    AfterPlainFits(w, b, o, m, w.clock, k);
  }

  lemma PlainPutFits(w: World, b: Run, o: Plain, m: Mode, k: Component)
    requires b.pc == PlainPut(o, m) && Fits(w, b, k) && (o.Service? && m == Std ==> !Fenced(b.c))
    ensures Fitted(k, PlainPutStep(w, b, o, m))
  {
    hide AfterPlain, DesiredPlain, Fits;
    var n := PlainPutStep(w, b, o, m);
    if n.ctl.Busy? {
      FitsElsewhere(w, b, n.w, Note(b, WrotePlain(o)), k);
      AfterPlainFits(n.w, Note(b, WrotePlain(o)), o, m, w.clock, k);
    }
  }

  lemma NoConflictYet(w: World, b: Run, k: Component)
    requires Fits(w, b, k)
    ensures Away(b.pc) || b.pc.RolloutGet? ==> Lost(k, Std) !in b.h.conflicts
  {
  }

  lemma FencedWhenChecked(b: Run)
    requires Facts(b)
    ensures b.pc.FencedGet? ==> Fenced(b.c)
    ensures (b.pc.PlainGet? || b.pc.PlainPut?) && b.pc.o.Service? ==> !Fenced(b.c)
    ensures b.pc == StatusGet(true) && !Fenced(b.c) ==> AtRecord(b, Successor(b.c))
  {
    hide GateOpen, Own, Successor, Record, Earned;
  }

  lemma StepFits(w: World, b: Run, fails: bool, k: Component)
    requires Facts(b) && Fits(w, b, k)
    ensures Fitted(k, Step(w, b, fails))
  {
    hide AfterSecret, PlainGetStep, PlainPutStep, JobGetStep, JobPostStep, JobDeleteStep, FailedGetStep, MaintGetStep,
         MaintPostStep, MaintDeleteStep, DepGetStep, DepPostStep, DepPutStep, RolloutGetStep, FencedGetStep, StatusGetStep,
         StatusPutStep, Fits, Facts;
    FencedWhenChecked(b);
    NoConflictYet(w, b, k);
    match b.pc {
      case SecretGet => SecretFits(w, b, if fails then None else w.secret, k);
      case EarlyStatus => StatusPutEnds(w, b, b.c.rv);
      case PlainGet(o, m) => PlainGetFits(w, b, o, m, k);
      case PlainPut(o, m) => PlainPutFits(w, b, o, m, k);
      case JobGet(f, m) => JobGetFits(w, b, f, m, k);
      case JobPost(f, m) => JobPostFits(w, b, f, m, k);
      case JobDelete(f, m) => JobDeleteFits(w, b, f, m, k);
      case FailedGet(f) => FailedGetFits(w, b, f, fails, k);
      case MaintGet(f) => MaintGetFits(w, b, f, k);
      case MaintPost(f) => MaintWriteFits(w, b, f, k);
      case MaintDelete(f) => MaintWriteFits(w, b, f, k);
      case DepGet(n, m) => DepGetFits(w, b, n, m, k);
      case DepPost(n, m) => DepPostFits(w, b, n, m, k);
      case DepPut(n, m, read) => DepPutFits(w, b, n, m, read, k);
      case RolloutGet(n) => RolloutGetFits(w, b, n, k);
      case FencedGet(n) => FencedGetFits(w, b, n, k);
      case StatusGet(last) => StatusGetFits(w, b, last, k);
      case StatusPut(_, rv) => StatusPutEnds(w, b, rv);
    }
  }

  lemma StatusPutEnds(w: World, b: Run, rv: nat)
    ensures StatusPutStep(w, b, rv).ctl.Idle?
  {
  }

  // ----- over runs -----

  /** Nobody but the operator edits or removes k's Deployment. */
  ghost predicate LeavesDeployment(a: Act, k: Component) {
    a.Outside? && (a.e.EditDeployment? || a.e.DeploymentRemoved?) ==> a.e.k != k
  }

  lemma ApplyFits(s: Sys, a: Act, k: Component)
    requires Inv(s) && Fitted(k, s) && LeavesDeployment(a, k)
    ensures Fitted(k, Apply(s, a))
  {
    hide Step, Facts, Fits, ApplyEnv;
    match a {
      case Start => if s.ctl.Idle? { BeginFits(s.w, k); }
      case Call(fails) => if s.ctl.Busy? { StepFits(s.w, s.ctl.r, fails, k); }
      case Crash =>
      case Outside(e) => if s.ctl.Busy? { EnvFits(s.w, s.ctl.r, e, k); }
    }
  }

  lemma BeginFits(w: World, k: Component)
    ensures Fits(w, Begin(w), k)
  {
    hide UpToDate, Build;
  }

  lemma EnvFits(w: World, b: Run, e: Env, k: Component)
    requires Fits(w, b, k) && LeavesDeployment(Outside(e), k)
    ensures Fits(ApplyEnv(w, e), b, k)
  {
    hide UpToDate, Build, Passed, Ahead;
  }

  /** From any moment at which no reconcile is in flight, whoever edited the Deployments before. */
  lemma {:induction false} ExecFits(s: Sys, acts: seq<Act>, k: Component)
    requires Inv(s) && s.ctl.Idle? && forall i :: 0 <= i < |acts| ==> LeavesDeployment(acts[i], k)
    ensures Fitted(k, Exec(s, acts))
  {
    hide Apply, Fits, Facts;
    if acts != [] {
      ExecFits(s, acts[..|acts| - 1], k);
      ExecInv(s, acts[..|acts| - 1]);
      ApplyFits(Exec(s, acts[..|acts| - 1]), acts[|acts| - 1], k);
    }
  }

  /** The replicas the spec asks for. */
  function Wanted(spec: Spec, k: Component): nat {
    match k
    case Api => if spec.api.replicas.Some? then spec.api.replicas.value else 1
    case Server => if spec.server.replicas.Some? then spec.server.replicas.value else 1
    case Ui => if spec.ui.replicas.Some? then spec.ui.replicas.value else 1
  }

  /** The Deployment controller has seen the last change, and as many pods as wanted are both updated and available. */
  predicate Settled(w: World, k: Component, n: nat) {
    && k in w.deps && w.deps[k].status.observedGeneration >= w.deps[k].generation
    && w.deps[k].status.updated == n && w.deps[k].status.available == n
  }

  lemma RolloutMoves(w: World, b: Run, k: Component)
    requires Facts(b) && b.pc == RolloutGet(k)
    ensures var n := Step(w, b, false);
            n.ctl.Busy? && Active(b.upgrade) && n.ctl.r.upgrade != b.upgrade <==> Settled(w, k, Wanted(b.c.spec, k))
    ensures Settled(w, k, Wanted(b.c.spec, k)) ==>
              Step(w, b, false).ctl.r.upgrade == Some(b.upgrade.value.(phase :=
                match k case Api => PeerDBServer case Server => UI case Ui => if b.c.spec.maintenance then EndMaintenance else Complete))
  {
    hide LabelsOf;
  }

  /**
   A call moves the upgrade out of a component's phase exactly when the Deployment read back is settled. If nobody
   else edited it since the reconcile began, it then has the template just built exactly when the reconcile's own
   update of it met no conflict.
   */
  lemma LeavingAComponent(s: Sys, before: seq<Act>, acts: seq<Act>, k: Component)
    requires Initial(s) && Exec(s, before).ctl.Idle? && forall i :: 0 <= i < |acts| ==> LeavesDeployment(acts[i], k)
    requires var t := Exec(Exec(s, before), acts); t.ctl.Busy? && t.ctl.r.pc == RolloutGet(k)
    ensures var t := Exec(Exec(s, before), acts); var b, n := t.ctl.r, Apply(t, Call(false));
            && (n.ctl.Busy? && Active(b.upgrade) && n.ctl.r.upgrade != b.upgrade <==> Settled(t.w, k, Wanted(b.c.spec, k)))
            && (Current(t.w, b, k) <==> Lost(k, Upg) !in b.h.conflicts)
  {
    hide Build, UpToDate, RolledOut, Exec, Step, Facts, Settled;
    ExecInv(s, before);
    ExecInv(Exec(s, before), acts);
    ExecFits(Exec(s, before), acts, k);
    RolloutMoves(Exec(Exec(s, before), acts).w, Exec(Exec(s, before), acts).ctl.r, k);
  }

  /**
   The fall-through: an unfenced reconcile at its end has moved to the successor phase, even the one that has only just
   left Waiting for StartMaintenance; and a Deployment nobody else edited since it began is at the version it read
   exactly when its standard update met no conflict.
   */
  lemma FallThrough(s: Sys, before: seq<Act>, acts: seq<Act>, k: Component)
    requires Initial(s) && Exec(s, before).ctl.Idle? && forall i :: 0 <= i < |acts| ==> LeavesDeployment(acts[i], k)
    requires var t := Exec(Exec(s, before), acts); t.ctl.Busy? && t.ctl.r.pc == StatusGet(true) && !Fenced(t.ctl.r.c)
    ensures var t := Exec(Exec(s, before), acts); var b := t.ctl.r;
            && AtRecord(b, Successor(b.c))
            && (Current(t.w, b, k) <==> Lost(k, Std) !in b.h.conflicts)
  {
    hide Build, UpToDate, Successor, Record, Facts, Exec;
    ExecInv(s, before);
    ExecInv(Exec(s, before), acts);
    ExecFits(Exec(s, before), acts, k);
    FencedWhenChecked(Exec(Exec(s, before), acts).ctl.r);
  }

  // ----- what being up to date says -----

  /** The managed fields of a component's Deployment, spelled out. */
  predicate Shows(d: DeploymentSpec, c: Cluster, cs: ComponentSpec, part: string, image: string, hash: string) {
    && d.replicas == Some(if cs.replicas.Some? then cs.replicas.value else 1)
    && d.template.labels == map["app.kubernetes.io/name" := "peerdb", "app.kubernetes.io/instance" := c.name,
                                "app.kubernetes.io/component" := part, "app.kubernetes.io/managed-by" := "peerdb-operator"]
    && d.template.serviceAccount == c.name
    && CONFIG_HASH in d.template.annotations && d.template.annotations[CONFIG_HASH] == hash
    && (|d.template.containers| > 0 ==>
          var first := d.template.containers[0];
          && first.image == (if cs.image.Some? then cs.image.value else image + c.spec.version)
          && first.env == cs.env && first.envFrom == c.name + "-config" && first.ports == cs.ports
          && first.resources == cs.resources)
  }

  predicate ShowsComponent(d: DeploymentSpec, c: Cluster, k: Component, hash: string) {
    match k
    case Api => Shows(d, c, c.spec.api, "flow-api", "ghcr.io/peerdb-io/flow-api:stable-", hash)
    case Server => Shows(d, c, c.spec.server, "server", "ghcr.io/peerdb-io/peerdb-server:stable-", hash)
    case Ui => Shows(d, c, c.spec.ui, "ui", "ghcr.io/peerdb-io/peerdb-ui:stable-", hash)
  }

  /** A Deployment just created shows what the spec asks for, in one container. */
  lemma BuiltShows(c: Cluster, k: Component, hash: string)
    ensures ShowsComponent(Build(c, k, hash), c, k, hash) && |Build(c, k, hash).template.containers| == 1
  {
    assert "ghcr.io/peerdb-io/" + "flow-api" + ":stable-" == "ghcr.io/peerdb-io/flow-api:stable-";
    assert "ghcr.io/peerdb-io/" + "peerdb-server" + ":stable-" == "ghcr.io/peerdb-io/peerdb-server:stable-";
    assert "ghcr.io/peerdb-io/" + "peerdb-ui" + ":stable-" == "ghcr.io/peerdb-io/peerdb-ui:stable-";
  }

  /** And so does one that needs no update, whatever its unmanaged fields. */
  lemma CurrentShows(w: World, b: Run, k: Component)
    requires Current(w, b, k)
    ensures ShowsComponent(w.deps[k].spec, b.c, k, b.hash)
  {
    hide Build;
    BuiltShows(b.c, k, b.hash);
    MergeShows(w.deps[k].spec, Build(b.c, k, b.hash), b.c, k, b.hash);
  }

  lemma MergeShows(live: DeploymentSpec, desired: DeploymentSpec, c: Cluster, k: Component, hash: string)
    requires UpToDate(live, desired) && ShowsComponent(desired, c, k, hash) && |desired.template.containers| == 1
    ensures ShowsComponent(live, c, k, hash)
  {
    var m := Merge(live, desired);
    assert m.template.annotations[CONFIG_HASH] == hash;
    assert |m.template.containers| > 0 ==> m.template.containers[0].image == desired.template.containers[0].image;
  }

  /** The other objects, component by component. */
  lemma PlainShows(c: Cluster)
    ensures DesiredPlain(c, ConfigMap) == Some(Data(c.spec.config))
    ensures DesiredPlain(c, Service(Api)) == Some(Text(c.spec.api.service))
    ensures DesiredPlain(c, Service(Server)) == Some(Text(c.spec.server.service))
    ensures DesiredPlain(c, Service(Ui)) == Some(Text(c.spec.ui.service))
    ensures DesiredPlain(c, ServiceAccount).None? <==> c.spec.serviceAccount.None?
    ensures c.spec.serviceAccount.Some? ==> DesiredPlain(c, ServiceAccount) == Some(Text(c.spec.serviceAccount.value))
  {
  }

  // ----- a real change cannot look rolled out by itself -----

  predicate Observed(w: World) {
    forall k :: k in w.deps ==> w.deps[k].status.observedGeneration <= w.deps[k].generation
  }

  /** A Deployment written by the driver and not reported on since lags behind its generation. */
  predicate Lags(w: World, b: Run, k: Component) {
    StageOf(b.pc) == Driver(ComponentPhase(k)) && WroteDep(k) in b.h.writes ==>
      !Writing(b.pc, k) && (k in w.deps ==> w.deps[k].status.observedGeneration < w.deps[k].generation)
  }

  ghost predicate Lagging(k: Component, s: Sys) { s.ctl.Busy? ==> Lags(s.w, s.ctl.r, k) }

  lemma DepGetLags(w: World, b: Run, n: Component, m: Mode, k: Component)
    requires Lags(w, b, k) && b.pc == DepGet(n, m)
    ensures Lagging(k, DepGetStep(w, b, n, m))
  {
    hide Build, UpToDate;
  }

  lemma DepPostLags(w: World, b: Run, n: Component, m: Mode, k: Component)
    requires Lags(w, b, k) && b.pc == DepPost(n, m)
    ensures Lagging(k, DepPostStep(w, b, n, m))
  {
    hide Build, LabelsOf;
  }

  lemma DepPutLags(w: World, b: Run, n: Component, m: Mode, read: Deployment, k: Component)
    requires Lags(w, b, k) && Observed(w) && b.pc == DepPut(n, m, read)
    ensures Lagging(k, DepPutStep(w, b, n, m, read))
  {
    hide Build, LabelsOf, Merge;
  }

  lemma PlainGetLags(w: World, b: Run, o: Plain, m: Mode, k: Component)
    requires Facts(b) && Lags(w, b, k) && b.pc == PlainGet(o, m)
    ensures Lagging(k, PlainGetStep(w, b, o, m))
  {
    hide DesiredPlain, AfterPlain, Facts;
    AfterPlainLags(w, b, o, m, k);
  }

  lemma AfterPlainLags(w: World, b: Run, o: Plain, m: Mode, k: Component)
    requires Facts(b) && Lags(w, b, k) && (b.pc == PlainGet(o, m) || b.pc == PlainPut(o, m))
    ensures Lags(w, AfterPlain(b, o, m, w.clock), k)
  {
    hide DesiredPlain, Lifecycle, CurrentRecord, Opens, Own, Record, Successor, Earned, Along, Concluded, Upgrading, HeldReport;
  }

  lemma PlainPutLags(w: World, b: Run, o: Plain, m: Mode, k: Component)
    requires Facts(b) && Lags(w, b, k) && b.pc == PlainPut(o, m)
    ensures Lagging(k, PlainPutStep(w, b, o, m))
  {
    hide DesiredPlain, Lifecycle, CurrentRecord, Opens, Own, Record, Successor, Earned, Along, Concluded, Upgrading, HeldReport;
  }

  /** No other call leads to a component phase. */
  lemma OtherLags(w: World, b: Run, fails: bool, k: Component)
    requires !b.pc.PlainGet? && !b.pc.PlainPut? && !b.pc.DepGet? && !b.pc.DepPost? && !b.pc.DepPut?
    ensures Elsewhere(k, Step(w, b, fails))
  {
    hide ConfigHash.ClusterText, PlainGetStep, PlainPutStep, DepGetStep, DepPostStep, DepPutStep, Build, RolledOut,
         AfterJob, FailuresDone, MaintenanceDone, RolledOutPhase, FencedGetStep, Quiet, JobPostStep, JobDeleteStep, JobGetStep,
         MaintGetStep, FailedGetStep, RolloutGetStep;
    if b.pc.MaintGet? { PhaseLags(w, b, b.pc.f, fails, Api, k); }
    if b.pc.FailedGet? { PhaseLags(w, b, b.pc.f, fails, Api, k); }
    if b.pc.RolloutGet? { PhaseLags(w, b, NsRegister, fails, b.pc.k, k); }
    if b.pc.JobGet? || b.pc.JobPost? || b.pc.JobDelete? { JobLags(w, b, b.pc.f, b.pc.m, k); }
    if b.pc.FencedGet? { FencedGetLags(w, b, b.pc.k, k); }
  }

  lemma PhaseLags(w: World, b: Run, f: Family, fails: bool, n: Component, k: Component)
    ensures Elsewhere(k, MaintGetStep(w, b, f)) && Elsewhere(k, FailedGetStep(w, b, f, fails)) && Elsewhere(k, RolloutGetStep(w, b, n))
  {
    hide MaintenanceDone, FailuresDone, RolledOutPhase, Quiet, NewPass, StageOf, ComponentPhase, Build, RolledOut;
    JobStages(k);
  }

  predicate Elsewhere(k: Component, s: Sys) { s.ctl.Busy? ==> StageOf(s.ctl.r.pc) != Driver(ComponentPhase(k)) }

  lemma JobLags(w: World, b: Run, f: Family, m: Mode, k: Component)
    ensures Elsewhere(k, JobGetStep(w, b, f, m)) && Elsewhere(k, JobPostStep(w, b, f, m)) && Elsewhere(k, JobDeleteStep(w, b, f, m))
  {
    hide AfterJob, Quiet, NewPass, StageOf, ComponentPhase;
    JobStages(k);
  }

  /** No program point of a new pass, and none of the init jobs, belongs to a component's phase. */
  lemma JobStages(k: Component)
    ensures forall pc: Pc :: NewPass(pc) || pc.JobPost? || pc.JobDelete? || pc.MaintPost? || pc.MaintDelete? || pc.StatusGet? || pc.FailedGet? ==> StageOf(pc) != Driver(ComponentPhase(k))
  {
  }

  lemma FencedGetLags(w: World, b: Run, n: Component, k: Component)
    ensures Elsewhere(k, FencedGetStep(w, b, n))
  {
  }

  lemma StepLags(w: World, b: Run, fails: bool, k: Component)
    requires Facts(b) && Observed(w) && Lags(w, b, k)
    ensures Lagging(k, Step(w, b, fails))
  {
    hide AfterSecret, PlainGetStep, PlainPutStep, JobGetStep, JobPostStep, JobDeleteStep, FailedGetStep, MaintGetStep,
         MaintPostStep, MaintDeleteStep, DepGetStep, DepPostStep, DepPutStep, RolloutGetStep, FencedGetStep, Facts, Observed,
         StatusGetStep, StatusPutStep;
    match b.pc {
      case PlainGet(o, m) => PlainGetLags(w, b, o, m, k);
      case PlainPut(o, m) => PlainPutLags(w, b, o, m, k);
      case DepGet(n, m) => DepGetLags(w, b, n, m, k);
      case DepPost(n, m) => DepPostLags(w, b, n, m, k);
      case DepPut(n, m, read) => DepPutLags(w, b, n, m, read, k);
      case _ => OtherLags(w, b, fails, k);
    }
  }

  lemma StepObserves(w: World, b: Run, fails: bool)
    requires Observed(w)
    ensures Observed(Step(w, b, fails).w)
  {
    hide AfterSecret, AfterPlain, AfterJob, FailuresDone, MaintenanceDone, RolledOutPhase, AfterFencedGet,
         Build, LabelsOf, UpToDate, Merge, RolledOut, DesiredPlain, Quiet, NewPass;
  }

  /** The Deployment controller reports on k. */
  ghost predicate ReportsOn(a: Act, k: Component) { a.Outside? && a.e.RolloutAdvances? && a.e.k == k }

  lemma ApplyLags(s: Sys, a: Act, k: Component)
    requires Inv(s) && Observed(s.w) && Lagging(k, s)
    ensures Observed(Apply(s, a).w)
    ensures !ReportsOn(a, k) ==> Lagging(k, Apply(s, a))
  {
    hide Step, Facts, ApplyEnv, Lags, Observed;
    match a {
      case Start => if s.ctl.Idle? { BeginLags(s.w, k); }
      case Call(fails) =>
        if s.ctl.Busy? {
          StepLags(s.w, s.ctl.r, fails, k);
          StepObserves(s.w, s.ctl.r, fails);
        }
      case Crash =>
      case Outside(e) =>
        EnvObserves(s.w, e);
        if s.ctl.Busy? && !ReportsOn(a, k) { EnvLags(s.w, s.ctl.r, e, k); }
    }
  }

  lemma BeginLags(w: World, k: Component)
    ensures Lags(w, Begin(w), k)
  {
  }

  lemma EnvObserves(w: World, e: Env)
    requires Observed(w)
    ensures Observed(ApplyEnv(w, e))
  {
  }

  lemma EnvLags(w: World, b: Run, e: Env, k: Component)
    requires Observed(w) && Lags(w, b, k) && !(e.RolloutAdvances? && e.k == k)
    ensures Lags(ApplyEnv(w, e), b, k)
  {
  }

  lemma {:induction false} ExecObserves(s: Sys, acts: seq<Act>)
    requires Initial(s)
    ensures Observed(Exec(s, acts).w)
  {
    hide Apply, Observed;
    if acts == [] {
      FreshObserved(s.w);
    } else {
      ExecObserves(s, acts[..|acts| - 1]);
      ObservedStays(Exec(s, acts[..|acts| - 1]), acts[|acts| - 1]);
    }
  }

  lemma FreshObserved(w: World)
    requires Model.Fresh(w)
    ensures Observed(w)
  {
  }

  lemma ObservedStays(s: Sys, a: Act)
    requires Observed(s.w)
    ensures Observed(Apply(s, a).w)
  {
    hide Step;
    if a.Call? && s.ctl.Busy? { StepObserves(s.w, s.ctl.r, a.fails); }
  }

  /**
   A driver that changed the Deployment of its phase cannot leave the phase in the same reconcile, unless the
   Deployment controller reports on it in between: the change bumped the generation.
   */
  lemma {:induction false} ChangedMeansNotRolledOut(s: Sys, acts: seq<Act>, more: seq<Act>, k: Component, n: nat)
    requires Initial(s) && Exec(s, acts).ctl.Idle?
    requires forall i :: 0 <= i < |more| ==> !ReportsOn(more[i], k)
    ensures var t := Exec(Exec(s, acts), more);
            && Inv(t) && Observed(t.w) && Lagging(k, t)
            && (t.ctl.Busy? && t.ctl.r.pc == RolloutGet(k) && WroteDep(k) in t.ctl.r.h.writes && k in t.w.deps
                ==> !RolledOut(t.w.deps[k], n))
  {
    hide Apply, Facts, Observed;
    ExecInv(s, acts);
    ExecObserves(s, acts);
    if more != [] {
      ChangedMeansNotRolledOut(s, acts, more[..|more| - 1], k, n);
      var mid := Exec(Exec(s, acts), more[..|more| - 1]);
      ApplyInv(mid, more[|more| - 1]);
      ApplyLags(mid, more[|more| - 1], k);
    }
  }
}
