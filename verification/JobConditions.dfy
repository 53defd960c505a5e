/**
 A Job's status conditions and the loops over them in reconcileJob, upgradePhaseMaintenanceJob and isJobFailed. The
 store keeps a JobStatus; what the API server reports of it is any list of conditions that says so, under the
 assumption that no Job is both complete and failed.
 */
module JobConditions {
  import opened Model

  datatype ConditionType = JobComplete | JobFailed | OtherType(name: string)

  datatype JobCondition = JobCondition(kind: ConditionType, isTrue: bool)

  ghost predicate Has(conditions: seq<JobCondition>, kind: ConditionType) {
    JobCondition(kind, true) in conditions
  }

  /** The conditions report the status: a true Complete, a true Failed, or neither, among any others. */
  ghost predicate Reports(conditions: seq<JobCondition>, s: JobStatus) {
    && (s == Succeeded <==> Has(conditions, JobComplete))
    && (s == Failed <==> Has(conditions, JobFailed))
  }

  /** The conditions of a list that decide nothing. */
  function Undecided(conditions: seq<JobCondition>): (r: seq<JobCondition>)
    ensures Reports(r, Running)
  {
    if conditions == [] then []
    else if conditions[0].isTrue && !conditions[0].kind.OtherType? then Undecided(conditions[1..])
    else [conditions[0]] + Undecided(conditions[1..])
  }

  /** A report of the status with anything undecided before and after. */
  function Report(before: seq<JobCondition>, s: JobStatus, after: seq<JobCondition>): (r: seq<JobCondition>)
    ensures Reports(r, s)
  {
    Undecided(before)
    + (match s case Running => [] case Succeeded => [JobCondition(JobComplete, true)] case Failed => [JobCondition(JobFailed, true)])
    + Undecided(after)
  }

  /** The first condition that decides wins; without a job both complete and failed, the order does not matter. */
  method Outcome(conditions: seq<JobCondition>) returns (s: JobStatus)
    ensures s == Running <==> !Has(conditions, JobComplete) && !Has(conditions, JobFailed)
    ensures s == Succeeded ==> Has(conditions, JobComplete)
    ensures s == Failed ==> Has(conditions, JobFailed)
    ensures !(Has(conditions, JobComplete) && Has(conditions, JobFailed)) ==>
              (s == Succeeded <==> Has(conditions, JobComplete)) && (s == Failed <==> Has(conditions, JobFailed))
  {
    for i := 0 to |conditions|
      invariant !Has(conditions[..i], JobComplete) && !Has(conditions[..i], JobFailed)
    {
      if conditions[i].kind == JobComplete && conditions[i].isTrue { return Succeeded; }
      if conditions[i].kind == JobFailed && conditions[i].isTrue { return Failed; }
    }
    assert conditions[..|conditions|] == conditions;
    return Running;
  }

  /** isJobFailed looks for a true Failed condition alone. */
  method AnyFailed(conditions: seq<JobCondition>) returns (failed: bool)
    ensures failed <==> Has(conditions, JobFailed)
  {
    for i := 0 to |conditions|
      invariant !Has(conditions[..i], JobFailed)
    {
      if conditions[i].kind == JobFailed && conditions[i].isTrue { return true; }
    }
    assert conditions[..|conditions|] == conditions;
    return false;
  }
}
