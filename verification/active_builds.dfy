// ActiveBuildCheck's scan of the builder's jobs (getActiveBuilds, isBuildFinished).
module ActiveBuilds {
  import opened Protocol

  datatype ConditionType = JobComplete | JobFailed | OtherType
  datatype JobCondition = JobCondition(kind: ConditionType, isTrue: bool)
  datatype KubeJob = KubeJob(name: JobId, conditions: seq<JobCondition>)

  predicate HasFinished(job: KubeJob) {
    exists i :: 0 <= i < |job.conditions|
      && (job.conditions[i].kind.JobComplete? || job.conditions[i].kind.JobFailed?) && job.conditions[i].isTrue
  }

  method IsBuildFinished(job: KubeJob) returns (finished: bool)
    ensures finished == HasFinished(job)
    ensures finished <==>
      (exists i :: 0 <= i < |job.conditions|
         && (job.conditions[i].kind == JobComplete || job.conditions[i].kind == JobFailed) && job.conditions[i].isTrue)
  {
    for i := 0 to |job.conditions|
      invariant forall k :: 0 <= k < i ==> !job.conditions[k].isTrue || job.conditions[k].kind == OtherType
    {
      var c := job.conditions[i];
      if (c.kind == JobComplete || c.kind == JobFailed) && c.isTrue {
        return true;
      }
    }
    return false;
  }

  function Active(jobs: seq<KubeJob>): seq<KubeJob> {
    if jobs == [] then []
    else Active(jobs[..|jobs| - 1]) + (if HasFinished(jobs[|jobs| - 1]) then [] else [jobs[|jobs| - 1]])
  }

  method GetActiveBuilds(jobs: seq<KubeJob>) returns (activeBuilds: seq<KubeJob>, activeJobName: JobId)
    ensures activeBuilds == Active(jobs)
    ensures forall job :: job in activeBuilds <==> job in jobs && !HasFinished(job)
    ensures activeJobName == if activeBuilds == [] then "" else activeBuilds[|activeBuilds| - 1].name
  {
    hide HasFinished;
    activeBuilds, activeJobName := [], "";
    for i := 0 to |jobs|
      invariant activeBuilds == Active(jobs[..i])
      invariant activeJobName == if activeBuilds == [] then "" else activeBuilds[|activeBuilds| - 1].name
    {
      assert jobs[..i + 1][..i] == jobs[..i];
      var finished := IsBuildFinished(jobs[i]);
      if !finished {
        activeBuilds := activeBuilds + [jobs[i]];
        activeJobName := jobs[i].name;
      }
    }
    assert jobs[..|jobs|] == jobs;
    ActiveMeaning(jobs);
  }

  // `listed` is the API server's answer for a builder's jobs; finished are those with a true
  // Complete or Failed condition.
  ghost predicate ListsJobs(listed: seq<KubeJob>, jobs: map<JobId, Job>) {
    && (forall i :: 0 <= i < |listed| ==> listed[i].name in jobs)
    && (forall i :: 0 <= i < |listed| ==>
          (jobs[listed[i].name].finished <==>
             (exists k :: 0 <= k < |listed[i].conditions| && listed[i].conditions[k].isTrue
                && (listed[i].conditions[k].kind == JobComplete || listed[i].conditions[k].kind == JobFailed))))
    && (forall j :: j in jobs ==> exists i :: 0 <= i < |listed| && listed[i].name == j)
  }

  lemma {:induction false} ActiveMeaning(listed: seq<KubeJob>)
    ensures forall job :: job in Active(listed) <==> job in listed && !HasFinished(job)
  {
    if listed != [] {
      ActiveMeaning(listed[..|listed| - 1]);
      assert listed == listed[..|listed| - 1] + [listed[|listed| - 1]];
    }
  }

  // The names of the active builds are exactly the protocol's unfinished jobs, so the check
  // passes (no active build) exactly when there is none.
  lemma CheckSeesUnfinished(listed: seq<KubeJob>, jobs: map<JobId, Job>)
    requires ListsJobs(listed, jobs)
    ensures (set job | job in Active(listed) :: job.name) == Unfinished(jobs)
    ensures Active(listed) == [] <==> Unfinished(jobs) == {}
  {
    ActiveMeaning(listed);
    var names := set job | job in Active(listed) :: job.name;
    forall j | j in Unfinished(jobs) ensures j in names {
      var i :| 0 <= i < |listed| && listed[i].name == j;
      assert listed[i] in Active(listed);
    }
    if Active(listed) != [] {
      assert Active(listed)[0] in Active(listed) && Active(listed)[0].name in names;
    }
  }
}
