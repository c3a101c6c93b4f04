/** The scheduler object: run, job and account rows and the runtime entries, updated in place.
    Row lists and instants a query or the clock supplies are arguments. */
module Scheduler {
  import opened Common
  import opened Dispatch

  /** How many of some jobs have an entry. */
  function Present(runtime: map<JobId, Time>, ids: seq<JobId>): nat {
    if ids == [] then 0
    else Present(runtime, ids[..|ids| - 1]) + if ids[|ids| - 1] in runtime then 1 else 0
  }

  /** The next fire times of some jobs. */
  function Fired(fires: map<JobId, Time>, ids: seq<JobId>): map<JobId, Time> {
    map j | j in ids && j in fires :: fires[j]
  }

  lemma FiredMore(fires: map<JobId, Time>, ids: seq<JobId>, i: nat)
    requires i < |ids| && ids[i] in fires
    ensures Fired(fires, ids[..i + 1]) == Fired(fires, ids[..i])[ids[i] := fires[ids[i]]]
  {
    assert ids[..i + 1] == ids[..i] + [ids[i]];
  }

  class SchedulerManager {
    var runs: map<RunId, Run>
    var jobs: map<JobId, Job>
    var accounts: map<AccountId, BiliAccount>
    var runtime: map<JobId, Time>
    var locks: set<AccountId>
    var reported: set<JobId>

    ghost function View(): World
      reads this
    {
      World(runs, jobs, accounts, runtime, locks, reported)
    }

    /** Startup: what an earlier process left open is failed at once. */
    method RecoverInterruptedRuns(open: seq<RunId>, now: Time) returns (n: nat)
      requires Distinct(open) && forall r :: r in open <==> r in runs && runs[r].Open()
      modifies this`runs
      ensures runs == Recovered(old(runs), now)
      ensures n == |open|
    {
      for i := 0 to |open|
        invariant runs.Keys == old(runs).Keys
        invariant forall r :: r in runs ==>
                                runs[r] == if r in open[..i] then Ended(old(runs)[r], Failed, INTERRUPTED, now)
                                           else old(runs)[r]
      {
        var r := open[i];
        assert open[..i + 1] == open[..i] + [r];
        runs := runs[r := runs[r].(status := Failed, error := INTERRUPTED, finishedAt := Some(now))];
      }
      assert open[..|open|] == open;
      n := |open|;
    }

    /** Maintenance: runs open for more than six hours are failed. */
    method GiveUpStaleRuns(stale: seq<RunId>, now: Time)
      requires Distinct(stale)
      requires forall r :: r in stale <==> r in runs && runs[r].Open() && runs[r].startedAt < now - 6 * HOUR
      modifies this`runs
      ensures runs == Lapsed(old(runs), now)
    {
      for i := 0 to |stale|
        invariant runs.Keys == old(runs).Keys
        invariant forall r :: r in runs ==>
                                runs[r] == if r in stale[..i] then Ended(old(runs)[r], Failed, TIMED_OUT, now)
                                           else old(runs)[r]
      {
        var r := stale[i];
        assert stale[..i + 1] == stale[..i] + [r];
        runs := runs[r := runs[r].(status := Failed, error := TIMED_OUT, finishedAt := Some(now))];
      }
      assert stale[..|stale|] == stale;
    }

    method CloseRun(run: Option<RunId>, error: string, now: Time)
      modifies this`runs
      ensures View() == FailRun(old(View()), run, error, now)
    {
      if run.Some? && run.value in runs {
        var row := runs[run.value];
        if row.status == Queued || row.status == Running {
          runs := runs[run.value := row.(status := Failed, error := error, finishedAt := Some(now))];
        }
      }
    }

    method FinishQueuedRun(run: Option<RunId>, error: string, now: Time)
      modifies this`runs
      ensures View() == FinishQueued(old(View()), run, error, now)
    {
      if run.Some? && run.value in runs && runs[run.value].status == Queued {
        var status := if error != "" then Failed else Succeeded;
        runs := runs[run.value := runs[run.value].(status := status, error := error, finishedAt := Some(now))];
      }
    }

    method Sync(j: JobId, next: Time)
      requires j in jobs
      modifies this`runtime, this`jobs
      ensures View() == SyncJob(old(View()), j, next)
      ensures j in runtime <==> jobs[j].enabled
      ensures jobs == old(jobs)[j := old(jobs)[j].(nextRunAt := Get(runtime, j))]
      ensures forall i :: i != j ==> Get(runtime, i) == Get(old(runtime), i)
    {
      if !jobs[j].enabled {
        var removed := RemoveJob(j);
        jobs := jobs[j := jobs[j].(nextRunAt := None)];
        return;
      }
      runtime := runtime[j := next];
      jobs := jobs[j := jobs[j].(nextRunAt := Some(next))];
    }

    /** A new process: interrupted runs are failed, and every enabled job gets its entry. `open` and
        `ids` are the lists of open runs and of enabled jobs, `fires` what the triggers compute. */
    method Start(open: seq<RunId>, ids: seq<JobId>, fires: map<JobId, Time>, now: Time)
      requires runtime == map[]
      requires Distinct(open) && forall r :: r in open <==> r in runs && runs[r].Open()
      requires Distinct(ids) && forall j :: j in ids <==> j in jobs && jobs[j].enabled
      requires fires.Keys == Elements(ids)
      modifies this`runs, this`jobs, this`runtime
      ensures runs == Recovered(old(runs), now)
      ensures runtime == fires && forall j :: j in runtime <==> j in jobs && jobs[j].enabled
      ensures jobs == Rescheduled(old(jobs), fires)
    {
      var n := RecoverInterruptedRuns(open, now);
      SyncAll(ids, fires);
    }

    method SyncAll(ids: seq<JobId>, fires: map<JobId, Time>)
      requires runtime == map[] && Distinct(ids) && fires.Keys == Elements(ids)
      requires forall j :: j in ids ==> j in jobs && jobs[j].enabled
      modifies this`jobs, this`runtime
      ensures runtime == fires && jobs == Rescheduled(old(jobs), fires)
    {
      for i := 0 to |ids|
        invariant runtime == Fired(fires, ids[..i]) && jobs == Rescheduled(old(jobs), runtime)
      {
        var j := ids[i];
        FiredMore(fires, ids, i);
        Sync(j, fires[j]);
      }
      assert ids[..|ids|] == ids;
    }

    method RemoveJob(j: JobId) returns (removed: bool)
      modifies this`runtime
      ensures runtime == old(runtime) - {j}
      ensures removed <==> j in old(runtime)
    {
      removed := j in runtime;
      if removed {
        runtime := runtime - {j};
      }
    }

    /** Takes away the entries of an account's jobs; says how many there were. */
    method RemoveAccountJobs(a: AccountId, ids: seq<JobId>) returns (n: nat)
      requires Distinct(ids) && forall j :: j in ids <==> j in jobs && jobs[j].account == Some(a)
      modifies this`runtime
      ensures runtime == old(runtime) - JobsOf(jobs, a)
      ensures n == Present(old(runtime), ids)
    {
      n := 0;
      ghost var before := runtime;
      for i := 0 to |ids|
        invariant forall j :: j in runtime <==> j in before && j !in ids[..i]
        invariant forall j :: j in runtime ==> runtime[j] == before[j]
        invariant n == Present(before, ids[..i])
      {
        var j := ids[i];
        assert j !in ids[..i];
        assert ids[..i + 1] == ids[..i] + [j] && ids[..i + 1][..i] == ids[..i];
        var removed := RemoveJob(j);
        if removed {
          n := n + 1;
        }
      }
      assert ids[..|ids|] == ids;
      assert runtime == before - JobsOf(jobs, a);
    }

    /** The end of every dispatch: the job's row and its entry are brought together. `ids` is the
        list of the account's jobs. */
    method PersistNextRunAt(j: JobId, ids: seq<JobId>)
      requires j in jobs && jobs[j].account.Some? ==>
                 Distinct(ids) && forall i :: i in ids <==> i in jobs && jobs[i].account == jobs[j].account
      modifies this`runtime, this`jobs
      ensures View() == PersistNextRun(old(View()), j)
      ensures j in runtime <==> j in old(runtime) && Live(old(View()), j)
      ensures j in runtime ==> runtime[j] == old(runtime)[j]
      ensures j in jobs <==> j in old(jobs)
      ensures j in jobs ==> jobs[j] == old(jobs)[j].(nextRunAt := Get(runtime, j))
    {
      EntryIffLive(View(), j);
      if j !in jobs {
        var removed := RemoveJob(j);
        return;
      }
      var job := jobs[j];
      if job.account.Some? {
        var a := job.account.value;
        if a !in accounts || accounts[a].status != Active {
          Unschedule(a, ids);
          var n := RemoveAccountJobs(a, ids);
          assert JobsOf(jobs, a) == JobsOf(old(jobs), a);
          return;
        }
      }
      if !job.enabled {
        var removed := RemoveJob(j);
        jobs := jobs[j := job.(nextRunAt := None)];
      } else {
        jobs := jobs[j := job.(nextRunAt := Get(runtime, j))];
      }
    }

    method Unschedule(a: AccountId, ids: seq<JobId>)
      requires Distinct(ids) && forall j :: j in ids <==> j in jobs && jobs[j].account == Some(a)
      modifies this`jobs
      ensures jobs == Unscheduled(old(jobs), a)
    {
      for i := 0 to |ids|
        invariant jobs.Keys == old(jobs).Keys
        invariant forall j :: j in jobs ==>
                                jobs[j] == if j in ids[..i] then old(jobs)[j].(nextRunAt := None) else old(jobs)[j]
      {
        var j := ids[i];
        assert ids[..i + 1] == ids[..i] + [j];
        jobs := jobs[j := jobs[j].(nextRunAt := None)];
      }
      assert ids[..|ids|] == ids;
    }

    /** A dispatch from its start to the call of the handler or of the resending service. */
    method DispatchChecks(j: JobId, given: Option<RunId>, newRun: RunId, now: Time) returns (admission: Admission)
      modifies this`runs
      ensures (View(), admission) == Admit(old(View()), j, given, newRun, now)
      ensures !admission.Turned? ==> j in jobs && jobs[j].enabled && admission.run == RunIdOf(given, newRun)
      ensures admission.Handed? ==>
                && jobs[j].kind == admission.kind != NotificationRetry && jobs[j].account == Some(admission.account)
                && Get(accounts, admission.account) == Some(BiliAccount(jobs[j].user, Active))
      ensures admission.Turned? && admission.was.Some? && admission.was.value in runs ==>
                runs[admission.was.value].status != Queued
      ensures forall r :: r != RunIdOf(given, newRun) ==> Get(runs, r) == Get(old(runs), r)
    {
      if j !in jobs || !jobs[j].enabled {
        FinishQueuedRun(given, "job is disabled", now);
        return Turned(given);
      }
      var job := jobs[j];
      var run: RunId;
      if given.None? {
        run := newRun;
        runs := runs[run := Run(job.account, Queued, now, None, "")];
      } else {
        run := given.value;
      }
      if job.kind == NotificationRetry {
        return Retrying(run);
      }
      if job.account.None? {
        FinishQueuedRun(Some(run), "job has no account", now);
        return Turned(Some(run));
      }
      var a := job.account.value;
      if a !in accounts || accounts[a].user != job.user {
        FinishQueuedRun(Some(run), "account not found", now);
        return Turned(Some(run));
      }
      if accounts[a].status != Active {
        FinishQueuedRun(Some(run), "account is not active", now);
        return Turned(Some(run));
      }
      return Handed(run, a, job.kind);
    }

    /** The dispatch's handling of an exception from its work. */
    method HandleFailure(j: JobId, run: Option<RunId>, now: Time)
      modifies this`runs, this`runtime, this`reported
      ensures View() == Failure(old(View()), j, run, now)
      ensures run.Some? && run.value in runs ==> !runs[run.value].Open()
      ensures forall r :: Some(r) != run || (r in old(runs) && !old(runs)[r].Open()) ==> Get(runs, r) == Get(old(runs), r)
      ensures j in runtime <==> j in old(runtime) && (j !in jobs || jobs[j].enabled)
      ensures forall i :: i != j ==> Get(runtime, i) == Get(old(runtime), i)
    {
      CloseRun(run, "job execution failed", now);
      if j in jobs {
        if !jobs[j].enabled {
          var removed := RemoveJob(j);
        }
        reported := reported + {j};
      }
    }
  }
}
