/** Scheduled jobs and their runs: what one dispatch does between the points where it waits. */
module Dispatch {
  import opened Common

  type JobId = nat
  type RunId = nat

  datatype JobKind = ChargeCollection | CouponClaim | DailyTask | NotificationRetry
  datatype RunStatus = Queued | Running | Succeeded | Failed | Skipped | PartialSuccess
  datatype AccountStatus = Active | Expired | Disabled

  datatype Run = Run(account: Option<AccountId>, status: RunStatus, startedAt: Time, finishedAt: Option<Time>, error: string)
  {
    predicate Open() {
      status == Queued || status == Running
    }
  }

  datatype Job = Job(user: UserId, account: Option<AccountId>, kind: JobKind, enabled: bool, nextRunAt: Option<Time>)
  datatype BiliAccount = BiliAccount(user: UserId, status: AccountStatus)

  /** The rows a dispatch touches; `runtime` holds the scheduler's in-memory entries with their
      next fire times, `locks` the accounts being collected, `reported` the jobs a failure has
      been announced for. */
  datatype World = World(
    runs: map<RunId, Run>,
    jobs: map<JobId, Job>,
    accounts: map<AccountId, BiliAccount>,
    runtime: map<JobId, Time>,
    locks: set<AccountId>,
    reported: set<JobId>)

  // ---------------------------------------------------------------- runs

  function Ended(r: Run, s: RunStatus, error: string, now: Time): Run {
    r.(status := s, error := error, finishedAt := Some(now))
  }

  /** A run that has not begun is closed; any other is left alone. */
  function FinishQueued(w: World, run: Option<RunId>, error: string, now: Time): World {
    if run.Some? && run.value in w.runs && w.runs[run.value].status == Queued then
      w.(runs := w.runs[run.value := Ended(w.runs[run.value], if error != "" then Failed else Succeeded, error, now)])
    else w
  }

  function FailRun(w: World, run: Option<RunId>, error: string, now: Time): World {
    if run.Some? && run.value in w.runs && w.runs[run.value].Open() then
      w.(runs := w.runs[run.value := Ended(w.runs[run.value], Failed, error, now)])
    else w
  }

  const INTERRUPTED := "run interrupted by process restart"
  const TIMED_OUT := "run interrupted or timed out"

  function Recovered(runs: map<RunId, Run>, now: Time): map<RunId, Run> {
    map r | r in runs :: if runs[r].Open() then Ended(runs[r], Failed, INTERRUPTED, now) else runs[r]
  }

  /** Runs still open six hours after their start are given up. */
  function Lapsed(runs: map<RunId, Run>, now: Time): map<RunId, Run> {
    map r | r in runs ::
      if runs[r].Open() && runs[r].startedAt < now - 21600 then Ended(runs[r], Failed, TIMED_OUT, now) else runs[r]
  }

  // ---------------------------------------------------------------- entries

  function JobsOf(jobs: map<JobId, Job>, a: AccountId): set<JobId> {
    set j | j in jobs && jobs[j].account == Some(a)
  }

  predicate IsActive(w: World, a: AccountId) {
    a in w.accounts && w.accounts[a].status == Active
  }

  function Unscheduled(jobs: map<JobId, Job>, a: AccountId): map<JobId, Job> {
    map j | j in jobs :: if jobs[j].account == Some(a) then jobs[j].(nextRunAt := None) else jobs[j]
  }

  function PersistNextRun(w: World, j: JobId): World {
    if j !in w.jobs then w.(runtime := w.runtime - {j})
    else if w.jobs[j].account.Some? && !IsActive(w, w.jobs[j].account.value) then
      var a := w.jobs[j].account.value;
      w.(jobs := Unscheduled(w.jobs, a), runtime := w.runtime - JobsOf(w.jobs, a))
    else if !w.jobs[j].enabled then
      w.(runtime := w.runtime - {j}, jobs := w.jobs[j := w.jobs[j].(nextRunAt := None)])
    else
      w.(jobs := w.jobs[j := w.jobs[j].(nextRunAt := Get(w.runtime, j))])
  }

  /** Bringing a job's entry in line with its row; `next` is what its trigger computes. */
  function SyncJob(w: World, j: JobId, next: Time): World
    requires j in w.jobs
  {
    if w.jobs[j].enabled then
      w.(runtime := w.runtime[j := next], jobs := w.jobs[j := w.jobs[j].(nextRunAt := Some(next))])
    else
      w.(runtime := w.runtime - {j}, jobs := w.jobs[j := w.jobs[j].(nextRunAt := None)])
  }

  /** Every job with its next fire time, where it has one. */
  function Rescheduled(jobs: map<JobId, Job>, fires: map<JobId, Time>): map<JobId, Job> {
    map j | j in jobs :: if j in fires then jobs[j].(nextRunAt := Some(fires[j])) else jobs[j]
  }

  // ---------------------------------------------------------------- the parts of a dispatch

  /** Where a dispatch goes after its checks. */
  datatype Admission =
    | Turned(was: Option<RunId>)
    | Retrying(run: RunId)
    | Handed(run: RunId, account: AccountId, kind: JobKind)

  function RunIdOf(run: Option<RunId>, newRun: RunId): RunId {
    if run.Some? then run.value else newRun
  }

  /** A scheduled dispatch makes its run; a manual one was given it. */
  function WithRun(w: World, j: JobId, run: Option<RunId>, newRun: RunId, now: Time): World
    requires j in w.jobs
  {
    if run.Some? then w
    else w.(runs := w.runs[newRun := Run(w.jobs[j].account, Queued, now, None, "")])
  }

  function Admit(w: World, j: JobId, run: Option<RunId>, newRun: RunId, now: Time): (World, Admission) {
    if j !in w.jobs || !w.jobs[j].enabled then
      (FinishQueued(w, run, "job is disabled", now), Turned(run))
    else
      var v := WithRun(w, j, run, newRun, now);
      var r := RunIdOf(run, newRun);
      var job := w.jobs[j];
      if job.kind == NotificationRetry then (v, Retrying(r))
      else if job.account.None? then (FinishQueued(v, Some(r), "job has no account", now), Turned(Some(r)))
      else
        var a := job.account.value;
        if a !in w.accounts || w.accounts[a].user != job.user then
          (FinishQueued(v, Some(r), "account not found", now), Turned(Some(r)))
        else if w.accounts[a].status != Active then
          (FinishQueued(v, Some(r), "account is not active", now), Turned(Some(r)))
        else (v, Handed(r, a, job.kind))
  }

  /** A handler takes its run over; collection holds the account's lock while it works. */
  function StartWork(w: World, run: RunId, a: AccountId, kind: JobKind, now: Time): World
    requires run in w.runs
  {
    w.(runs := w.runs[run := w.runs[run].(account := if kind == CouponClaim then w.runs[run].account else Some(a),
                                          status := Running, startedAt := now)],
       locks := if kind == ChargeCollection then w.locks + {a} else w.locks)
  }

  predicate Busy(w: World, a: AccountId, kind: JobKind) {
    kind == ChargeCollection && a in w.locks
  }

  /** How a handler ends: it returns with a final status, it raises, it finds the login expired
      and raises, it is cancelled, or it raises and cannot store anything. */
  datatype Ending = Returned(status: RunStatus) | Raised(error: string) | LoginExpired | Cancelled | Lost

  function Disabling(jobs: map<JobId, Job>, a: AccountId): map<JobId, Job> {
    map j | j in jobs ::
      if jobs[j].account == Some(a) then jobs[j].(enabled := false, nextRunAt := None) else jobs[j]
  }

  /** What a handler has stored when it ends: its `finally` stamps the finish time. */
  function EndWork(w: World, run: RunId, a: AccountId, kind: JobKind, e: Ending, now: Time): World
    requires run in w.runs
  {
    var v := w.(locks := if kind == ChargeCollection then w.locks - {a} else w.locks);
    match e
    case Returned(s) => v.(runs := v.runs[run := v.runs[run].(status := s, finishedAt := Some(now))])
    case Raised(error) => v.(runs := v.runs[run := Ended(v.runs[run], Failed, error, now)])
    case LoginExpired =>
      v.(runs := v.runs[run := Ended(v.runs[run], Failed, "Bilibili account authentication expired", now)],
         jobs := Disabling(v.jobs, a),
         accounts := if a in v.accounts then v.accounts[a := v.accounts[a].(status := Expired)] else v.accounts)
    case Cancelled => v.(runs := v.runs[run := v.runs[run].(finishedAt := Some(now))])
    case Lost => v
  }

  /** A failure reaches the dispatch: its run is closed if the handler has not, a disabled job
      loses its entry, and the job's owner is told. */
  function Failure(w: World, j: JobId, run: Option<RunId>, now: Time): World {
    var v := FailRun(w, run, "job execution failed", now);
    if j !in v.jobs then v
    else v.(runtime := if v.jobs[j].enabled then v.runtime else v.runtime - {j}, reported := v.reported + {j})
  }

  function Interruption(w: World, run: Option<RunId>, now: Time): World {
    FailRun(w, run, "run interrupted during shutdown", now)
  }

  // ---------------------------------------------------------------- facts about the parts

  /** After a dispatch its job has an entry only if the row is there, enabled, and any account it
      is for is active; and no job of an inactive account of its has one. */
  lemma EntryOnlyIfLive(w: World, j: JobId)
    ensures var v := PersistNextRun(w, j);
            && (j in v.runtime ==>
                  && j in v.jobs && v.jobs[j].enabled
                  && (v.jobs[j].account.Some? ==> IsActive(v, v.jobs[j].account.value))
                  && v.jobs[j].nextRunAt == Some(v.runtime[j]))
            && (j in w.jobs && w.jobs[j].account.Some? && !IsActive(w, w.jobs[j].account.value) ==>
                  forall i :: i in v.jobs && v.jobs[i].account == w.jobs[j].account ==>
                                i !in v.runtime && v.jobs[i].nextRunAt == None)
  {
    var v := PersistNextRun(w, j);
    if j in w.jobs && w.jobs[j].account.Some? && !IsActive(w, w.jobs[j].account.value) {
      var a := w.jobs[j].account.value;
      assert j in JobsOf(w.jobs, a);
      forall i | i in v.jobs && v.jobs[i].account == Some(a)
        ensures i !in v.runtime && v.jobs[i].nextRunAt == None
      {
        assert i in JobsOf(w.jobs, a);
      }
    }
  }

  /** A job that is to be run: its row is there and enabled, and its account, if it has one, active. */
  predicate Live(w: World, j: JobId) {
    j in w.jobs && w.jobs[j].enabled
    && match w.jobs[j].account
       case None => true
       case Some(a) => a in w.accounts && w.accounts[a].status == Active
  }

  /** After a dispatch its job has an entry exactly when it had one and is live. The entry stays as it
      was, and the job's row says when it fires. */
  lemma EntryIffLive(w: World, j: JobId)
    ensures var v := PersistNextRun(w, j);
            && (j in v.runtime <==> j in w.runtime && Live(w, j))
            && (j in v.runtime ==> v.runtime[j] == w.runtime[j])
            && (j in w.jobs ==> j in v.jobs && v.jobs[j] == w.jobs[j].(nextRunAt := Get(v.runtime, j)))
            && (Live(w, j) ==> v.runtime == w.runtime)
  {
    if j in w.jobs && w.jobs[j].account.Some? {
      assert j in JobsOf(w.jobs, w.jobs[j].account.value);
    }
  }

  /** Nothing else changes: no other job's entry unless its account is inactive, no enabled flag,
      no run, no account. */
  lemma PersistFrame(w: World, j: JobId, i: JobId)
    requires i != j
    requires j in w.jobs && i in w.jobs && w.jobs[j].account.Some? ==>
               w.jobs[i].account != w.jobs[j].account || IsActive(w, w.jobs[j].account.value)
    ensures var v := PersistNextRun(w, j);
            && v.(jobs := w.jobs, runtime := w.runtime) == w
            && Get(v.runtime, i) == Get(w.runtime, i) && Get(v.jobs, i) == Get(w.jobs, i)
  {
  }

  /** A handler's login failure followed by the dispatch's end takes every entry of the account
      away, whatever else the account's jobs are. */
  lemma ExpiryClearsAccount(w: World, j: JobId, run: RunId, a: AccountId, kind: JobKind, now: Time, later: Time)
    requires j in w.jobs && w.jobs[j].account == Some(a) && run in w.runs
    ensures var v := PersistNextRun(Failure(EndWork(w, run, a, kind, LoginExpired, now), j, Some(run), later), j);
            && !v.runs[run].Open() && v.runs[run].finishedAt == Some(now)
            && forall i :: i in v.jobs && v.jobs[i].account == Some(a) ==>
                             !v.jobs[i].enabled && i !in v.runtime && v.jobs[i].nextRunAt == None
  {
    var e := EndWork(w, run, a, kind, LoginExpired, now);
    var f := Failure(e, j, Some(run), later);
    assert f.jobs == Disabling(w.jobs, a) && !IsActive(f, a);
    EntryOnlyIfLive(f, j);
  }

  /** Recovery closes every open run and changes no other. */
  lemma RecoveryClosesAll(runs: map<RunId, Run>, now: Time)
    ensures Recovered(runs, now).Keys == runs.Keys
    ensures forall r :: r in runs ==> !Recovered(runs, now)[r].Open()
    ensures forall r :: r in runs ==>
                          Recovered(runs, now)[r] ==
                          if runs[r].Open() then Ended(runs[r], Failed, INTERRUPTED, now) else runs[r]
    ensures Recovered(Recovered(runs, now), now + 1) == Recovered(runs, now)
  {
  }
}
