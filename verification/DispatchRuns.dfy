/** Any number of dispatches and of users' own requests in flight, interleaved with each other, with
    every other request, with maintenance and with restarts. */
module DispatchRuns {
  import opened Common
  import opened Dispatch

  type TaskId = nat

  /** How far a task is; every phase is one in which it waits. */
  datatype Phase =
    | Submitted(given: Option<RunId>)
    | AtWork(run: RunId, account: AccountId, kind: JobKind)
    | Resending(sending: RunId)
    | Leaving(closed: Option<RunId>)

  /** A dispatch of a job, or a request that calls a handler itself and has no job. */
  datatype Flight = Flight(job: Option<JobId>, phase: Phase)

  /** `left` holds the runs that a request left open when it ended; no operation reads it. */
  datatype State = State(w: World, flights: map<TaskId, Flight>, left: set<RunId>)

  function RunOf(p: Phase): Option<RunId> {
    match p
    case Submitted(r) => r
    case AtWork(r, _, _) => Some(r)
    case Resending(r) => Some(r)
    case Leaving(r) => r
  }

  datatype Step =
    | Fire(job: JobId, task: TaskId)
    | Submit(job: JobId, task: TaskId, newRun: RunId, now: Time)
    | Request(account: AccountId, kind: JobKind, task: TaskId, newRun: RunId, now: Time)
    | Begin(task: TaskId, newRun: RunId, now: Time)
    | End(task: TaskId, ending: Ending, now: Time, later: Time)
    | Leave(task: TaskId)
    | Outside(jobs: map<JobId, Job>, accounts: map<AccountId, BiliAccount>, runtime: map<JobId, Time>)
    | Tidy(now: Time)
    | Restart(fires: map<JobId, Time>, now: Time)

  ghost predicate Possible(s: State, step: Step) {
    match step
    case Fire(j, t) => j in s.w.runtime && t !in s.flights
    case Submit(j, t, r, _) => j in s.w.jobs && t !in s.flights && r !in s.w.runs
    case Request(a, kind, t, r, _) =>
      && a in s.w.accounts && (kind == ChargeCollection || kind == CouponClaim)
      && t !in s.flights && r !in s.w.runs && !Busy(s.w, a, kind)
    case Begin(t, r, _) => t in s.flights && s.flights[t].phase.Submitted? && r !in s.w.runs
    case End(t, e, _, _) =>
      && t in s.flights && (s.flights[t].phase.AtWork? || s.flights[t].phase.Resending?)
      && (e.Returned? ==> e.status != Queued && e.status != Running)
    case Leave(t) => t in s.flights && s.flights[t].phase.Leaving?
    case Restart(fires, _) => forall j :: j in fires <==> j in s.w.jobs && s.w.jobs[j].enabled
    case _ => true
  }

  /** A dispatch up to its first wait. A handler that finds its account busy raises at once. */
  function Begun(w: World, f: Flight, newRun: RunId, now: Time): (World, Phase)
    requires f.job.Some? && f.phase.Submitted?
    requires f.phase.given.Some? ==> f.phase.given.value in w.runs
  {
    var (v, admission) := Admit(w, f.job.value, f.phase.given, newRun, now);
    match admission
    case Turned(r) => (v, Leaving(r))
    case Retrying(r) => (v, Resending(r))
    case Handed(r, a, kind) =>
      if Busy(v, a, kind) then (Failure(v, f.job.value, Some(r), now), Leaving(Some(r)))
      else (StartWork(v, r, a, kind, now), AtWork(r, a, kind))
  }

  /** From the end of the work to the wait for the client to close. */
  function Finished(w: World, f: Flight, e: Ending, now: Time, later: Time): World
    requires f.job.Some? && (f.phase.AtWork? || f.phase.Resending?)
    requires RunOf(f.phase).value in w.runs
  {
    var r := RunOf(f.phase).value;
    var v :=
      if f.phase.AtWork? then EndWork(w, r, f.phase.account, f.phase.kind, e, now)
      else if e.Returned? then FinishQueued(w, Some(r), "", now)
      else w;
    match e
    case Returned(_) => v
    case Cancelled => Interruption(v, Some(r), later)
    case _ => Failure(v, f.job.value, Some(r), later)
  }

  /** A request makes its run as its handler takes it over. A handler that finds the account busy
      refuses before it makes one, which changes nothing. */
  function Requested(w: World, r: RunId, a: AccountId, kind: JobKind, now: Time): World {
    StartWork(w.(runs := w.runs[r := Run(None, Queued, now, None, "")]), r, a, kind, now)
  }

  /** Runs in the care of a task are stored ones, and a request is at work as long as it lasts. */
  predicate Tracked(s: State) {
    && (forall t :: t in s.flights && RunOf(s.flights[t].phase).Some? ==> RunOf(s.flights[t].phase).value in s.w.runs)
    && (forall t :: t in s.flights && s.flights[t].job.None? ==> s.flights[t].phase.AtWork?)
  }

  function Next(s: State, step: Step): State
    requires Possible(s, step) && Tracked(s)
  {
    match step
    case Fire(j, t) => s.(flights := s.flights[t := Flight(Some(j), Submitted(None))])
    case Submit(j, t, r, now) =>
      s.(w := s.w.(runs := s.w.runs[r := Run(s.w.jobs[j].account, Queued, now, None, "")]),
         flights := s.flights[t := Flight(Some(j), Submitted(Some(r)))])
    case Request(a, kind, t, r, now) =>
      s.(w := Requested(s.w, r, a, kind, now), flights := s.flights[t := Flight(None, AtWork(r, a, kind))])
    case Begin(t, r, now) =>
      var f := s.flights[t];
      var (w, phase) := Begun(s.w, f, r, now);
      s.(w := w, flights := s.flights[t := f.(phase := phase)])
    case End(t, e, now, later) =>
      var f := s.flights[t];
      if f.job.None? then Answered(s, t, e, now)
      else s.(w := Finished(s.w, f, e, now, later), flights := s.flights[t := f.(phase := Leaving(RunOf(f.phase)))])
    case Leave(t) => s.(w := PersistNextRun(s.w, s.flights[t].job.value), flights := s.flights - {t})
    case Outside(jobs, accounts, runtime) => s.(w := s.w.(jobs := jobs, accounts := accounts, runtime := runtime))
    case Tidy(now) => s.(w := s.w.(runs := Lapsed(s.w.runs, now)))
    case Restart(fires, now) =>
      s.(w := s.w.(runs := Recovered(s.w.runs, now), jobs := Rescheduled(s.w.jobs, fires), runtime := fires, locks := {}),
         flights := map[])
  }

  /** A request is over with its handler: nobody fails its run or looks after its account's jobs. */
  function Answered(s: State, t: TaskId, e: Ending, now: Time): State
    requires t in s.flights && s.flights[t].phase.AtWork? && s.flights[t].phase.run in s.w.runs
  {
    var p := s.flights[t].phase;
    var w := EndWork(s.w, p.run, p.account, p.kind, e, now);
    State(w, s.flights - {t}, if w.runs[p.run].Open() then s.left + {p.run} else s.left)
  }

  // ---------------------------------------------------------------- what every step keeps

  /** A task that still has to close its run. */
  predicate Responsible(f: Flight, r: RunId) {
    RunOf(f.phase) == Some(r) && !f.phase.Leaving?
  }

  /** Every open run is in the care of a task that is still to close it, or was left by a request. */
  ghost predicate NoOrphans(s: State) {
    forall r :: r in s.w.runs && s.w.runs[r].Open() ==> r in s.left || Held(s, r)
  }

  ghost predicate Held(s: State, r: RunId) {
    exists t :: t in s.flights && Responsible(s.flights[t], r)
  }

  /** What a request left is stored, and no task takes it up. */
  ghost predicate LeftAlone(s: State) {
    && s.left <= s.w.runs.Keys
    && (forall t :: t in s.flights && RunOf(s.flights[t].phase).Some? ==> RunOf(s.flights[t].phase).value !in s.left)
  }

  /** No two tasks share a run. */
  ghost predicate OwnRuns(s: State) {
    forall t, u :: t in s.flights && u in s.flights && t != u && RunOf(s.flights[t].phase).Some? ==>
                     RunOf(s.flights[t].phase) != RunOf(s.flights[u].phase)
  }

  /** A closed run has a finish time, and a dispatch on its way out has closed its run. */
  ghost predicate ClosedWell(s: State) {
    && (forall r :: r in s.w.runs && !s.w.runs[r].Open() ==> s.w.runs[r].finishedAt.Some?)
    && (forall t :: t in s.flights && s.flights[t].phase.Leaving? && s.flights[t].phase.closed.Some? ==>
                      s.flights[t].phase.closed.value in s.w.runs && !s.w.runs[s.flights[t].phase.closed.value].Open())
  }

  /** Only a handler at work has its run marked as running. */
  ghost predicate NotStarted(s: State) {
    forall t :: t in s.flights && !s.flights[t].phase.AtWork? && RunOf(s.flights[t].phase).Some?
                && RunOf(s.flights[t].phase).value in s.w.runs ==>
                  s.w.runs[RunOf(s.flights[t].phase).value].status != Running
  }

  predicate Collecting(f: Flight, a: AccountId) {
    f.phase.AtWork? && f.phase.kind == ChargeCollection && f.phase.account == a
  }

  /** At most one collection works on an account, and a lock is held exactly while one does. */
  ghost predicate OneCollector(s: State) {
    && (forall t, u, a ::
          t in s.flights && u in s.flights && Collecting(s.flights[t], a) && Collecting(s.flights[u], a) ==> t == u)
    && (forall a :: a in s.w.locks <==> exists t :: t in s.flights && Collecting(s.flights[t], a))
  }

  ghost predicate RunsSound(s: State) {
    Tracked(s) && NoOrphans(s) && LeftAlone(s) && OwnRuns(s) && NotStarted(s) && ClosedWell(s)
  }

  ghost predicate Sound(s: State) {
    RunsSound(s) && OneCollector(s)
  }

  /** One entry of the run table is written, and if it ends up closed it has its finish time. */
  ghost predicate Writes(before: map<RunId, Run>, after: map<RunId, Run>, r: RunId) {
    r in after && after == before[r := after[r]] && (!after[r].Open() ==> after[r].finishedAt.Some?)
  }

  predicate Closes(run: Run) {
    !run.Open() && run.finishedAt.Some?
  }

  lemma FinishQueuedWrites(w: World, r: RunId, error: string, now: Time)
    requires r in w.runs && (Closes(w.runs[r]) || w.runs[r].status == Queued)
    ensures Writes(w.runs, FinishQueued(w, Some(r), error, now).runs, r)
    ensures Closes(FinishQueued(w, Some(r), error, now).runs[r])
  {
    assert w.runs == w.runs[r := w.runs[r]];
  }

  lemma FailRunWrites(w: World, r: RunId, error: string, now: Time)
    requires r in w.runs && (Closes(w.runs[r]) || w.runs[r].Open())
    ensures Writes(w.runs, FailRun(w, Some(r), error, now).runs, r)
    ensures Closes(FailRun(w, Some(r), error, now).runs[r])
  {
    assert w.runs == w.runs[r := w.runs[r]];
  }

  lemma EndWorkWrites(w: World, r: RunId, a: AccountId, kind: JobKind, e: Ending, now: Time)
    requires r in w.runs && (Closes(w.runs[r]) || w.runs[r].Open())
    requires e.Returned? ==> e.status != Queued && e.status != Running
    ensures Writes(w.runs, EndWork(w, r, a, kind, e, now).runs, r)
    ensures e.Returned? ==> Closes(EndWork(w, r, a, kind, e, now).runs[r])
  {
    assert w.runs == w.runs[r := w.runs[r]];
  }

  lemma WritesTwice(x: map<RunId, Run>, y: map<RunId, Run>, z: map<RunId, Run>, r: RunId)
    requires Writes(x, y, r) && Writes(y, z, r)
    ensures Writes(x, z, r)
  {
  }

  /** The status a run ends with: the handler's own where it could store one, success for a resending
      that returned, and failure otherwise. */
  lemma FinalStatus(w: World, f: Flight, e: Ending, now: Time, later: Time)
    requires f.job.Some? && (f.phase.AtWork? || f.phase.Resending?)
    requires RunOf(f.phase).value in w.runs
    requires var run := w.runs[RunOf(f.phase).value];
             if f.phase.AtWork? then run.status == Running else run.status == Queued
    requires e.Returned? ==> e.status != Queued && e.status != Running
    ensures var v := Finished(w, f, e, now, later); var r := RunOf(f.phase).value;
            && r in v.runs
            && v.runs[r].status == (if e.Returned? then (if f.phase.AtWork? then e.status else Succeeded) else Failed)
            && v.runs[r].finishedAt == Some(if e.Returned? || (f.phase.AtWork? && (e.Raised? || e.LoginExpired?)) then now
                                            else later)
            && (f.phase.AtWork? && e.Raised? ==> v.runs[r].error == e.error)
  {
    hide Disabling;
  }

  /** A dispatch that comes to its handler has marked its run as running since then. */
  lemma BegunIsRunning(w: World, f: Flight, newRun: RunId, now: Time)
    requires f.job.Some? && f.phase.Submitted? && (f.phase.given.Some? ==> f.phase.given.value in w.runs)
    ensures var (v, phase) := Begun(w, f, newRun, now);
            phase.AtWork? ==>
              && phase.run == RunIdOf(f.phase.given, newRun) && phase.run in v.runs
              && v.runs[phase.run].status == Running && v.runs[phase.run].startedAt == now
              && (phase.kind == ChargeCollection ==> phase.account !in w.locks && phase.account in v.locks)
  {
  }

  /** A job's owner hears of a failure exactly when its handler raised: not of a handler that returned, or
      was cancelled. */
  lemma FailureIsReported(w: World, f: Flight, e: Ending, now: Time, later: Time)
    requires f.job.Some? && (f.phase.AtWork? || f.phase.Resending?) && RunOf(f.phase).value in w.runs
    ensures Finished(w, f, e, now, later).reported ==
            w.reported + if !e.Returned? && !e.Cancelled? && f.job.value in w.jobs then {f.job.value} else {}
  {
  }

  /** A run that is turned away before its handler takes it over has failed, for a reason that is given. */
  lemma TurnedAwayFails(w: World, j: JobId, run: Option<RunId>, newRun: RunId, now: Time)
    requires Admit(w, j, run, newRun, now).1.Turned? && Admit(w, j, run, newRun, now).1.was.Some?
    requires run.Some? ==> run.value in w.runs && w.runs[run.value].status == Queued
    ensures var (v, admission) := Admit(w, j, run, newRun, now);
            && admission.was.value == RunIdOf(run, newRun) && admission.was.value in v.runs
            && v.runs[admission.was.value].status == Failed && v.runs[admission.was.value].finishedAt == Some(now)
            && v.runs[admission.was.value].error != ""
  {
  }

  /** A dispatch whose work ends writes only its own run, and closes it, however the work ends. */
  lemma FinishedRuns(w: World, f: Flight, e: Ending, now: Time, later: Time)
    requires f.job.Some? && (f.phase.AtWork? || f.phase.Resending?)
    requires RunOf(f.phase).value in w.runs
    requires e.Returned? ==> e.status != Queued && e.status != Running
    requires var run := w.runs[RunOf(f.phase).value];
             (Closes(run) || run.Open()) && (f.phase.Resending? ==> run.status != Running)
    ensures Writes(w.runs, Finished(w, f, e, now, later).runs, RunOf(f.phase).value)
    ensures Closes(Finished(w, f, e, now, later).runs[RunOf(f.phase).value])
  {
    var r := RunOf(f.phase).value;
    hide FinishQueued, EndWork, FailRun, Writes, Closes;
    var v := w;
    assert Writes(w.runs, v.runs, r) by { SameWrites(w.runs, r); }
    if f.phase.AtWork? {
      v := EndWork(w, r, f.phase.account, f.phase.kind, e, now);
      EndWorkWrites(w, r, f.phase.account, f.phase.kind, e, now);
    } else if e.Returned? {
      v := FinishQueued(w, Some(r), "", now);
      QueuedOrClosed(w.runs[r]);
      FinishQueuedWrites(w, r, "", now);
    }
    if !e.Returned? {
      OpenOrClosed(w.runs, v.runs, r);
      FailRunWrites(v, r, if e.Cancelled? then "run interrupted during shutdown" else "job execution failed", later);
      WritesTwice(w.runs, v.runs, Finished(w, f, e, now, later).runs, r);
    }
  }

  lemma SameWrites(runs: map<RunId, Run>, r: RunId)
    requires r in runs && (Closes(runs[r]) || runs[r].Open())
    ensures Writes(runs, runs, r)
  {
    assert runs == runs[r := runs[r]];
  }

  lemma QueuedOrClosed(run: Run)
    requires (Closes(run) || run.Open()) && run.status != Running
    ensures Closes(run) || run.status == Queued
  {
  }

  lemma OpenOrClosed(before: map<RunId, Run>, after: map<RunId, Run>, r: RunId)
    requires Writes(before, after, r)
    ensures r in after && (Closes(after[r]) || after[r].Open())
  {
  }

  lemma AdmitWrites(w: World, j: JobId, given: Option<RunId>, newRun: RunId, now: Time)
    requires newRun !in w.runs
    requires given.Some? ==> given.value in w.runs && (Closes(w.runs[given.value]) || w.runs[given.value].status == Queued)
    ensures var (v, p) := Admit(w, j, given, newRun, now);
            && (p == Turned(None) ==> v.runs == w.runs && given.None?)
            && (p != Turned(None) ==>
                  var r := if p.Turned? then p.was.value else p.run;
                  && r == RunIdOf(given, newRun) && Writes(w.runs, v.runs, r)
                  && (Closes(v.runs[r]) || v.runs[r].status == Queued)
                  && (p.Turned? ==> Closes(v.runs[r])))
            && v.locks == w.locks
  {
    if j !in w.jobs || !w.jobs[j].enabled {
      if given.Some? {
        FinishQueuedWrites(w, given.value, "job is disabled", now);
      }
    } else {
      var r := RunIdOf(given, newRun);
      var v := WithRun(w, j, given, newRun, now);
      assert Writes(w.runs, v.runs, r) by {
        if given.Some? {
          SameWrites(w.runs, r);
        }
      }
      hide Writes, FinishQueued;
      FinishQueuedWrites(v, r, "job has no account", now);
      FinishQueuedWrites(v, r, "account not found", now);
      FinishQueuedWrites(v, r, "account is not active", now);
      WritesTwice(w.runs, v.runs, FinishQueued(v, Some(r), "job has no account", now).runs, r);
      WritesTwice(w.runs, v.runs, FinishQueued(v, Some(r), "account not found", now).runs, r);
      WritesTwice(w.runs, v.runs, FinishQueued(v, Some(r), "account is not active", now).runs, r);
    }
  }

  /** Up to its first wait a dispatch writes only its own run, and if it is then on its way out
      it has closed that run. */
  lemma BegunRuns(w: World, f: Flight, newRun: RunId, now: Time)
    requires f.job.Some? && f.phase.Submitted? && newRun !in w.runs
    requires f.phase.given.Some? ==>
               f.phase.given.value in w.runs
               && (Closes(w.runs[f.phase.given.value]) || w.runs[f.phase.given.value].status == Queued)
    ensures var (v, p) := Begun(w, f, newRun, now);
            && !p.Submitted?
            && (RunOf(p).None? ==> v.runs == w.runs && f.phase.given.None?)
            && (RunOf(p).Some? ==>
                  var r := RunOf(p).value;
                  && r == RunIdOf(f.phase.given, newRun) && Writes(w.runs, v.runs, r)
                  && (p.Leaving? ==> Closes(v.runs[r]))
                  && (!p.AtWork? ==> v.runs[r].status != Running))
  {
    AdmitWrites(w, f.job.value, f.phase.given, newRun, now);
    hide Admit, FailRun;
    var (v, p) := Admit(w, f.job.value, f.phase.given, newRun, now);
    if p.Handed? {
      if Busy(v, p.account, p.kind) {
        FailRunWrites(v, p.run, "job execution failed", now);
        hide Writes;
        WritesTwice(w.runs, v.runs, FailRun(v, Some(p.run), "job execution failed", now).runs, p.run);
      }
    }
  }

  /** A dispatch that writes only its own run and closes it before leaving keeps the runs sound. */
  lemma TaskKeepsRuns(s: State, t: TaskId, p: Phase, w: World, r: RunId)
    requires RunsSound(s) && t in s.flights
    requires Writes(s.w.runs, w.runs, r) && RunOf(p) == Some(r)
    requires RunOf(s.flights[t].phase) == Some(r) || (RunOf(s.flights[t].phase).None? && r !in s.w.runs)
    requires p.Leaving? ==> Closes(w.runs[r])
    requires !p.AtWork? ==> w.runs[r].status != Running
    requires s.flights[t].job.Some?
    ensures RunsSound(s.(w := w, flights := s.flights[t := s.flights[t].(phase := p)]))
  {
    var v := s.(w := w, flights := s.flights[t := s.flights[t].(phase := p)]);
    TaskKeepsHolders(s, t, p, w, r);
    hide NoOrphans, Responsible;
    assert Tracked(v);
    assert LeftAlone(v);
    assert OwnRuns(v);
    hide LeftAlone, OwnRuns;
    assert NotStarted(v);
    hide NotStarted;
    assert ClosedWell(v);
  }

  lemma TaskKeepsHolders(s: State, t: TaskId, p: Phase, w: World, r: RunId)
    requires NoOrphans(s) && t in s.flights
    requires Writes(s.w.runs, w.runs, r) && RunOf(p) == Some(r)
    requires RunOf(s.flights[t].phase) == Some(r) || RunOf(s.flights[t].phase).None?
    requires p.Leaving? ==> Closes(w.runs[r])
    ensures NoOrphans(s.(w := w, flights := s.flights[t := s.flights[t].(phase := p)]))
  {
    var v := s.(w := w, flights := s.flights[t := s.flights[t].(phase := p)]);
    forall q | q in v.w.runs && v.w.runs[q].Open()
      ensures q in v.left || Held(v, q)
    {
      if q == r {
        assert Responsible(v.flights[t], q);
      } else if q !in s.left {
        var u :| u in s.flights && Responsible(s.flights[u], q);
        assert Responsible(v.flights[u], q);
      }
    }
  }

  /** Locks are taken when a collection starts and given back when it ends. */
  lemma BeginKeepsLocks(s: State, t: TaskId, newRun: RunId, now: Time)
    requires Sound(s) && Possible(s, Begin(t, newRun, now))
    ensures OneCollector(Next(s, Begin(t, newRun, now)))
  {
    var f := s.flights[t];
    BegunLocks(s.w, f, newRun, now);
    hide NoOrphans, LeftAlone, OwnRuns, NotStarted, ClosedWell, OneCollector, Begun;
    CollectorEnters(s, Next(s, Begin(t, newRun, now)), t);
  }

  lemma BegunLocks(w: World, f: Flight, newRun: RunId, now: Time)
    requires f.job.Some? && f.phase.Submitted? && (f.phase.given.Some? ==> f.phase.given.value in w.runs)
    ensures var (v, p) := Begun(w, f, newRun, now);
            if p.AtWork? && p.kind == ChargeCollection then p.account !in w.locks && v.locks == w.locks + {p.account}
            else v.locks == w.locks
  {
    AdmittedLocks(w, f.job.value, f.phase.given, newRun, now);
    hide Admit, FailRun;
  }

  lemma CollectorEnters(s: State, v: State, t: TaskId)
    requires OneCollector(s) && t in v.flights && v.flights == s.flights[t := v.flights[t]]
    requires t in s.flights ==> !s.flights[t].phase.AtWork?
    requires var p := v.flights[t].phase;
             if p.AtWork? && p.kind == ChargeCollection then p.account !in s.w.locks && v.w.locks == s.w.locks + {p.account}
             else v.w.locks == s.w.locks
    ensures OneCollector(v)
  {
    forall a
      ensures a in v.w.locks <==> exists u :: u in v.flights && Collecting(v.flights[u], a)
    {
      if a in v.w.locks {
        if a in s.w.locks {
          var u :| u in s.flights && Collecting(s.flights[u], a);
          assert Collecting(v.flights[u], a);
        } else {
          assert Collecting(v.flights[t], a);
        }
      }
      if u :| u in v.flights && Collecting(v.flights[u], a) {
        assert u != t ==> Collecting(s.flights[u], a);
      }
    }
    forall u, q, a | u in v.flights && q in v.flights && Collecting(v.flights[u], a) && Collecting(v.flights[q], a)
      ensures u == q
    {
      assert u != t ==> Collecting(s.flights[u], a) && a in s.w.locks;
      assert q != t ==> Collecting(s.flights[q], a) && a in s.w.locks;
    }
  }

  lemma AdmittedLocks(w: World, j: JobId, given: Option<RunId>, newRun: RunId, now: Time)
    ensures Admit(w, j, given, newRun, now).0.locks == w.locks
  {
  }

  lemma EndKeepsLocks(s: State, t: TaskId, e: Ending, now: Time, later: Time)
    requires Sound(s) && Possible(s, End(t, e, now, later))
    ensures OneCollector(Next(s, End(t, e, now, later)))
  {
    if s.flights[t].job.Some? {
      FinishedLocks(s.w, s.flights[t], e, now, later);
    }
    hide NoOrphans, LeftAlone, OwnRuns, NotStarted, ClosedWell, OneCollector, Finished, Disabling;
    CollectorLeaves(s, Next(s, End(t, e, now, later)), t);
  }

  lemma FinishedLocks(w: World, f: Flight, e: Ending, now: Time, later: Time)
    requires f.job.Some? && (f.phase.AtWork? || f.phase.Resending?) && RunOf(f.phase).value in w.runs
    ensures Finished(w, f, e, now, later).locks
            == if f.phase.AtWork? && f.phase.kind == ChargeCollection then w.locks - {f.phase.account} else w.locks
  {
    hide Disabling;
  }

  lemma CollectorLeaves(s: State, v: State, t: TaskId)
    requires OneCollector(s) && t in s.flights
    requires v.flights == s.flights - {t} || (t in v.flights && v.flights == s.flights[t := v.flights[t]])
    requires t in v.flights ==> v.flights[t].phase.Leaving?
    requires var p := s.flights[t].phase;
             v.w.locks == if p.AtWork? && p.kind == ChargeCollection then s.w.locks - {p.account} else s.w.locks
    ensures OneCollector(v)
  {
    forall a
      ensures a in v.w.locks <==> exists u :: u in v.flights && Collecting(v.flights[u], a)
    {
      if a in v.w.locks {
        var u :| u in s.flights && Collecting(s.flights[u], a);
        assert Collecting(v.flights[u], a);
      }
      if u :| u in v.flights && Collecting(v.flights[u], a) {
        assert Collecting(s.flights[u], a);
      }
    }
    forall u, q, a | u in v.flights && q in v.flights && Collecting(v.flights[u], a) && Collecting(v.flights[q], a)
      ensures u == q
    {
      assert Collecting(s.flights[u], a) && Collecting(s.flights[q], a);
    }
  }

  /** Flights that collect nothing come and go without a lock. */
  lemma SameCollectors(s: State, v: State)
    requires OneCollector(s) && v.w.locks == s.w.locks
    requires forall t, a :: t in v.flights && Collecting(v.flights[t], a) ==> t in s.flights && Collecting(s.flights[t], a)
    requires forall t, a :: t in s.flights && Collecting(s.flights[t], a) ==> t in v.flights && Collecting(v.flights[t], a)
    ensures OneCollector(v)
  {
  }

  /** A task appears with no run, or with one just made. */
  lemma ArrivalKeepsRuns(s: State, t: TaskId, f: Flight, w: World)
    requires RunsSound(s) && t !in s.flights && !f.phase.Leaving? && (f.job.None? ==> f.phase.AtWork?)
    requires RunOf(f.phase).None? ==> w.runs == s.w.runs
    requires RunOf(f.phase).Some? ==>
               var r := RunOf(f.phase).value;
               && r !in s.w.runs && r in w.runs && w.runs == s.w.runs[r := w.runs[r]] && w.runs[r].Open()
               && (!f.phase.AtWork? ==> w.runs[r].status != Running)
    ensures RunsSound(s.(w := w, flights := s.flights[t := f]))
  {
    var v := s.(w := w, flights := s.flights[t := f]);
    assert Tracked(v);
    ArrivalKeepsHolders(s, t, f, w);
    hide NoOrphans, Responsible;
    assert LeftAlone(v);
    assert OwnRuns(v);
    hide LeftAlone, OwnRuns;
    assert NotStarted(v);
    hide NotStarted;
    assert ClosedWell(v);
  }

  lemma ArrivalKeepsHolders(s: State, t: TaskId, f: Flight, w: World)
    requires NoOrphans(s) && t !in s.flights && !f.phase.Leaving?
    requires RunOf(f.phase).None? ==> w.runs == s.w.runs
    requires RunOf(f.phase).Some? ==>
               && RunOf(f.phase).value in w.runs
               && w.runs == s.w.runs[RunOf(f.phase).value := w.runs[RunOf(f.phase).value]]
    ensures NoOrphans(s.(w := w, flights := s.flights[t := f]))
  {
    var v := s.(w := w, flights := s.flights[t := f]);
    forall r | r in v.w.runs && v.w.runs[r].Open()
      ensures r in v.left || Held(v, r)
    {
      if RunOf(f.phase) == Some(r) {
        assert Responsible(v.flights[t], r);
      } else if r !in s.left {
        var u :| u in s.flights && Responsible(s.flights[u], r);
        assert Responsible(v.flights[u], r);
      }
    }
  }

  lemma FireKeeps(s: State, j: JobId, t: TaskId)
    requires Sound(s) && Possible(s, Fire(j, t))
    ensures Sound(Next(s, Fire(j, t)))
  {
    SameCollectors(s, Next(s, Fire(j, t)));
    hide OneCollector, NoOrphans, LeftAlone, OwnRuns, NotStarted, ClosedWell;
    ArrivalKeepsRuns(s, t, Flight(Some(j), Submitted(None)), s.w);
  }

  lemma SubmitKeeps(s: State, j: JobId, t: TaskId, newRun: RunId, now: Time)
    requires Sound(s) && Possible(s, Submit(j, t, newRun, now))
    ensures Sound(Next(s, Submit(j, t, newRun, now)))
  {
    SameCollectors(s, Next(s, Submit(j, t, newRun, now)));
    hide OneCollector, NoOrphans, LeftAlone, OwnRuns, NotStarted, ClosedWell;
    ArrivalKeepsRuns(s, t, Flight(Some(j), Submitted(Some(newRun))), Next(s, Submit(j, t, newRun, now)).w);
  }

  /** A request starts at work, on a run of its own and with the lock it needs. */
  lemma RequestKeeps(s: State, a: AccountId, kind: JobKind, t: TaskId, newRun: RunId, now: Time)
    requires Sound(s) && Possible(s, Request(a, kind, t, newRun, now))
    ensures Sound(Next(s, Request(a, kind, t, newRun, now)))
  {
    hide OneCollector, NoOrphans, LeftAlone, OwnRuns, NotStarted, ClosedWell;
    CollectorEnters(s, Next(s, Request(a, kind, t, newRun, now)), t);
    ArrivalKeepsRuns(s, t, Flight(None, AtWork(newRun, a, kind)), Requested(s.w, newRun, a, kind, now));
  }

  /** A request's end writes only its own run, which is then closed or left. */
  lemma AnswerKeepsRuns(s: State, t: TaskId, e: Ending, now: Time)
    requires RunsSound(s) && t in s.flights && s.flights[t].job.None?
    requires e.Returned? ==> e.status != Queued && e.status != Running
    ensures RunsSound(Answered(s, t, e, now))
  {
    var p := s.flights[t].phase;
    EndWorkWrites(s.w, p.run, p.account, p.kind, e, now);
    hide EndWork;
    var v := Answered(s, t, e, now);
    forall r | r in v.w.runs && v.w.runs[r].Open()
      ensures r in v.left || Held(v, r)
    {
      if r != p.run && r !in s.left {
        var u :| u in s.flights && Responsible(s.flights[u], r);
        assert Responsible(v.flights[u], r);
      }
    }
    hide Responsible;
    assert OwnRuns(v) && Tracked(v);
    assert LeftAlone(v);
    assert NotStarted(v);
    assert ClosedWell(v);
  }

  lemma DepartureKeeps(s: State, t: TaskId)
    requires Sound(s) && Possible(s, Leave(t))
    ensures Sound(Next(s, Leave(t)))
  {
    var v := Next(s, Leave(t));
    assert v.w.runs == s.w.runs && v.w.locks == s.w.locks;
    hide PersistNextRun;
    SameCollectors(s, v);
    hide OneCollector, Collecting;
    forall r | r in v.w.runs && v.w.runs[r].Open()
      ensures r in v.left || Held(v, r)
    {
      if r !in s.left {
        var u :| u in s.flights && Responsible(s.flights[u], r);
        assert Responsible(v.flights[u], r);
      }
    }
    hide Responsible;
    assert LeftAlone(v);
    assert OwnRuns(v) && Tracked(v);
    assert NotStarted(v);
    assert ClosedWell(v);
  }

  /** Other requests, maintenance and restarts. */
  lemma SurroundingsKeep(s: State, step: Step)
    requires Sound(s) && Possible(s, step) && (step.Outside? || step.Tidy? || step.Restart?)
    ensures Sound(Next(s, step))
  {
    if step.Restart? {
      RestartKeeps(s, step.fires, step.now);
    } else {
      var v := Next(s, step);
      assert v.flights == s.flights && v.w.runs.Keys == s.w.runs.Keys && v.w.locks == s.w.locks;
      if step.Tidy? {
        LapsedCloses(s.w.runs, step.now);
      }
      hide Lapsed, Next, Possible, RunsSound, OneCollector;
      ClosingKeeps(s, v);
      SameCollectors(s, v);
    }
  }

  lemma LapsedCloses(runs: map<RunId, Run>, now: Time)
    ensures forall r :: r in runs ==> Lapsed(runs, now)[r] == runs[r] || Closes(Lapsed(runs, now)[r])
  {
  }

  lemma RestartKeeps(s: State, fires: map<JobId, Time>, now: Time)
    requires Sound(s) && Possible(s, Restart(fires, now))
    ensures Sound(Next(s, Restart(fires, now)))
  {
    RecoveryClosesAll(s.w.runs, now);
    hide Recovered, Rescheduled;
    var v := Next(s, Restart(fires, now));
    assert v.flights == map[] && v.w.locks == {} && forall r :: r in v.w.runs ==> Closes(v.w.runs[r]);
    hide Next, Possible;
  }

  lemma ClosingKeeps(s: State, v: State)
    requires RunsSound(s) && v.flights == s.flights && v.left == s.left && v.w.runs.Keys == s.w.runs.Keys
    requires forall r :: r in v.w.runs ==> v.w.runs[r] == s.w.runs[r] || Closes(v.w.runs[r])
    ensures RunsSound(v)
  {
    forall r | r in v.w.runs && v.w.runs[r].Open()
      ensures r in v.left || Held(v, r)
    {
      assert s.w.runs[r].Open();
    }
    hide NoOrphans, Responsible;
  }

  lemma StepKeepsSound(s: State, step: Step)
    requires Sound(s) && Possible(s, step)
    ensures Sound(Next(s, step))
  {
    hide NoOrphans, LeftAlone, OwnRuns, NotStarted, ClosedWell, OneCollector, Next, Possible;
    match step
    case Begin(t, r, now) =>
      BeginKeepsLocks(s, t, r, now);
      BeginKeepsRuns(s, t, r, now);
    case End(t, e, now, later) =>
      EndKeepsLocks(s, t, e, now, later);
      EndKeepsRuns(s, t, e, now, later);
    case Fire(j, t) => FireKeeps(s, j, t);
    case Submit(j, t, r, now) => SubmitKeeps(s, j, t, r, now);
    case Leave(t) => DepartureKeeps(s, t);
    case Request(a, kind, t, r, now) => RequestKeeps(s, a, kind, t, r, now);
    case _ => SurroundingsKeep(s, step);
  }

  lemma BeginKeepsRuns(s: State, t: TaskId, newRun: RunId, now: Time)
    requires Sound(s) && Possible(s, Begin(t, newRun, now))
    ensures RunsSound(Next(s, Begin(t, newRun, now)))
  {
    var f := s.flights[t];
    BegunRuns(s.w, f, newRun, now);
    var (w, p) := Begun(s.w, f, newRun, now);
    hide Begun;
    if RunOf(p).Some? {
      TaskKeepsRuns(s, t, p, w, RunOf(p).value);
    } else {
      IdleTaskKeepsRuns(s, t, p, w);
    }
  }

  lemma IdleTaskKeepsRuns(s: State, t: TaskId, p: Phase, w: World)
    requires RunsSound(s) && t in s.flights && RunOf(s.flights[t].phase).None? && RunOf(p).None? && w.runs == s.w.runs
    requires s.flights[t].job.Some?
    ensures RunsSound(s.(w := w, flights := s.flights[t := s.flights[t].(phase := p)]))
  {
    var v := s.(w := w, flights := s.flights[t := s.flights[t].(phase := p)]);
    forall q | q in v.w.runs && v.w.runs[q].Open()
      ensures q in v.left || Held(v, q)
    {
      if q !in s.left {
        var u :| u in s.flights && Responsible(s.flights[u], q);
        assert Responsible(v.flights[u], q);
      }
    }
  }

  lemma EndKeepsRuns(s: State, t: TaskId, e: Ending, now: Time, later: Time)
    requires Sound(s) && Possible(s, End(t, e, now, later))
    ensures RunsSound(Next(s, End(t, e, now, later)))
  {
    var f := s.flights[t];
    if f.job.None? {
      AnswerKeepsRuns(s, t, e, now);
      return;
    }
    FinishedRuns(s.w, f, e, now, later);
    TaskKeepsRuns(s, t, Leaving(RunOf(f.phase)), Finished(s.w, f, e, now, later), RunOf(f.phase).value);
  }

  // ---------------------------------------------------------------- whole runs

  /** `s'` is where the steps lead from `s`. */
  ghost predicate Leads(s: State, steps: seq<Step>, s': State)
    decreases |steps|
  {
    if steps == [] then s' == s
    else Tracked(s) && Possible(s, steps[0]) && Leads(Next(s, steps[0]), steps[1..], s')
  }

  function Installed(): State {
    State(World(map[], map[], map[], map[], {}, {}), map[], {})
  }

  lemma {:induction false} LeadsKeepsSound(s: State, steps: seq<Step>, s': State)
    requires Sound(s) && Leads(s, steps, s')
    ensures Sound(s')
    decreases |steps|
  {
    hide NoOrphans, LeftAlone, OwnRuns, NotStarted, ClosedWell, OneCollector, Next, Possible;
    if steps != [] {
      StepKeepsSound(s, steps[0]);
      LeadsKeepsSound(Next(s, steps[0]), steps[1..], s');
    }
  }


  /** In every reachable state an open run is in the care of exactly one task that is still to close
      it, or was left by a request; a closed run has a finish time; when no task is in flight the
      only open runs are those requests left. */
  lemma NoRunIsAbandoned(steps: seq<Step>, s: State, r: RunId)
    requires Leads(Installed(), steps, s) && r in s.w.runs
    ensures s.w.runs[r].Open() <==> !Closes(s.w.runs[r])
    ensures s.w.runs[r].Open() ==> (r in s.left <==> !Held(s, r))
    ensures forall t, u ::
              t in s.flights && u in s.flights && Responsible(s.flights[t], r) && Responsible(s.flights[u], r) ==> t == u
    ensures s.flights == map[] && r !in s.left ==> Closes(s.w.runs[r])
  {
    LeadsKeepsSound(Installed(), steps, s);
  }

  /** A request leaves its run open exactly when it is cancelled or cannot store its end, unless
      maintenance has closed the run before. */
  lemma RequestLeavesRunIff(s: State, t: TaskId, e: Ending, now: Time, later: Time)
    requires Tracked(s) && Possible(s, End(t, e, now, later)) && s.flights[t].job.None?
    ensures var r := s.flights[t].phase.run; var v := Next(s, End(t, e, now, later));
            && r in v.w.runs && (v.w.runs[r].Open() <==> s.w.runs[r].Open() && (e.Cancelled? || e.Lost?))
            && (v.w.runs[r].Open() ==> r in v.left)
            && t !in v.flights
  {
  }

  /** A run that no task holds is never taken up again, and only maintenance, once it is six hours
      old, and a restart change it: they close it if it is open. */
  lemma UnheldRun(s: State, step: Step, r: RunId)
    requires Sound(s) && Possible(s, step) && r in s.w.runs
    requires forall t :: t in s.flights ==> RunOf(s.flights[t].phase) != Some(r)
    ensures var v := Next(s, step);
            && r in v.w.runs && (forall t :: t in v.flights ==> RunOf(v.flights[t].phase) != Some(r))
            && (step.Restart? || (step.Tidy? && s.w.runs[r].startedAt < step.now - 6 * HOUR) ==> Closes(v.w.runs[r]))
            && (!s.w.runs[r].Open() || !(step.Restart? || (step.Tidy? && s.w.runs[r].startedAt < step.now - 6 * HOUR)) ==>
                  v.w.runs[r] == s.w.runs[r])
  {
    hide NoOrphans, LeftAlone, OwnRuns, OneCollector;
    match step
    case Begin(t, q, now) =>
      BegunRuns(s.w, s.flights[t], q, now);
      hide Begun;
    case End(t, e, now, later) =>
      if s.flights[t].job.Some? {
        FinishedRuns(s.w, s.flights[t], e, now, later);
      } else {
        EndWorkWrites(s.w, s.flights[t].phase.run, s.flights[t].phase.account, s.flights[t].phase.kind, e, now);
      }
      hide Finished, EndWork, NotStarted;
    case _ =>
  }

  /** Every dispatch that ends has closed its run. Afterwards its job has an entry, with its time, exactly
      when it had one and is live, and its row says so; if its account is not active, none of the
      account's jobs has one. */
  lemma DepartureIsClean(steps: seq<Step>, s: State, t: TaskId)
    requires Leads(Installed(), steps, s) && Possible(s, Leave(t)) && Tracked(s)
    ensures var p, j := s.flights[t].phase, s.flights[t].job.value; var v := Next(s, Leave(t));
            && (p.closed.Some? ==> p.closed.value in v.w.runs && Closes(v.w.runs[p.closed.value]))
            && (j in v.w.runtime <==> j in s.w.runtime && Live(s.w, j))
            && (j in v.w.runtime ==> v.w.runtime[j] == s.w.runtime[j])
            && (j in s.w.jobs ==> j in v.w.jobs && v.w.jobs[j].nextRunAt == Get(v.w.runtime, j))
            && (j in s.w.jobs && s.w.jobs[j].account.Some? && !IsActive(s.w, s.w.jobs[j].account.value) ==>
                  forall i :: i in v.w.jobs && v.w.jobs[i].account == s.w.jobs[j].account ==> i !in v.w.runtime)
  {
    LeadsKeepsSound(Installed(), steps, s);
    EntryOnlyIfLive(s.w, s.flights[t].job.value);
    EntryIffLive(s.w, s.flights[t].job.value);
    hide PersistNextRun;
  }

  // ---------------------------------------------------------------- an expired login

  /** The account is not active and none of its jobs is enabled. */
  ghost predicate Fenced(w: World, a: AccountId) {
    !IsActive(w, a) && forall j :: j in w.jobs && w.jobs[j].account == Some(a) ==> !w.jobs[j].enabled
  }

  /** And none of its jobs has an entry. */
  ghost predicate Silent(w: World, a: AccountId) {
    Fenced(w, a) && forall j :: j in w.jobs && w.jobs[j].account == Some(a) ==> j !in w.runtime
  }

  lemma EndWorkFrame(w: World, r: RunId, b: AccountId, kind: JobKind, e: Ending, now: Time)
    requires r in w.runs
    ensures var v := EndWork(w, r, b, kind, e, now);
            && v.runtime == w.runtime
            && v.jobs == (if e.LoginExpired? then Disabling(w.jobs, b) else w.jobs)
            && v.accounts == (if e.LoginExpired? && b in w.accounts then w.accounts[b := w.accounts[b].(status := Expired)]
                              else w.accounts)
  {
    hide Disabling;
  }

  lemma FailureFrame(w: World, j: JobId, r: RunId, later: Time)
    ensures var v := Failure(w, j, Some(r), later);
            && v.jobs == w.jobs && v.accounts == w.accounts
            && v.runtime == if j in w.jobs && !w.jobs[j].enabled then w.runtime - {j} else w.runtime
  {
  }

  /** The work of a dispatch touches no job, account or entry, except that an expired login fences
      its account and a failure takes away the entry of its own job if that is disabled. */
  lemma WorkFrame(w: World, f: Flight, e: Ending, now: Time, later: Time)
    requires f.job.Some? && (f.phase.AtWork? || f.phase.Resending?) && RunOf(f.phase).value in w.runs
    ensures var v := Finished(w, f, e, now, later); var j := f.job.value;
            && v.runtime == (if !e.Returned? && !e.Cancelled? && j in v.jobs && !v.jobs[j].enabled then w.runtime - {j}
                             else w.runtime)
            && (if f.phase.AtWork? && e.LoginExpired?
                then v.jobs == Disabling(w.jobs, f.phase.account) && !IsActive(v, f.phase.account)
                else v.jobs == w.jobs)
            && (forall a :: IsActive(v, a) ==> IsActive(w, a))
  {
    hide EndWork, Failure, FinishQueued, Disabling;
    var r := RunOf(f.phase).value;
    var v := w;
    if f.phase.AtWork? {
      v := EndWork(w, r, f.phase.account, f.phase.kind, e, now);
      EndWorkFrame(w, r, f.phase.account, f.phase.kind, e, now);
    }
    if e.Returned? {
      FinishQueuedFrame(w, r, now);
    } else if e.Cancelled? {
      FailRunFrame(v, r, later);
    } else {
      FailureFrame(v, f.job.value, r, later);
    }
  }

  lemma FinishQueuedFrame(w: World, r: RunId, now: Time)
    ensures FinishQueued(w, Some(r), "", now) == w.(runs := FinishQueued(w, Some(r), "", now).runs)
  {
  }

  lemma FailRunFrame(w: World, r: RunId, now: Time)
    ensures Interruption(w, Some(r), now) == w.(runs := Interruption(w, Some(r), now).runs)
  {
  }

  /** Up to its first wait a dispatch touches no job or account, and no entry unless its account is
      busy and its own job disabled, which its checks exclude. */
  lemma BegunFrame(w: World, f: Flight, newRun: RunId, now: Time)
    requires f.job.Some? && f.phase.Submitted? && (f.phase.given.Some? ==> f.phase.given.value in w.runs)
    ensures var v := Begun(w, f, newRun, now).0;
            v.jobs == w.jobs && v.accounts == w.accounts && v.runtime == w.runtime
  {
  }

  /** The steps after which a fenced account's job no longer has its entry: a restart, the end of any
      dispatch of the account's jobs, and a failure of a dispatch of the job itself. */
  predicate Clears(s: State, step: Step, a: AccountId, j: JobId) {
    match step
    case Restart(_, _) => true
    case Leave(t) =>
      t in s.flights && s.flights[t].job.Some? && s.flights[t].job.value in s.w.jobs
      && s.w.jobs[s.flights[t].job.value].account == Some(a)
    case End(t, e, _, _) => t in s.flights && s.flights[t].job == Some(j) && !e.Returned? && !e.Cancelled?
    case _ => false
  }

  /** Only another request can lift a fence; and short of that, an entry a fenced account still has
      goes exactly when one of these steps takes it. */
  lemma FenceStays(s: State, step: Step, a: AccountId)
    requires Tracked(s) && Possible(s, step) && !step.Outside?
    requires Fenced(s.w, a)
    ensures Fenced(Next(s, step).w, a)
    ensures forall j :: j in s.w.jobs && s.w.jobs[j].account == Some(a) ==>
                          j in Next(s, step).w.jobs && Next(s, step).w.jobs[j].account == Some(a)
                          && (j in Next(s, step).w.runtime <==> j in s.w.runtime && !Clears(s, step, a, j))
    ensures Next(s, step).w.jobs.Keys == s.w.jobs.Keys
    ensures forall j :: j in s.w.jobs ==> Next(s, step).w.jobs[j].account == s.w.jobs[j].account
  {
    match step
    case Begin(t, r, now) =>
      BegunFrame(s.w, s.flights[t], r, now);
      hide Begun;
    case End(t, e, now, later) =>
      if s.flights[t].job.Some? {
        WorkKeepsFence(s.w, s.flights[t], e, now, later, a);
      } else {
        AnswerKeepsFence(s, t, e, now, a);
      }
      hide Finished, Answered;
    case Leave(t) =>
      PersistKeepsFence(s.w, s.flights[t].job.value, a);
      hide PersistNextRun;
    case _ =>
  }

  lemma WorkKeepsFence(w: World, f: Flight, e: Ending, now: Time, later: Time, a: AccountId)
    requires f.job.Some? && (f.phase.AtWork? || f.phase.Resending?) && RunOf(f.phase).value in w.runs
    requires Fenced(w, a)
    ensures var v := Finished(w, f, e, now, later);
            && Fenced(v, a) && v.jobs.Keys == w.jobs.Keys
            && (forall j :: j in w.jobs ==> v.jobs[j].account == w.jobs[j].account)
            && (forall j :: j in w.jobs && w.jobs[j].account == Some(a) ==>
                              (j in v.runtime <==> j in w.runtime && !(f.job == Some(j) && !e.Returned? && !e.Cancelled?)))
  {
    WorkFrame(w, f, e, now, later);
    hide Finished;
  }

  lemma AnswerKeepsFence(s: State, t: TaskId, e: Ending, now: Time, a: AccountId)
    requires Tracked(s) && t in s.flights && s.flights[t].job.None? && Fenced(s.w, a)
    ensures var v := Answered(s, t, e, now).w;
            && Fenced(v, a) && v.jobs.Keys == s.w.jobs.Keys && v.runtime == s.w.runtime
            && forall j :: j in s.w.jobs ==> v.jobs[j].account == s.w.jobs[j].account
  {
    EndWorkFrame(s.w, s.flights[t].phase.run, s.flights[t].phase.account, s.flights[t].phase.kind, e, now);
    hide EndWork;
  }

  lemma PersistKeepsFence(w: World, i: JobId, a: AccountId)
    requires Fenced(w, a)
    ensures var v := PersistNextRun(w, i);
            && Fenced(v, a) && v.jobs.Keys == w.jobs.Keys
            && (forall j :: j in w.jobs ==> v.jobs[j].account == w.jobs[j].account)
            && (forall j :: j in w.jobs && w.jobs[j].account == Some(a) ==>
                              (j in v.runtime <==> j in w.runtime && !(i in w.jobs && w.jobs[i].account == Some(a))))
  {
  }

  /** Some step of a run takes a job's entry. */
  ghost predicate ClearedOnTheWay(s: State, steps: seq<Step>, a: AccountId, j: JobId)
    decreases |steps|
  {
    && steps != [] && Tracked(s) && Possible(s, steps[0])
    && (Clears(s, steps[0], a, j) || ClearedOnTheWay(Next(s, steps[0]), steps[1..], a, j))
  }

  /** After an account is fenced, and as long as no other request changes it or its jobs, a job of it
      has an entry exactly when it had one then and no step has taken it since. */
  lemma {:induction false} EntryLeftIff(s: State, steps: seq<Step>, a: AccountId, j: JobId, s': State)
    requires Leads(s, steps, s') && forall i :: 0 <= i < |steps| ==> !steps[i].Outside?
    requires Fenced(s.w, a) && j in s.w.jobs && s.w.jobs[j].account == Some(a)
    ensures Fenced(s'.w, a) && j in s'.w.jobs && s'.w.jobs[j].account == Some(a)
    ensures j in s'.w.runtime <==> j in s.w.runtime && !ClearedOnTheWay(s, steps, a, j)
    decreases |steps|
  {
    hide Fenced, Next, Possible, Clears;
    if steps != [] {
      FenceStays(s, steps[0], a);
      EntryLeftIff(Next(s, steps[0]), steps[1..], a, j, s');
    }
  }

  // ---------------------------------------------------------------- live jobs

  /** A handler finds the login of the job's account expired. */
  predicate Expires(s: State, step: Step, j: JobId) {
    step.End? && step.ending.LoginExpired? && step.task in s.flights && s.flights[step.task].phase.AtWork?
    && j in s.w.jobs && s.w.jobs[j].account == Some(s.flights[step.task].phase.account)
  }

  /** A live job with an entry stays live unless its account's login is found expired, and it keeps its
      entry, which only a restart gives another time. */
  lemma StepKeepsEntry(s: State, step: Step, j: JobId)
    requires Tracked(s) && Possible(s, step) && !step.Outside? && Live(s.w, j) && j in s.w.runtime
    ensures var v := Next(s, step).w;
            && (Live(v, j) <==> !Expires(s, step, j))
            && (Live(v, j) ==>
                  && j in v.runtime
                  && v.runtime[j] == if step.Restart? then step.fires[j] else s.w.runtime[j])
  {
    match step
    case Begin(t, r, now) =>
      BegunFrame(s.w, s.flights[t], r, now);
      hide Begun;
    case End(t, e, now, later) =>
      if s.flights[t].job.Some? {
        WorkKeepsLive(s.w, s.flights[t], e, now, later, j);
      } else {
        AnswerKeepsLive(s, t, e, now, j);
      }
      hide Finished, Answered;
    case Leave(t) =>
      LeavingKeepsLive(s.w, s.flights[t].job.value, j);
      hide PersistNextRun;
    case _ =>
  }

  lemma WorkKeepsLive(w: World, f: Flight, e: Ending, now: Time, later: Time, j: JobId)
    requires f.job.Some? && (f.phase.AtWork? || f.phase.Resending?) && RunOf(f.phase).value in w.runs
    requires Live(w, j) && j in w.runtime
    ensures var v := Finished(w, f, e, now, later);
            && (Live(v, j) <==> !(e.LoginExpired? && f.phase.AtWork? && w.jobs[j].account == Some(f.phase.account)))
            && (Live(v, j) ==> j in v.runtime && v.runtime[j] == w.runtime[j])
  {
    WorkFrame(w, f, e, now, later);
    WorkAccounts(w, f, e, now, later);
    hide Finished;
  }

  lemma WorkAccounts(w: World, f: Flight, e: Ending, now: Time, later: Time)
    requires f.job.Some? && (f.phase.AtWork? || f.phase.Resending?) && RunOf(f.phase).value in w.runs
    ensures forall a :: (f.phase.AtWork? && e.LoginExpired? ==> a != f.phase.account) ==>
                          Get(Finished(w, f, e, now, later).accounts, a) == Get(w.accounts, a)
  {
    hide EndWork, Failure, FinishQueued, Disabling;
    var r := RunOf(f.phase).value;
    var v := w;
    if f.phase.AtWork? {
      v := EndWork(w, r, f.phase.account, f.phase.kind, e, now);
      EndWorkFrame(w, r, f.phase.account, f.phase.kind, e, now);
    }
    if e.Returned? {
      FinishQueuedFrame(w, r, now);
    } else if e.Cancelled? {
      FailRunFrame(v, r, later);
    } else {
      FailureFrame(v, f.job.value, r, later);
    }
  }

  lemma AnswerKeepsLive(s: State, t: TaskId, e: Ending, now: Time, j: JobId)
    requires Tracked(s) && t in s.flights && s.flights[t].job.None? && Live(s.w, j) && j in s.w.runtime
    ensures var v := Answered(s, t, e, now).w; var p := s.flights[t].phase;
            && (Live(v, j) <==> !(e.LoginExpired? && s.w.jobs[j].account == Some(p.account)))
            && v.runtime == s.w.runtime
  {
    EndWorkFrame(s.w, s.flights[t].phase.run, s.flights[t].phase.account, s.flights[t].phase.kind, e, now);
    hide EndWork;
  }

  lemma LeavingKeepsLive(w: World, i: JobId, j: JobId)
    requires Live(w, j) && j in w.runtime
    ensures var v := PersistNextRun(w, i);
            Live(v, j) && j in v.runtime && v.runtime[j] == w.runtime[j]
  {
    EntryIffLive(w, i);
    if i != j {
      OtherJobStays(w, i, j);
    }
  }

  lemma OtherJobStays(w: World, i: JobId, j: JobId)
    requires i != j && Live(w, j)
    ensures var v := PersistNextRun(w, i);
            v.accounts == w.accounts && Get(v.runtime, j) == Get(w.runtime, j) && Get(v.jobs, j) == Get(w.jobs, j)
  {
    PersistFrame(w, i, j);
  }

  /** No step of a run is another request's, or finds the login of the job's account expired. */
  ghost predicate Undisturbed(s: State, steps: seq<Step>, j: JobId)
    decreases |steps|
  {
    steps == []
    || (&& Tracked(s) && Possible(s, steps[0]) && !steps[0].Outside? && !Expires(s, steps[0], j)
        && Undisturbed(Next(s, steps[0]), steps[1..], j))
  }

  /** When a job fires next after some steps: a restart sets it anew. */
  function FiresAt(at: Time, steps: seq<Step>, j: JobId): Time {
    if steps == [] then at
    else
      var last := steps[|steps| - 1];
      if last.Restart? && j in last.fires then last.fires[j] else FiresAt(at, steps[..|steps| - 1], j)
  }

  lemma {:induction false} FiresAtFirst(at: Time, steps: seq<Step>, j: JobId)
    requires steps != []
    ensures FiresAt(at, steps, j) == FiresAt(FiresAt(at, steps[..1], j), steps[1..], j)
  {
    var n := |steps| - 1;
    if n > 0 {
      FiresAtFirst(at, steps[..n], j);
      assert steps[..n][..1] == steps[..1] && steps[..n][1..] == steps[1..][..n - 1];
      assert steps[1..][n - 1] == steps[n];
    } else {
      assert steps[..1] == steps && steps[1..] == [];
    }
  }

  /** So whatever dispatches, requests, maintenance and restarts do, a live job goes on being run. */
  lemma {:induction false} LiveJobKeepsEntry(s: State, steps: seq<Step>, j: JobId, s': State)
    requires Leads(s, steps, s') && Undisturbed(s, steps, j) && Live(s.w, j) && j in s.w.runtime
    ensures Live(s'.w, j) && j in s'.w.runtime && s'.w.runtime[j] == FiresAt(s.w.runtime[j], steps, j)
    decreases |steps|
  {
    hide Live, Next, Expires;
    if steps != [] {
      StepKeepsEntry(s, steps[0], j);
      FiresAtFirst(s.w.runtime[j], steps, j);
      RestartFires(s, steps[0], j);
      assert steps[..1][..0] == [];
      LiveJobKeepsEntry(Next(s, steps[0]), steps[1..], j, s');
    }
  }

  lemma RestartFires(s: State, step: Step, j: JobId)
    requires Possible(s, step) && Live(s.w, j)
    ensures step.Restart? ==> j in step.fires
  {
  }

  /** A handler that finds the login expired fences the account, in a dispatch or in a request. */
  lemma ExpiryFences(s: State, t: TaskId, now: Time, later: Time)
    requires Tracked(s) && Possible(s, End(t, LoginExpired, now, later)) && s.flights[t].phase.AtWork?
    ensures Fenced(Next(s, End(t, LoginExpired, now, later)).w, s.flights[t].phase.account)
  {
    if s.flights[t].job.Some? {
      WorkFrame(s.w, s.flights[t], LoginExpired, now, later);
    }
    hide Finished;
  }

  /** Found by a dispatch, the expiry has cleared the account once that dispatch leaves. Found by a
      request, it takes no entry: the account is then clear exactly when none of its jobs had one. */
  lemma ExpiryClearsIff(s: State, t: TaskId, now: Time, later: Time)
    requires Tracked(s) && Possible(s, End(t, LoginExpired, now, later)) && s.flights[t].phase.AtWork?
    ensures var v := Next(s, End(t, LoginExpired, now, later)); var a := s.flights[t].phase.account;
            && (s.flights[t].job.None? ==>
                  && v.w.runtime == s.w.runtime
                  && (Silent(v.w, a) <==> forall j :: j in s.w.jobs && s.w.jobs[j].account == Some(a) ==> j !in s.w.runtime))
            && (s.flights[t].job.Some? && s.flights[t].job.value in s.w.jobs
                && s.w.jobs[s.flights[t].job.value].account == Some(a) ==>
                  Tracked(v) && Possible(v, Leave(t)) && Silent(Next(v, Leave(t)).w, a))
  {
    var f := s.flights[t];
    var a := f.phase.account;
    var v := Next(s, End(t, LoginExpired, now, later));
    if f.job.None? {
      EndWorkFrame(s.w, f.phase.run, a, f.phase.kind, LoginExpired, now);
      hide EndWork;
    } else if f.job.value in s.w.jobs && s.w.jobs[f.job.value].account == Some(a) {
      ExpiryFences(s, t, now, later);
      WorkFrame(s.w, f, LoginExpired, now, later);
      TrackedAfterEnd(s, t, LoginExpired, now, later);
      hide Finished, Next;
      LeavingSilences(v, t, a);
    }
  }

  lemma TrackedAfterEnd(s: State, t: TaskId, e: Ending, now: Time, later: Time)
    requires Tracked(s) && Possible(s, End(t, e, now, later)) && s.flights[t].job.Some?
    ensures var v := Next(s, End(t, e, now, later));
            && Tracked(v) && t in v.flights && v.flights[t] == s.flights[t].(phase := Leaving(RunOf(s.flights[t].phase)))
            && v.w == Finished(s.w, s.flights[t], e, now, later)
  {
    FinishedKeys(s.w, s.flights[t], e, now, later);
    hide Finished;
  }

  lemma FinishedKeys(w: World, f: Flight, e: Ending, now: Time, later: Time)
    requires f.job.Some? && (f.phase.AtWork? || f.phase.Resending?) && RunOf(f.phase).value in w.runs
    ensures Finished(w, f, e, now, later).runs.Keys == w.runs.Keys
  {
    hide Disabling;
  }

  /** The end of any dispatch of a fenced account's jobs clears the account. */
  lemma LeavingSilences(s: State, t: TaskId, a: AccountId)
    requires Tracked(s) && Possible(s, Leave(t)) && Fenced(s.w, a)
    requires s.flights[t].job.value in s.w.jobs && s.w.jobs[s.flights[t].job.value].account == Some(a)
    ensures Silent(Next(s, Leave(t)).w, a)
  {
    FenceStays(s, Leave(t), a);
    hide Next;
    forall j | j in Next(s, Leave(t)).w.jobs && Next(s, Leave(t)).w.jobs[j].account == Some(a)
      ensures j !in Next(s, Leave(t)).w.runtime
    {
      assert j in s.w.jobs && Clears(s, Leave(t), a, j);
    }
  }

  lemma {:induction false} SilenceStays(s: State, steps: seq<Step>, a: AccountId, s': State)
    requires Leads(s, steps, s') && forall i :: 0 <= i < |steps| ==> !steps[i].Outside?
    ensures Fenced(s.w, a) ==> Fenced(s'.w, a)
    ensures Silent(s.w, a) ==> Silent(s'.w, a)
    decreases |steps|
  {
    if steps != [] && Fenced(s.w, a) {
      FenceStays(s, steps[0], a);
      assert Silent(s.w, a) ==> Silent(Next(s, steps[0]).w, a);
      hide Fenced, Silent, Next, Possible;
      SilenceStays(Next(s, steps[0]), steps[1..], a, s');
    }
  }

  /** When a handler finds the login expired, in a dispatch or in a request, then once any dispatch of
      any of the account's jobs has ended no job of it is enabled or has an entry, and so it stays,
      restarts included, until a request from outside changes the account or its jobs. */
  lemma ExpirySilencesAccount(s: State, t: TaskId, now: Time, later: Time, before: seq<Step>, u: State, q: TaskId,
                              after: seq<Step>, s': State)
    requires t in s.flights && s.flights[t].phase.AtWork?
    requires q in u.flights && u.flights[q].job.Some? && u.flights[q].job.value in u.w.jobs
    requires u.w.jobs[u.flights[q].job.value].account == Some(s.flights[t].phase.account)
    requires Tracked(s) && Possible(s, End(t, LoginExpired, now, later))
    requires Leads(Next(s, End(t, LoginExpired, now, later)), before, u)
    requires Tracked(u) && Possible(u, Leave(q))
    requires Leads(Next(u, Leave(q)), after, s')
    requires forall i :: 0 <= i < |before| ==> !before[i].Outside?
    requires forall i :: 0 <= i < |after| ==> !after[i].Outside?
    ensures Silent(s'.w, s.flights[t].phase.account)
  {
    hide *;
    var a := s.flights[t].phase.account;
    ExpiryFences(s, t, now, later);
    SilenceStays(Next(s, End(t, LoginExpired, now, later)), before, a, u);
    LeavingSilences(u, q, a);
    SilenceStays(Next(u, Leave(q)), after, a, s');
  }

  // ---------------------------------------------------------------- collections, restarts

  /** Two collections, by dispatches or requests, never work on one account at a time. */
  lemma CollectionsExclude(steps: seq<Step>, s: State, t: TaskId, u: TaskId, a: AccountId)
    requires Leads(Installed(), steps, s)
    requires t in s.flights && u in s.flights && Collecting(s.flights[t], a) && Collecting(s.flights[u], a)
    ensures t == u
  {
    LeadsKeepsSound(Installed(), steps, s);
  }

  /** A restart leaves no run open, whatever was in flight and whatever requests left, and its entries
      are the enabled jobs. */
  lemma RestartClosesEverything(steps: seq<Step>, s: State, fires: map<JobId, Time>, now: Time)
    requires Leads(Installed(), steps, s) && Possible(s, Restart(fires, now)) && Tracked(s)
    ensures var v := Next(s, Restart(fires, now));
            && v.w.runs.Keys == s.w.runs.Keys && (forall r :: r in v.w.runs ==> Closes(v.w.runs[r]))
            && (forall j :: j in v.w.runtime <==> j in v.w.jobs && v.w.jobs[j].enabled)
  {
    LeadsKeepsSound(Installed(), steps, s);
    SurroundingsKeep(s, Restart(fires, now));
    RecoveryClosesAll(s.w.runs, now);
  }
}
