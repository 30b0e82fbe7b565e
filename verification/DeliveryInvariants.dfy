/** What every reachable state of the dispatch protocol satisfies, and why each action keeps it. */
module DeliveryInvariants {
  import opened Prelude
  import opened Outbox
  import opened EventTable
  import EventStore
  import opened Lifecycles
  import opened Jobs
  import opened JobQueue
  import opened JobInvariants
  import opened JobTheorems
  import opened JobWorker
  import opened Dispatches
  import opened Origins
  import opened Delivery

  // -------------------------------------------------------------- invariant

  ghost predicate OriginInv(log: seq<Stored<OriginEvent>>) {
    Dense(log) && !OriginFold(Events(log)).Failed?
  }

  /** What was loaded is a prefix of what is there now. */
  ghost predicate LoadedInv(log: seq<Stored<OriginEvent>>, base: nat, state: OriginLifecycle) {
    base <= |log| && state == OriginFold(Events(log)[..base])
  }

  ghost predicate DispatchedOn(events: seq<DispatchEvent>, jobId: JobId) {
    exists i :: 0 <= i < |events| && events[i].JobDispatched? && events[i].jobId == jobId
  }

  /** An outcome of a dispatched job that claims the origin was told. */
  ghost predicate ToldBefore(events: seq<DispatchEvent>, jobId: JobId, outcome: JobEvent) {
    && (outcome.Succeeded? ==> ConfirmedOn(events, jobId))
    && (outcome.Dead? && outcome.reason == Rejected ==> FailedOn(events, jobId))
  }

  ghost predicate JobTold(r: JobRecord, events: seq<DispatchEvent>, jobId: JobId) {
    && (forall s :: s in r.settling ==> ToldBefore(events, jobId, Outcome(s.command)))
    && (forall i :: 0 <= i < |r.log| ==> ToldBefore(events, jobId, r.log[i].event))
  }

  /** Submit is called first only on a first execution, and otherwise right after a `NotSubmitted`. */
  ghost predicate CallsInv(h: Handle, calls: seq<Call>) {
    forall i :: 0 <= i < |calls| && calls[i].SubmitCalled? ==> SubmitAllowed(h, calls, i)
  }

  ghost predicate SubmitAllowed(h: Handle, calls: seq<Call>, i: nat)
    requires i < |calls|
  {
    if i == 0 then IsFirstExecution(h) else calls[i - 1] == ReconcileAnswered(NotSubmitted)
  }

  /** The answer a verdict was derived from is the last thing its execution heard. */
  ghost predicate Heard(calls: seq<Call>, verdict: Verdict) {
    && |calls| > 0
    && match verdict
       case Confirm(success) =>
         || calls[|calls| - 1] == SubmitAnswered(SubmitDone(success.output))
         || calls[|calls| - 1] == ReconcileAnswered(AlreadySettled(success.output))
       case Fail(defeat) =>
         match defeat.failure
         case DomainRejected(error) =>
           || calls[|calls| - 1] == SubmitAnswered(SubmitTerminal(error))
           || calls[|calls| - 1] == ReconcileAnswered(ReconcileTerminal(error))
         case DeadLettered(reason, detail) =>
           && reason == RetriesExhausted &&
           (|| calls[|calls| - 1] == SubmitAnswered(SubmitTransient(detail))
            || calls[|calls| - 1] == ReconcileAnswered(ReconcileTransient(detail)))
  }

  ghost predicate PhaseInv(log: seq<Stored<OriginEvent>>, job: JobId, x: Exec) {
    match x.phase
    case Delivering(verdict, result, loaded) =>
      && x.verdict == Some(verdict) && VerdictJob(verdict) == job
      && (result.Finished? ==> verdict.Confirm?) && (result.Terminal? ==> verdict.Fail?)
      && (loaded.Some? ==> LoadedInv(log, loaded.value.base, loaded.value.state))
    case Ended(outcome) =>
      && (outcome.Finished? ==> ConfirmedOn(JobsOn(log), job))
      && (outcome.Terminal? ==> FailedOn(JobsOn(log), job))
    case _ => true
  }

  ghost predicate CallHistoryInv(job: JobId, x: Exec) {
    && CallsInv(x.handle, x.calls) && |x.calls| > 0
    && x.calls[0] == (if IsFirstExecution(x.handle) then SubmitCalled else ReconcileCalled)
    && (x.phase.Submitting? || x.phase.Reconciling? ==> x.verdict.None?)
    && (x.verdict.Some? ==>
          && VerdictJob(x.verdict.value) == job && VerdictAttempts(x.verdict.value) == x.handle.attempt + 1
          && Heard(x.calls, x.verdict.value))
  }

  ghost predicate ExecInv(won: set<Handle>, log: seq<Stored<OriginEvent>>, key: Key, x: Exec) {
    && x.handle in won && x.handle.claimSeq == key.claimSeq
    && CallHistoryInv(key.job, x)
    && PhaseInv(log, key.job, x)
  }

  /** A verdict on an origin's stream was obtained by an execution of that very job. */
  ghost predicate Obtained(execs: map<Key, Exec>, event: DispatchEvent) {
    match event
    case JobDispatched(_, _) => true
    case JobConfirmed(success) => exists key :: key in execs && key.job == success.jobId && execs[key].verdict == Some(Confirm(success))
    case JobFailed(defeat) => exists key :: key in execs && key.job == defeat.jobId && execs[key].verdict == Some(Fail(defeat))
  }

  ghost predicate Homed(home: map<JobId, OriginId>, origin: OriginId, event: DispatchEvent) {
    event.JobDispatched? ==> event.jobId in home && home[event.jobId] == origin
  }

  /** Where an event on an origin's stream comes from. */
  ghost predicate Explained(execs: map<Key, Exec>, home: map<JobId, OriginId>, origin: OriginId, event: OriginEvent) {
    event.OfJob? ==> Obtained(execs, event.dispatch) && Homed(home, origin, event.dispatch)
  }

  ghost predicate OriginsInv(origins: Streams, home: map<JobId, OriginId>, execs: map<Key, Exec>) {
    && (forall o :: o in origins ==> OriginInv(origins[o]))
    && (forall o, i :: o in origins && 0 <= i < |origins[o]| ==> Explained(execs, home, o, origins[o][i].event))
  }

  ghost predicate HomesInv(jobs: map<JobId, JobRecord>, origins: Streams, home: map<JobId, OriginId>) {
    forall job :: job in home ==>
      && job in jobs
      && DispatchedOn(EventsOf(origins, home[job]), job)
      && JobTold(jobs[job], EventsOf(origins, home[job]), job)
  }

  ghost predicate ExecsInv(jobs: map<JobId, JobRecord>, origins: Streams, home: map<JobId, OriginId>, execs: map<Key, Exec>) {
    forall key :: key in execs ==>
      && key.job in home && key.job in jobs
      && ExecInv(jobs[key.job].won, LogOf(origins, home[key.job]), key, execs[key])
  }

  ghost predicate SendsInv(origins: Streams, sends: set<Send>) {
    forall send :: send in sends ==> LoadedInv(LogOf(origins, send.origin), send.base, send.state)
  }

  ghost predicate WorldInv(w: World) {
    && OriginsInv(w.origins, w.home, w.execs)
    && HomesInv(w.queue.jobs, w.origins, w.home)
    && ExecsInv(w.queue.jobs, w.origins, w.home, w.execs)
    && SendsInv(w.origins, w.sends)
  }

  // ---------------------------------------------------------- growing streams

  lemma VerdictsStayRecorded(events: seq<DispatchEvent>, event: DispatchEvent, jobId: JobId)
    ensures ConfirmedOn(events, jobId) ==> ConfirmedOn(events + [event], jobId)
    ensures FailedOn(events, jobId) ==> FailedOn(events + [event], jobId)
    ensures DispatchedOn(events, jobId) ==> DispatchedOn(events + [event], jobId)
  {
    var grown := events + [event];
    assert forall i :: 0 <= i < |events| ==> grown[i] == events[i];
  }

  /** The dispatch events of a stream after one more event of any kind. */
  function WithEvent(events: seq<DispatchEvent>, event: OriginEvent): seq<DispatchEvent> {
    if event.OfJob? then events + [event.dispatch] else events
  }

  lemma JobsOnGrown(log: seq<Stored<OriginEvent>>, row: Stored<OriginEvent>)
    ensures JobsOn(log + [row]) == WithEvent(JobsOn(log), row.event)
  {
    assert Events(log + [row]) == Events(log) + [row.event];
    JobEventsSnoc(Events(log), row.event);
  }

  lemma VerdictsStay(events: seq<DispatchEvent>, event: OriginEvent, jobId: JobId)
    ensures ConfirmedOn(events, jobId) ==> ConfirmedOn(WithEvent(events, event), jobId)
    ensures FailedOn(events, jobId) ==> FailedOn(WithEvent(events, event), jobId)
    ensures DispatchedOn(events, jobId) ==> DispatchedOn(WithEvent(events, event), jobId)
  {
    if event.OfJob? {
      VerdictsStayRecorded(events, event.dispatch, jobId);
    }
  }

  lemma ToldStaysTold(r: JobRecord, events: seq<DispatchEvent>, event: OriginEvent, jobId: JobId)
    requires JobTold(r, events, jobId)
    ensures JobTold(r, WithEvent(events, event), jobId)
  {
    VerdictsStay(events, event, jobId);
  }

  lemma LoadedStaysLoaded(log: seq<Stored<OriginEvent>>, row: Stored<OriginEvent>, base: nat, state: OriginLifecycle)
    requires LoadedInv(log, base, state)
    ensures LoadedInv(log + [row], base, state)
  {
    assert Events(log + [row])[..base] == Events(log)[..base];
  }

  // ------------------------------------------------------------- queue steps

  lemma WonOnlyGrows(r: JobRecord, running: bool, minted: set<ClaimId>, a: JobQueue.Action)
    ensures r.won <= JobNext(r, running, minted, a).won
  {
  }

  /** No queue step records an outcome whose verdict the origin has not been told. */
  lemma {:induction false} QueueStepKeepsTold(s: System, a: JobQueue.Action, j: JobId, events: seq<DispatchEvent>)
    requires Inv(s) && j in s.jobs && JobTold(s.jobs[j], events, j)
    requires a.LoadJob? && a.job == j ==> ToldBefore(events, j, Outcome(a.command))
    ensures j in JobQueue.Next(s, a).jobs
    ensures JobTold(JobQueue.Next(s, a).jobs[j], events, j)
    ensures s.jobs[j].won <= JobQueue.Next(s, a).jobs[j].won
  {
    StepGrowsLogByAtMostOne(s, a, j);
    RecordStepGrows(s, a, j);
    GrownLogIsTold(s.jobs[j], a, JobQueue.Next(s, a).jobs[j], events, j);
  }

  /** Growing by one told event, with settlements from loads alone, keeps everything told. */
  lemma {:induction false} GrownLogIsTold(r: JobRecord, a: JobQueue.Action, t: JobRecord, events: seq<DispatchEvent>, j: JobId)
    requires JobTold(r, events, j)
    requires t.log == r.log || exists event :: AppendedBy(r, a, event) && t.log == r.log + [Stored(|r.log| + 1, event)]
    requires forall m :: m in t.settling ==> m in r.settling || (a.LoadJob? && a.job == j && m.command == a.command)
    requires a.LoadJob? && a.job == j ==> ToldBefore(events, j, Outcome(a.command))
    ensures JobTold(t, events, j)
  {
    if t.log != r.log {
      var event :| AppendedBy(r, a, event) && t.log == r.log + [Stored(|r.log| + 1, event)];
      AppendedIsTold(r, a, event, events, j);
    }
  }

  lemma AppendedIsTold(r: JobRecord, a: JobQueue.Action, event: JobEvent, events: seq<DispatchEvent>, j: JobId)
    requires JobTold(r, events, j) && AppendedBy(r, a, event)
    ensures ToldBefore(events, j, event)
  {
  }

  /** Won claims stay won, and settlements come only from loads. */
  lemma RecordStepGrows(s: System, a: JobQueue.Action, j: JobId)
    requires j in s.jobs
    ensures j in JobQueue.Next(s, a).jobs
    ensures s.jobs[j].won <= JobQueue.Next(s, a).jobs[j].won
    ensures forall m :: m in JobQueue.Next(s, a).jobs[j].settling ==>
              m in s.jobs[j].settling || (a.LoadJob? && a.job == j && m.command == a.command)
  {
    NextAt(s, a, j);
    WonOnlyGrows(s.jobs[j], s.running, s.minted, a);
    SettlementsComeFromLoads(s.jobs[j], s.running, s.minted, a);
  }

  lemma {:induction false} QueueStepKeepsHomes(s: System, a: JobQueue.Action, origins: Streams, home: map<JobId, OriginId>)
    requires Inv(s) && HomesInv(s.jobs, origins, home)
    requires a.LoadJob? && a.job in home ==> ToldBefore(EventsOf(origins, home[a.job]), a.job, Outcome(a.command))
    ensures HomesInv(JobQueue.Next(s, a).jobs, origins, home)
    ensures forall job :: job in home ==> s.jobs[job].won <= JobQueue.Next(s, a).jobs[job].won
  {
    var q := JobQueue.Next(s, a);
    forall job | job in home
      ensures job in q.jobs && s.jobs[job].won <= q.jobs[job].won
      ensures JobTold(q.jobs[job], EventsOf(origins, home[job]), job)
    {
      QueueStepKeepsTold(s, a, job, EventsOf(origins, home[job]));
    }
  }

  lemma ExecsFollowTheQueue(jobs: map<JobId, JobRecord>, later: map<JobId, JobRecord>, origins: Streams, home: map<JobId, OriginId>, execs: map<Key, Exec>)
    requires ExecsInv(jobs, origins, home, execs)
    requires forall job :: job in home ==> job in jobs && job in later && jobs[job].won <= later[job].won
    ensures ExecsInv(later, origins, home, execs)
  {
  }

  lemma {:induction false} QueueStepKeepsWorld(w: World, a: JobQueue.Action)
    requires Inv(w.queue) && WorldInv(w)
    requires a.LoadJob? && a.job in w.home ==> ToldBefore(EventsOf(w.origins, w.home[a.job]), a.job, Outcome(a.command))
    ensures WorldInv(w.(queue := JobQueue.Next(w.queue, a)))
  {
    QueueStepKeepsHomes(w.queue, a, w.origins, w.home);
    ExecsFollowTheQueue(w.queue.jobs, JobQueue.Next(w.queue, a).jobs, w.origins, w.home, w.execs);
  }

  // --------------------------------------------------------- execution steps

  /** Executions keep the verdicts they obtained. */
  ghost predicate VerdictsKept(before: map<Key, Exec>, later: map<Key, Exec>) {
    forall key :: key in before && before[key].verdict.Some? ==> key in later && later[key].verdict == before[key].verdict
  }

  lemma ObtainedByTheSame(before: map<Key, Exec>, later: map<Key, Exec>, event: DispatchEvent)
    requires Obtained(before, event) && VerdictsKept(before, later)
    ensures Obtained(later, event)
  {
    match event
    case JobDispatched(_, _) =>
    case JobConfirmed(success) =>
      var key :| key in before && key.job == success.jobId && before[key].verdict == Some(Confirm(success));
      assert later[key].verdict == Some(Confirm(success));
    case JobFailed(defeat) =>
      var key :| key in before && key.job == defeat.jobId && before[key].verdict == Some(Fail(defeat));
      assert later[key].verdict == Some(Fail(defeat));
  }

  lemma OriginsFollowExecs(origins: Streams, home: map<JobId, OriginId>, before: map<Key, Exec>, later: map<Key, Exec>)
    requires OriginsInv(origins, home, before) && VerdictsKept(before, later)
    ensures OriginsInv(origins, home, later)
  {
    forall o, i | o in origins && 0 <= i < |origins[o]| ensures Explained(later, home, o, origins[o][i].event) {
      assert Explained(before, home, o, origins[o][i].event);
      if origins[o][i].event.OfJob? {
        ObtainedByTheSame(before, later, origins[o][i].event.dispatch);
      }
    }
  }

  lemma {:induction false} ExecStepKeepsWorld(w: World, key: Key, x: Exec)
    requires WorldInv(w) && key.job in w.home && key.job in w.queue.jobs
    requires ExecInv(w.queue.jobs[key.job].won, LogOf(w.origins, w.home[key.job]), key, x)
    requires key in w.execs && w.execs[key].verdict.Some? ==> x.verdict == w.execs[key].verdict
    ensures WorldInv(w.(execs := w.execs[key := x]))
  {
    OriginsFollowExecs(w.origins, w.home, w.execs, w.execs[key := x]);
    ExecsMayChangeOne(w.queue.jobs, w.origins, w.home, w.execs, key, x);
  }

  lemma ExecsMayChangeOne(jobs: map<JobId, JobRecord>, origins: Streams, home: map<JobId, OriginId>, execs: map<Key, Exec>, key: Key, x: Exec)
    requires ExecsInv(jobs, origins, home, execs) && key.job in home && key.job in jobs
    requires ExecInv(jobs[key.job].won, LogOf(origins, home[key.job]), key, x)
    ensures ExecsInv(jobs, origins, home, execs[key := x])
  {
  }

  lemma CallsGrow(h: Handle, calls: seq<Call>, call: Call)
    requires CallsInv(h, calls) && |calls| > 0
    requires call.SubmitCalled? ==> calls[|calls| - 1] == ReconcileAnswered(NotSubmitted)
    ensures CallsInv(h, calls + [call])
  {
    var grown := calls + [call];
    assert forall i :: 0 <= i < |calls| ==> grown[i] == calls[i];
    forall i | 0 <= i < |grown| && grown[i].SubmitCalled? ensures SubmitAllowed(h, grown, i) {
      if i < |calls| {
        assert SubmitAllowed(h, calls, i);
      }
    }
  }

  /** The answer in the form of the failure or output it reports, whichever call gave it. */
  ghost predicate Answers(calls: seq<Call>, job: JobId, outcome: SubmitAnswer) {
    match outcome
    case SubmitDone(output) => Heard(calls, Confirm(Success(job, output, 0)))
    case SubmitTerminal(error) => Heard(calls, Fail(Defeat(job, DomainRejected(error), 0)))
    case SubmitTransient(error) => Heard(calls, Fail(Defeat(job, DeadLettered(RetriesExhausted, error), 0)))
    case SubmitDefer(_) => true
  }

  lemma ConcludedKeepsInv(
    c: Config, won: set<Handle>, log: seq<Stored<OriginEvent>>, key: Key, x: Exec, outcome: SubmitAnswer)
    requires x.handle in won && x.handle.claimSeq == key.claimSeq
    requires CallHistoryInv(key.job, x.(phase := Submitting)) && Answers(x.calls, key.job, outcome)
    ensures ExecInv(won, log, key, Concluded(c, key.job, x, outcome))
  {
  }

  lemma AfterSubmitKeepsInv(
    c: Config, won: set<Handle>, log: seq<Stored<OriginEvent>>, key: Key, x: Exec, answer: SubmitAnswer)
    requires ExecInv(won, log, key, x) && x.phase.Submitting?
    ensures ExecInv(won, log, key, AfterSubmit(c, key.job, x, answer))
  {
    CallsGrow(x.handle, x.calls, SubmitAnswered(answer));
    ConcludedKeepsInv(c, won, log, key, x.(calls := x.calls + [SubmitAnswered(answer)]), answer);
  }

  lemma AfterReconcileKeepsInv(
    c: Config, won: set<Handle>, log: seq<Stored<OriginEvent>>, key: Key, x: Exec, answer: ReconcileAnswer)
    requires ExecInv(won, log, key, x) && x.phase.Reconciling?
    ensures ExecInv(won, log, key, AfterReconcile(c, key.job, x, answer))
  {
    CallsGrow(x.handle, x.calls, ReconcileAnswered(answer));
    var y := x.(calls := x.calls + [ReconcileAnswered(answer)]);
    match answer {
      case NotSubmitted => CallsGrow(x.handle, y.calls, SubmitCalled);
      case Indeterminate(_) =>
      case AlreadySettled(output) => ConcludedKeepsInv(c, won, log, key, y, SubmitDone(output));
      case ReconcileTransient(error) => ConcludedKeepsInv(c, won, log, key, y, SubmitTransient(error));
      case ReconcileTerminal(error) => ConcludedKeepsInv(c, won, log, key, y, SubmitTerminal(error));
    }
  }

  // ----------------------------------------------------- appends to an origin

  function Appended(origins: Streams, origin: OriginId, event: OriginEvent): Streams {
    origins[origin := LogOf(origins, origin) + [Stored(|LogOf(origins, origin)| + 1, event)]]
  }

  lemma AppendSeenFrom(origins: Streams, origin: OriginId, event: OriginEvent, o: OriginId)
    ensures LogOf(Appended(origins, origin, event), o) ==
              if o == origin then LogOf(origins, o) + [Stored(|LogOf(origins, o)| + 1, event)] else LogOf(origins, o)
    ensures EventsOf(Appended(origins, origin, event), o) ==
              if o == origin then WithEvent(EventsOf(origins, o), event) else EventsOf(origins, o)
  {
    JobsOnGrown(LogOf(origins, origin), Stored(|LogOf(origins, origin)| + 1, event));
  }

  lemma AppendKeepsExec(won: set<Handle>, log: seq<Stored<OriginEvent>>, row: Stored<OriginEvent>, key: Key, x: Exec)
    requires ExecInv(won, log, key, x)
    ensures ExecInv(won, log + [row], key, x)
  {
    JobsOnGrown(log, row);
    VerdictsStay(JobsOn(log), row.event, key.job);
    if x.phase.Delivering? && x.phase.loaded.Some? {
      LoadedStaysLoaded(log, row, x.phase.loaded.value.base, x.phase.loaded.value.state);
    }
  }

  lemma {:induction false} AppendKeepsExecs(
    jobs: map<JobId, JobRecord>, origins: Streams, home: map<JobId, OriginId>, execs: map<Key, Exec>, origin: OriginId, event: OriginEvent)
    requires ExecsInv(jobs, origins, home, execs)
    ensures ExecsInv(jobs, Appended(origins, origin, event), home, execs)
  {
    var grown: Streams := Appended(origins, origin, event);
    forall key | key in execs
      ensures key.job in home && key.job in jobs
      ensures ExecInv(jobs[key.job].won, LogOf(grown, home[key.job]), key, execs[key])
    {
      var log := LogOf(origins, home[key.job]);
      AppendSeenFrom(origins, origin, event, home[key.job]);
      AppendKeepsExec(jobs[key.job].won, log, Stored(|log| + 1, event), key, execs[key]);
    }
  }

  lemma {:induction false} AppendKeepsHomes(
    jobs: map<JobId, JobRecord>, origins: Streams, home: map<JobId, OriginId>, origin: OriginId, event: OriginEvent)
    requires HomesInv(jobs, origins, home)
    ensures HomesInv(jobs, Appended(origins, origin, event), home)
  {
    var grown: Streams := Appended(origins, origin, event);
    forall job | job in home
      ensures DispatchedOn(EventsOf(grown, home[job]), job) && JobTold(jobs[job], EventsOf(grown, home[job]), job)
    {
      var events := EventsOf(origins, home[job]);
      AppendSeenFrom(origins, origin, event, home[job]);
      VerdictsStay(events, event, job);
      ToldStaysTold(jobs[job], events, event, job);
    }
  }

  lemma {:induction false} AppendKeepsSends(origins: Streams, sends: set<Send>, origin: OriginId, event: OriginEvent)
    requires SendsInv(origins, sends)
    ensures SendsInv(Appended(origins, origin, event), sends)
  {
    var grown: Streams := Appended(origins, origin, event);
    forall send | send in sends ensures LoadedInv(LogOf(grown, send.origin), send.base, send.state) {
      var log := LogOf(origins, send.origin);
      AppendSeenFrom(origins, origin, event, send.origin);
      LoadedStaysLoaded(log, Stored(|log| + 1, event), send.base, send.state);
    }
  }

  lemma GrownLogReplays(log: seq<Stored<OriginEvent>>, event: OriginEvent)
    requires OriginInv(log) && !OriginFold(Events(log) + [event]).Failed?
    ensures OriginInv(log + [Stored(|log| + 1, event)])
  {
    assert Events(log + [Stored(|log| + 1, event)]) == Events(log) + [event];
  }

  lemma {:induction false} AppendKeepsOrigins(
    origins: Streams, home: map<JobId, OriginId>, execs: map<Key, Exec>, origin: OriginId, event: OriginEvent)
    requires OriginsInv(origins, home, execs)
    requires !OriginFold(Events(LogOf(origins, origin)) + [event]).Failed? && Explained(execs, home, origin, event)
    ensures OriginsInv(Appended(origins, origin, event), home, execs)
  {
    var grown: Streams := Appended(origins, origin, event);
    assert OriginInv(LogOf(origins, origin));
    GrownLogReplays(LogOf(origins, origin), event);
    forall o: OriginId, i: int | o in grown && 0 <= i < |grown[o]| ensures Explained(execs, home, o, grown[o][i].event) {
      if o == origin && i == |LogOf(origins, o)| {
        assert grown[o][i].event == event;
      } else {
        assert grown[o][i] == origins[o][i];
      }
    }
  }

  lemma {:induction false} AppendKeepsWorld(w: World, origin: OriginId, event: OriginEvent)
    requires WorldInv(w)
    requires !OriginFold(Events(LogOf(w.origins, origin)) + [event]).Failed? && Explained(w.execs, w.home, origin, event)
    ensures WorldInv(w.(origins := Appended(w.origins, origin, event)))
  {
    AppendKeepsOrigins(w.origins, w.home, w.execs, origin, event);
    AppendKeepsHomes(w.queue.jobs, w.origins, w.home, origin, event);
    AppendKeepsExecs(w.queue.jobs, w.origins, w.home, w.execs, origin, event);
    AppendKeepsSends(w.origins, w.sends, origin, event);
  }

  // ----------------------------------------------------------- world actions

  ghost predicate DeliveryFits(
    won: set<Handle>, log: seq<Stored<OriginEvent>>, key: Key, x: Exec, y: Exec, appended: Option<seq<Stored<OriginEvent>>>)
  {
    && x.phase.Delivering? && y.verdict == x.verdict == Some(x.phase.verdict) && VerdictJob(x.phase.verdict) == key.job
    && var event := OfJob(VerdictEvent(x.phase.verdict));
       if appended.None? then ExecInv(won, log, key, y)
       else
         && appended.value == log + [Stored(|log| + 1, event)] && ExecInv(won, appended.value, key, y)
         && !OriginFold(Events(log) + [event]).Failed?
  }

  /** Delivering either ends the execution as its stream allows, or appends its verdict and ends it so. */
  lemma {:induction false} DeliveredKeepsInv(c: Config, won: set<Handle>, log: seq<Stored<OriginEvent>>, key: Key, x: Exec)
    requires OriginInv(log) && ExecInv(won, log, key, x) && x.phase.Delivering? && x.phase.loaded.Some?
    ensures DeliveryFits(won, log, key, x, Delivered(c, log, x).0, Delivered(c, log, x).1)
  {
    var loaded := x.phase.loaded.value;
    var verdict := x.phase.verdict;
    var handled := OriginDecision(loaded.state, Settle(verdict));
    if handled.Ok? {
      DecidedOnAPrefix(log, loaded.base, loaded.state, verdict);
      if handled.value != [] && loaded.base == |log| {
        VerdictOnTheStream(log, verdict);
      }
    }
  }

  /** A verdict accepted against a loaded prefix: absorbed, refused by the unique key, or landing at the end. */
  lemma {:induction false} DecidedOnAPrefix(log: seq<Stored<OriginEvent>>, base: nat, state: OriginLifecycle, verdict: Verdict)
    requires OriginInv(log) && LoadedInv(log, base, state) && OriginDecision(state, Settle(verdict)).Ok?
    ensures var events := OriginDecision(state, Settle(verdict)).value;
            var event := OfJob(VerdictEvent(verdict));
            && (events == [] ==> Records(JobsOn(log), verdict))
            && (events != [] ==>
                  && events == [event]
                  && Insert(log, Stored(base + 1, events[0])) == (if base == |log| then Some(log + [Stored(|log| + 1, event)]) else None)
                  && (base == |log| ==> !OriginFold(Events(log) + [event]).Failed?))
  {
    var prefix := Events(log)[..base];
    PrefixesOfLiveReplayAreLive(ORIGIN, Events(log), base);
    DeliveredVerdictIsRecorded(prefix, verdict);
    if OriginDecision(state, Settle(verdict)).value == [] {
      AbsorbedVerdictIsThere(log, base, verdict);
    } else {
      LandsAtTheEnd(log, base, Settle(verdict), OfJob(VerdictEvent(verdict)));
    }
  }

  lemma AbsorbedVerdictIsThere(log: seq<Stored<OriginEvent>>, base: nat, verdict: Verdict)
    requires base <= |log| && Records(JobEvents(Events(log)[..base] + []), verdict)
    ensures Records(JobsOn(log), verdict)
  {
    var prefix := Events(log)[..base];
    assert prefix + [] == prefix;
    JobEventsOfPrefix(Events(log), base);
    RecordedStaysRecorded(JobsOn(log), JobEvents(prefix), verdict);
  }

  /** An event decided on a loaded prefix is refused unless the prefix is everything, and then the stream still replays. */
  lemma {:induction false} LandsAtTheEnd(log: seq<Stored<OriginEvent>>, base: nat, command: OriginCommand, event: OriginEvent)
    requires OriginInv(log) && base <= |log| && OriginDecision(OriginFold(Events(log)[..base]), command) == Ok([event])
    ensures Insert(log, Stored(base + 1, event)) == if base == |log| then Some(log + [Stored(|log| + 1, event)]) else None
    ensures base == |log| ==> !OriginFold(Events(log) + [event]).Failed?
  {
    InsertDense(log, Stored(base + 1, event));
    if base == |log| {
      assert Events(log)[..base] == Events(log);
      DecidedApplies(OriginFold(Events(log)), command);
      FoldConcat(ORIGIN, Uninitialized, Events(log), [event]);
    }
  }

  lemma VerdictOnTheStream(log: seq<Stored<OriginEvent>>, verdict: Verdict)
    ensures Records(JobsOn(log + [Stored(|log| + 1, OfJob(VerdictEvent(verdict)))]), verdict)
  {
    JobsOnGrown(log, Stored(|log| + 1, OfJob(VerdictEvent(verdict))));
    assert (JobsOn(log) + [VerdictEvent(verdict)])[|JobsOn(log)|] == VerdictEvent(verdict);
  }

  lemma RecordedStaysRecorded(events: seq<DispatchEvent>, prefix: seq<DispatchEvent>, verdict: Verdict)
    requires prefix <= events && Records(prefix, verdict)
    ensures Records(events, verdict)
  {
    assert forall i :: 0 <= i < |prefix| ==> prefix[i] == events[i];
  }

  lemma {:induction false} CommitDeliveryKeepsWorld(c: Config, w: World, key: Key)
    requires WorldInv(w) && key in w.execs && key.job in w.home
    requires w.execs[key].phase.Delivering? && w.execs[key].phase.loaded.Some?
    ensures WorldInv(WorldNext(c, w, CommitDelivery(key)))
  {
    var log := LogOf(w.origins, w.home[key.job]);
    CommitDeliveryIs(c, w, key);
    DeliveryFitsWorld(c, w, key);
    DeliveryApplies(w, key, Delivered(c, log, w.execs[key]).0, Delivered(c, log, w.execs[key]).1);
  }

  lemma CommitDeliveryIs(c: Config, w: World, key: Key)
    requires key in w.execs && key.job in w.home && w.execs[key].phase.Delivering? && w.execs[key].phase.loaded.Some?
    ensures var delivered := Delivered(c, LogOf(w.origins, w.home[key.job]), w.execs[key]);
            WorldNext(c, w, CommitDelivery(key)) == Committed(w, key, w.home[key.job], delivered.0, delivered.1)
  {
  }

  lemma DeliveryFitsWorld(c: Config, w: World, key: Key)
    requires WorldInv(w) && key in w.execs && key.job in w.home
    requires w.execs[key].phase.Delivering? && w.execs[key].phase.loaded.Some?
    ensures key.job in w.queue.jobs
    ensures var log := LogOf(w.origins, w.home[key.job]);
            DeliveryFits(w.queue.jobs[key.job].won, log, key, w.execs[key], Delivered(c, log, w.execs[key]).0, Delivered(c, log, w.execs[key]).1)
  {
    StreamAndExec(w, key);
    DeliveredKeepsInv(c, w.queue.jobs[key.job].won, LogOf(w.origins, w.home[key.job]), key, w.execs[key]);
  }

  lemma StreamAndExec(w: World, key: Key)
    requires WorldInv(w) && key in w.execs
    ensures key.job in w.home && key.job in w.queue.jobs
    ensures OriginInv(LogOf(w.origins, w.home[key.job]))
    ensures ExecInv(w.queue.jobs[key.job].won, LogOf(w.origins, w.home[key.job]), key, w.execs[key])
  {
  }

  lemma {:induction false} DeliveryApplies(w: World, key: Key, y: Exec, appended: Option<seq<Stored<OriginEvent>>>)
    requires WorldInv(w) && key in w.execs && key.job in w.home && key.job in w.queue.jobs
    requires DeliveryFits(w.queue.jobs[key.job].won, LogOf(w.origins, w.home[key.job]), key, w.execs[key], y, appended)
    ensures WorldInv(Committed(w, key, w.home[key.job], y, appended))
  {
    if appended.None? {
      ExecStepKeepsWorld(w, key, y);
    } else {
      AppendSeenFrom(w.origins, w.home[key.job], OfJob(VerdictEvent(w.execs[key].phase.verdict)), w.home[key.job]);
      VerdictLands(w, key, y);
    }
  }

  lemma {:induction false} VerdictLands(w: World, key: Key, y: Exec)
    requires WorldInv(w) && key in w.execs && key.job in w.home && key.job in w.queue.jobs && w.execs[key].phase.Delivering?
    requires y.verdict == w.execs[key].verdict == Some(w.execs[key].phase.verdict)
    requires VerdictJob(w.execs[key].phase.verdict) == key.job
    requires var origin := w.home[key.job];
             var event := OfJob(VerdictEvent(w.execs[key].phase.verdict));
             && !OriginFold(Events(LogOf(w.origins, origin)) + [event]).Failed?
             && ExecInv(w.queue.jobs[key.job].won, LogOf(Appended(w.origins, origin, event), origin), key, y)
    ensures WorldInv(w.(origins := Appended(w.origins, w.home[key.job], OfJob(VerdictEvent(w.execs[key].phase.verdict))),
                        execs := w.execs[key := y]))
  {
    var event := OfJob(VerdictEvent(w.execs[key].phase.verdict));
    AppendKeepsWorld(w, w.home[key.job], event);
    ExecStepKeepsWorld(w.(origins := Appended(w.origins, w.home[key.job], event)), key, y);
  }

  lemma {:induction false} FreshJobOwesNothing(s: System, a: JobQueue.Action, events: seq<DispatchEvent>)
    requires a.Enqueue? && a.job !in s.jobs && IsInstant(a.runAt)
    ensures a.job in JobQueue.Next(s, a).jobs
    ensures JobTold(JobQueue.Next(s, a).jobs[a.job], events, a.job)
  {
    InsertDense([], Stored(1, Enqueued(a.kind, a.payload, a.runAt)));
    var born := JobNext(UNBORN, s.running, s.minted, a);
    assert born.log == [Stored(1, Enqueued(a.kind, a.payload, a.runAt))] && born.settling == {};
    assert JobQueue.Next(s, a).jobs[a.job] == born;
  }

  /** A placing commit lands only on the stream it was decided on. */
  lemma {:induction false} PlacedOnWhatItLoaded(log: seq<Stored<OriginEvent>>, send: Send)
    requires OriginInv(log) && LoadedInv(log, send.base, send.state) && send.command.Place?
    ensures var handled := OriginDecision(send.state, send.command);
            handled.Ok? && |handled.value| == 1 && Insert(log, Stored(send.base + 1, handled.value[0])).Some? ==>
              && handled.value == [OfJob(JobDispatched(send.command.push.jobId, send.command.job))]
              && Insert(log, Stored(send.base + 1, handled.value[0])) == Some(log + [Stored(|log| + 1, handled.value[0])])
              && !OriginFold(Events(log) + handled.value).Failed?
  {
    var handled := OriginDecision(send.state, send.command);
    if handled.Ok? {
      LandsAtTheEnd(log, send.base, send.command, handled.value[0]);
    }
  }

  lemma {:induction false} CommitPlaceKeepsWorld(w: World, send: Send, now: int)
    requires Inv(w.queue) && WorldInv(w) && send in w.sends && send.command.Place?
    ensures WorldInv(Placing(w, send, now))
  {
    var done := w.(sends := w.sends - {send});
    SendLeaves(w, send);
    var request := PlacingAsAppend(w, send, now);
    if request.Some? {
      PlacedKeepsWorld(done, send, request.value);
    }
  }

  lemma SendLeaves(w: World, send: Send)
    requires WorldInv(w) && send in w.sends
    ensures WorldInv(w.(sends := w.sends - {send}))
    ensures OriginInv(LogOf(w.origins, send.origin)) && LoadedInv(LogOf(w.origins, send.origin), send.base, send.state)
  {
    assert SendsInv(w.origins, w.sends - {send});
  }

  ghost predicate CanPlace(w: World, send: Send, request: EnqueueRequest)
    requires send.command.Place?
  {
    && send.command.push.jobId == request.jobId && request.jobId !in w.queue.jobs && IsInstant(request.runAtMs)
    && !OriginFold(Events(LogOf(w.origins, send.origin)) + [OfJob(JobDispatched(request.jobId, send.command.job))]).Failed?
  }

  lemma {:induction false} PlacingAsAppend(w: World, send: Send, now: int) returns (request: Option<EnqueueRequest>)
    requires send.command.Place?
    requires OriginInv(LogOf(w.origins, send.origin)) && LoadedInv(LogOf(w.origins, send.origin), send.base, send.state)
    ensures var done := w.(sends := w.sends - {send});
            && Placing(w, send, now) == (if request.None? then done else Placed(done, send, request.value))
            && (request.Some? ==> CanPlace(done, send, request.value))
  {
    PlacedOnWhatItLoaded(LogOf(w.origins, send.origin), send);
    request := if Placing(w, send, now) == w.(sends := w.sends - {send}) then None else PlaceRequest(w, send.command.push, now);
  }

  function Placed(w: World, send: Send, request: EnqueueRequest): World
    requires send.command.Place?
  {
    w.(origins := Appended(w.origins, send.origin, OfJob(JobDispatched(request.jobId, send.command.job))),
       queue := JobQueue.Next(w.queue, Enqueue(request.jobId, request.kind, request.payload, request.runAtMs)),
       home := w.home[request.jobId := send.origin])
  }

  /** Both halves of an outbox commit at once: the origin's event and the job's enqueue. */
  lemma {:induction false} PlacedKeepsWorld(w: World, send: Send, request: EnqueueRequest)
    requires Inv(w.queue) && WorldInv(w) && send.command.Place? && CanPlace(w, send, request)
    ensures WorldInv(Placed(w, send, request))
  {
    var dispatch := JobDispatched(request.jobId, send.command.job);
    var event := OfJob(dispatch);
    var a := Enqueue(request.jobId, request.kind, request.payload, request.runAtMs);
    var events := EventsOf(w.origins, send.origin);
    QueueStepKeepsWorld(w, a);
    var jobs := JobQueue.Next(w.queue, a).jobs;
    var home := w.home[request.jobId := send.origin];
    var origins := Appended(w.origins, send.origin, event);
    FreshJobOwesNothing(w.queue, a, events + [dispatch]);
    assert request.jobId !in w.home;
    NewHomesAreFine(jobs, w.origins, w.home, w.execs, request.jobId, send.origin);
    AppendKeepsOrigins(w.origins, home, w.execs, send.origin, event);
    AppendKeepsExecs(jobs, w.origins, home, w.execs, send.origin, event);
    AppendKeepsSends(w.origins, w.sends, send.origin, event);
    AppendKeepsHomes(jobs, w.origins, w.home, send.origin, event);
    AppendSeenFrom(w.origins, send.origin, event, send.origin);
    assert EventsOf(origins, send.origin)[|events|] == dispatch;
    OneMoreHome(jobs, origins, w.home, request.jobId, send.origin);
  }

  // ----------------------------------------------------------- domain commands

  /** Appending a domain event to a stream that replays keeps everything. */
  lemma {:induction false} DomainEventKeepsWorld(w: World, origin: OriginId, data: string)
    requires WorldInv(w)
    ensures WorldInv(w.(origins := Appended(w.origins, origin, Domain(data))))
  {
    var events := Events(LogOf(w.origins, origin));
    assert OriginInv(LogOf(w.origins, origin));
    OriginFoldSnoc(events, Domain(data));
    AppendKeepsWorld(w, origin, Domain(data));
  }

  function ActedOn(origins: Streams, origin: OriginId, data: seq<string>): Streams {
    if data == [] then origins
    else Appended(ActedOn(origins, origin, data[..|data| - 1]), origin, Domain(data[|data| - 1]))
  }

  lemma {:induction false} ActedOnIsTheBatch(origins: Streams, origin: OriginId, data: seq<string>)
    ensures LogOf(ActedOn(origins, origin, data), origin) == LogOf(origins, origin) + Wrapped(Domains(data), |LogOf(origins, origin)|)
  {
    var log := LogOf(origins, origin);
    if data == [] {
      assert log + Wrapped(Domains(data), |log|) == log;
    } else {
      var last := |data| - 1;
      var batch := Wrapped(Domains(data[..last]), |log|);
      ActedOnIsTheBatch(origins, origin, data[..last]);
      DomainsSnoc(data, |log|);
      OneMoreOnTheLog(ActedOn(origins, origin, data[..last]), origin, log, batch, Domain(data[last]));
    }
  }

  lemma OneMoreOnTheLog(origins: Streams, origin: OriginId, log: seq<Stored<OriginEvent>>, batch: seq<Stored<OriginEvent>>, event: OriginEvent)
    requires LogOf(origins, origin) == log + batch
    ensures LogOf(Appended(origins, origin, event), origin) == log + (batch + [Stored(|log| + |batch| + 1, event)])
  {
  }

  lemma {:induction false} ActedOnTouchesOneStream(origins: Streams, origin: OriginId, data: seq<string>)
    requires data != []
    ensures ActedOn(origins, origin, data) == origins[origin := LogOf(ActedOn(origins, origin, data), origin)]
  {
    if |data| > 1 {
      ActedOnTouchesOneStream(origins, origin, data[..|data| - 1]);
    }
  }

  lemma DomainsSnoc(data: seq<string>, version: nat)
    requires data != []
    ensures var last := |data| - 1;
            Wrapped(Domains(data), version) == Wrapped(Domains(data[..last]), version) + [Stored(version + last + 1, Domain(data[last]))]
  {
  }

  lemma {:induction false} DomainEventsKeepWorld(w: World, origin: OriginId, data: seq<string>)
    requires WorldInv(w)
    ensures WorldInv(w.(origins := ActedOn(w.origins, origin, data)))
  {
    if data != [] {
      var last := |data| - 1;
      DomainEventsKeepWorld(w, origin, data[..last]);
      DomainEventKeepsWorld(w.(origins := ActedOn(w.origins, origin, data[..last])), origin, data[last]);
    }
  }

  /** A domain command's events land only on the stream it was decided on. */
  lemma {:induction false} ActedOnWhatItLoaded(log: seq<Stored<OriginEvent>>, base: nat, events: seq<OriginEvent>)
    requires Dense(log) && base <= |log| && events != []
    ensures InsertAll(log, Wrapped(events, base)) == if base == |log| then Some(log + Wrapped(events, |log|)) else None
  {
    var batch := Wrapped(events, base);
    if base < |log| {
      InsertDense(log, batch[0]);
    } else {
      EventStore.InsertNext(log, Events(log), batch);
    }
  }

  lemma {:induction false} ActingIs(w: World, send: Send)
    requires send.command.Act? && OriginInv(LogOf(w.origins, send.origin)) && LoadedInv(LogOf(w.origins, send.origin), send.base, send.state)
    ensures var done := w.(sends := w.sends - {send});
            Acting(w, send) == done || Acting(w, send) == done.(origins := ActedOn(w.origins, send.origin, send.command.data))
  {
    if send.command.data != [] {
      ActedOnIsTheBatch(w.origins, send.origin, send.command.data);
      ActedOnTouchesOneStream(w.origins, send.origin, send.command.data);
      ActedOnWhatItLoaded(LogOf(w.origins, send.origin), send.base, Domains(send.command.data));
    }
  }

  lemma {:induction false} CommitActKeepsWorld(w: World, send: Send)
    requires WorldInv(w) && send in w.sends && send.command.Act?
    ensures WorldInv(Acting(w, send))
  {
    var done := w.(sends := w.sends - {send});
    SendLeaves(w, send);
    ActingIs(w, send);
    DomainEventsKeepWorld(done, send.origin, send.command.data);
  }

  lemma OneMoreHome(jobs: map<JobId, JobRecord>, origins: Streams, home: map<JobId, OriginId>, job: JobId, origin: OriginId)
    requires HomesInv(jobs, origins, home) && job in jobs
    requires DispatchedOn(EventsOf(origins, origin), job) && JobTold(jobs[job], EventsOf(origins, origin), job)
    ensures HomesInv(jobs, origins, home[job := origin])
  {
  }

  lemma NewHomesAreFine(
    jobs: map<JobId, JobRecord>, origins: Streams, home: map<JobId, OriginId>, execs: map<Key, Exec>, job: JobId, origin: OriginId)
    requires OriginsInv(origins, home, execs) && ExecsInv(jobs, origins, home, execs) && job !in home
    ensures OriginsInv(origins, home[job := origin], execs) && ExecsInv(jobs, origins, home[job := origin], execs)
  {
    forall o, i | o in origins && 0 <= i < |origins[o]| ensures Explained(execs, home[job := origin], o, origins[o][i].event) {
      assert Explained(execs, home, o, origins[o][i].event);
    }
  }

  lemma GoneKeepsExecs(jobs: map<JobId, JobRecord>, origins: Streams, home: map<JobId, OriginId>, execs: map<Key, Exec>)
    requires ExecsInv(jobs, origins, home, execs)
    ensures ExecsInv(jobs, origins, home, map key | key in execs :: execs[key].(phase := Gone))
  {
    forall key | key in execs
      ensures ExecInv(jobs[key.job].won, LogOf(origins, home[key.job]), key, execs[key].(phase := Gone))
    {
      assert ExecInv(jobs[key.job].won, LogOf(origins, home[key.job]), key, execs[key]);
    }
  }

  lemma GoneKeepsOrigins(origins: Streams, home: map<JobId, OriginId>, execs: map<Key, Exec>)
    requires OriginsInv(origins, home, execs)
    ensures OriginsInv(origins, home, map key | key in execs :: execs[key].(phase := Gone))
  {
    OriginsFollowExecs(origins, home, execs, map key | key in execs :: execs[key].(phase := Gone));
  }

  lemma CrashKeepsExecs(w: World)
    requires WorldInv(w)
    ensures WorldInv(w.(sends := {}, execs := map key | key in w.execs :: w.execs[key].(phase := Gone)))
  {
    GoneKeepsExecs(w.queue.jobs, w.origins, w.home, w.execs);
    GoneKeepsOrigins(w.origins, w.home, w.execs);
  }

  lemma ExecNextKeepsInv(c: Config, won: set<Handle>, log: seq<Stored<OriginEvent>>, key: Key, x: Exec, a: WorldAction)
    requires Dense(log) && ExecInv(won, log, key, x)
    ensures ExecInv(won, log, key, ExecNext(c, log, key.job, x, a))
    ensures x.verdict.Some? ==> ExecNext(c, log, key.job, x, a).verdict == x.verdict
  {
    match a
    case SubmitReturned(_, answer) =>
      if x.phase.Submitting? {
        AfterSubmitKeepsInv(c, won, log, key, x, answer);
      }
    case ReconcileReturned(_, answer) =>
      if x.phase.Reconciling? {
        AfterReconcileKeepsInv(c, won, log, key, x, answer);
      }
    case LoadForDelivery(_) => LoadedWhole(log);
    case _ =>
  }

  lemma LoadedWhole(log: seq<Stored<OriginEvent>>)
    requires Dense(log)
    ensures LoadedInv(log, LastSequence(log), OriginFold(Events(log)))
  {
    assert Events(log)[..|log|] == Events(log);
  }

  lemma {:induction false} AckKeepsWorld(c: Config, w: World, key: Key, now: int, backoffMs: nat)
    requires Inv(w.queue) && WorldInv(w) && key in w.execs && w.execs[key].phase.Ended?
    ensures var x := w.execs[key];
            var command := AckCommand(x.handle, c.maxAttempts, now, backoffMs, AckPlanOf(x.phase.outcome));
            WorldInv(w.(queue := JobQueue.Next(w.queue, LoadJob(key.job, x.handle, command))))
  {
    var x := w.execs[key];
    AckOnlyReportsWhatWasTold(c, w.queue.jobs[key.job].won, LogOf(w.origins, w.home[key.job]), key, x, now, backoffMs);
    var command := AckCommand(x.handle, c.maxAttempts, now, backoffMs, AckPlanOf(x.phase.outcome));
    QueueStepKeepsWorld(w, LoadJob(key.job, x.handle, command));
  }

  lemma AckOnlyReportsWhatWasTold(
    c: Config, won: set<Handle>, log: seq<Stored<OriginEvent>>, key: Key, x: Exec, now: int, backoffMs: nat)
    requires ExecInv(won, log, key, x) && x.phase.Ended?
    ensures ToldBefore(JobsOn(log), key.job, Outcome(AckCommand(x.handle, c.maxAttempts, now, backoffMs, AckPlanOf(x.phase.outcome))))
  {
  }

  lemma QueueStepIs(c: Config, w: World, step: JobQueue.Action)
    ensures var t := w.(queue := JobQueue.Next(w.queue, step));
            WorldNext(c, w, QueueStep(step)) ==
              if step.Crash? then t.(sends := {}, execs := map key | key in t.execs :: t.execs[key].(phase := Gone))
              else if step.LoadJob? && step.job in w.home then w
              else t
  {
  }

  lemma {:induction false} QueueActionKeepsWorld(c: Config, w: World, step: JobQueue.Action)
    requires Inv(w.queue) && WorldInv(w)
    ensures WorldInv(WorldNext(c, w, QueueStep(step)))
  {
    QueueStepIs(c, w, step);
    if !(step.LoadJob? && step.job in w.home) {
      QueueStepKeepsWorld(w, step);
      CrashKeepsExecs(w.(queue := JobQueue.Next(w.queue, step)));
    }
  }

  lemma AckIs(c: Config, w: World, key: Key, now: int, backoffMs: nat)
    ensures WorldNext(c, w, Ack(key, now, backoffMs)) ==
              if key in w.execs && w.execs[key].phase.Ended? then
                var x := w.execs[key];
                w.(queue := JobQueue.Next(w.queue, LoadJob(key.job, x.handle,
                     AckCommand(x.handle, c.maxAttempts, now, backoffMs, AckPlanOf(x.phase.outcome)))))
              else w
  {
  }

  lemma CommitSendIs(c: Config, w: World, send: Send, now: int)
    ensures WorldNext(c, w, CommitSend(send, now)) ==
              if send !in w.sends then w
              else if send.command.Place? then Placing(w, send, now)
              else if send.command.Act? then Acting(w, send)
              else w
  {
  }

  lemma {:induction false} StepKeepsWorld(c: Config, w: World, a: WorldAction)
    requires Inv(w.queue) && WorldInv(w)
    ensures WorldInv(WorldNext(c, w, a))
  {
    if a.QueueStep? {
      QueueActionKeepsWorld(c, w, a.step);
    } else if a.Ack? {
      AckIs(c, w, a.key, a.now, a.backoffMs);
      if a.key in w.execs && w.execs[a.key].phase.Ended? {
        AckKeepsWorld(c, w, a.key, a.now, a.backoffMs);
      }
    } else if a.CommitSend? {
      CommitSendIs(c, w, a.send, a.now);
      if a.send in w.sends && a.send.command.Place? {
        CommitPlaceKeepsWorld(w, a.send, a.now);
      } else if a.send in w.sends && a.send.command.Act? {
        CommitActKeepsWorld(w, a.send);
      }
    } else {
      OwnActionKeepsWorld(c, w, a);
    }
  }

  lemma {:induction false} OwnActionKeepsWorld(c: Config, w: World, a: WorldAction)
    requires WorldInv(w) && !a.QueueStep? && !a.Ack? && !a.CommitSend?
    ensures WorldInv(WorldNext(c, w, a))
  {
    if a.LoadSend? {
      LoadSendKeepsWorld(c, w, a.origin, a.command);
    } else if a.Begin? {
      BeginKeepsWorld(c, w, a.jobId, a.handle);
    } else if a.CommitDelivery? {
      if a.key in w.execs && a.key.job in w.home && w.execs[a.key].phase.Delivering? && w.execs[a.key].phase.loaded.Some? {
        CommitDeliveryKeepsWorld(c, w, a.key);
      }
    } else {
      ExecActionIs(c, w, a);
      if a.key in w.execs && a.key.job in w.home {
        ExecActionKeepsWorld(c, w, a.key, a);
      }
    }
  }

  lemma LoadSendKeepsWorld(c: Config, w: World, origin: OriginId, command: OriginCommand)
    requires WorldInv(w)
    ensures WorldInv(WorldNext(c, w, LoadSend(origin, command)))
  {
    assert OriginInv(LogOf(w.origins, origin));
    LoadedWhole(LogOf(w.origins, origin));
  }

  lemma BeginKeepsWorld(c: Config, w: World, j: JobId, handle: Handle)
    requires WorldInv(w)
    ensures WorldInv(WorldNext(c, w, Begin(j, handle)))
  {
    var key := Key(j, handle.claimSeq);
    if j in w.home && j in w.queue.jobs && handle in w.queue.jobs[j].won && key !in w.execs {
      ExecStepKeepsWorld(w, key, Routed(handle));
    }
  }

  lemma ExecActionIs(c: Config, w: World, a: WorldAction)
    requires a.SubmitReturned? || a.ReconcileReturned? || a.LoadForDelivery? || a.DeliveryFails? || a.TimeOut?
    ensures WorldNext(c, w, a) ==
              if a.key in w.execs && a.key.job in w.home then
                w.(execs := w.execs[a.key := ExecNext(c, LogOf(w.origins, w.home[a.key.job]), a.key.job, w.execs[a.key], a)])
              else w
  {
  }

  lemma {:induction false} ExecActionKeepsWorld(c: Config, w: World, key: Key, a: WorldAction)
    requires WorldInv(w) && key in w.execs && key.job in w.home
    ensures WorldInv(w.(execs := w.execs[key := ExecNext(c, LogOf(w.origins, w.home[key.job]), key.job, w.execs[key], a)]))
  {
    var log := LogOf(w.origins, w.home[key.job]);
    StreamAndExec(w, key);
    ExecNextKeepsInv(c, w.queue.jobs[key.job].won, log, key, w.execs[key], a);
    ExecStepKeepsWorld(w, key, ExecNext(c, log, key.job, w.execs[key], a));
  }
}
