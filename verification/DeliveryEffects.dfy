/**
 What each step of the dispatch protocol achieves, and what every execution's end is owed
 to: told by the origin's stream, the answers the execution heard and its claim alone.
 */
module DeliveryEffects {
  import opened Prelude
  import opened Outbox
  import opened EventTable
  import opened Lifecycles
  import opened Jobs
  import opened JobQueue
  import opened JobInvariants
  import opened JobEffects
  import opened JobWorker
  import opened Dispatches
  import opened Origins
  import opened Delivery
  import opened DeliveryInvariants
  import opened DeliveryTheorems

  // ------------------------------------------------ where an execution's end comes from

  /** The last thing the execution heard was this failure, whichever call reported it. */
  ghost predicate HeardTransient(calls: seq<Call>, error: string) {
    && calls != []
    && (calls[|calls| - 1] == SubmitAnswered(SubmitTransient(error)) || calls[|calls| - 1] == ReconcileAnswered(ReconcileTransient(error)))
  }

  ghost predicate HeardDefer(calls: seq<Call>, delayMs: nat) {
    && calls != []
    && (calls[|calls| - 1] == SubmitAnswered(SubmitDefer(delayMs)) || calls[|calls| - 1] == ReconcileAnswered(Indeterminate(delayMs)))
  }

  /** The verdict an execution owes its origin for reporting this result, if it owes one. */
  function Owed(c: Config, job: JobId, h: Handle, result: Execution): (owed: Option<Verdict>)
    requires !result.Finished?
  {
    match result
    case Terminal(error) => Some(Fail(Defeat(job, DomainRejected(error), h.attempt + 1)))
    case Transient(error) =>
      if 0 < c.maxAttempts <= h.attempt + 1 then Some(Fail(Defeat(job, DeadLettered(RetriesExhausted, error), h.attempt + 1))) else None
    case _ => None
  }

  /** Why an execution is where it is. */
  ghost predicate Justified(c: Config, job: JobId, x: Exec) {
    match x.phase
    case Submitting => x.calls != [] && x.calls[|x.calls| - 1].SubmitCalled? && x.verdict.None?
    case Reconciling => x.calls != [] && x.calls[|x.calls| - 1].ReconcileCalled? && x.verdict.None?
    case Delivering(verdict, result, _) =>
      && x.verdict == Some(verdict) && !result.Deferred? && !result.TimedOut?
      && (if result.Finished? then verdict.Confirm? else Owed(c, job, x.handle, result) == Some(verdict))
      && (result.Transient? ==> HeardTransient(x.calls, result.error))
    case Ended(outcome) =>
      (match outcome
       case Finished => x.verdict.Some? && x.verdict.value.Confirm?
       case Terminal(_) => x.verdict == Owed(c, job, x.handle, outcome)
       case Transient(error) => HeardTransient(x.calls, error) && x.verdict == Owed(c, job, x.handle, outcome)
       case Deferred(delayMs) =>
         if x.verdict.None? then HeardDefer(x.calls, delayMs) else delayMs == c.retryDelayMs || delayMs == c.refusedBackoffMs
       case TimedOut => true)
    case Gone => true
  }

  lemma ConcludedIsJustified(c: Config, job: JobId, x: Exec, outcome: SubmitAnswer)
    requires x.verdict.None?
    requires outcome.SubmitTransient? ==> HeardTransient(x.calls, outcome.error)
    requires outcome.SubmitDefer? ==> HeardDefer(x.calls, outcome.delayMs)
    ensures Justified(c, job, Concluded(c, job, x, outcome))
  {
  }

  lemma {:induction false} ExecStepIsJustified(c: Config, log: seq<Stored<OriginEvent>>, job: JobId, x: Exec, a: WorldAction)
    requires Justified(c, job, x)
    ensures Justified(c, job, ExecNext(c, log, job, x, a))
  {
    if a.SubmitReturned? && x.phase.Submitting? {
      ConcludedIsJustified(c, job, x.(calls := x.calls + [SubmitAnswered(a.submitted)]), a.submitted);
    } else if a.ReconcileReturned? && x.phase.Reconciling? {
      ReconcileIsJustified(c, job, x, a.reconciled);
    }
  }

  lemma ReconcileIsJustified(c: Config, job: JobId, x: Exec, answer: ReconcileAnswer)
    requires x.verdict.None?
    ensures Justified(c, job, AfterReconcile(c, job, x, answer))
  {
    var y := x.(calls := x.calls + [ReconcileAnswered(answer)]);
    match answer
    case NotSubmitted =>
    case Indeterminate(_) =>
    case AlreadySettled(output) => ConcludedIsJustified(c, job, y, SubmitDone(output));
    case ReconcileTransient(error) => ConcludedIsJustified(c, job, y, SubmitTransient(error));
    case ReconcileTerminal(error) => ConcludedIsJustified(c, job, y, SubmitTerminal(error));
  }

  lemma DeliveredIsJustified(c: Config, log: seq<Stored<OriginEvent>>, job: JobId, x: Exec)
    requires Justified(c, job, x) && x.phase.Delivering? && x.phase.loaded.Some?
    ensures Justified(c, job, Delivered(c, log, x).0)
  {
  }

  /** Which execution an action moves, if it moves one. */
  lemma {:induction false} StepIsJustified(c: Config, w: World, a: WorldAction, key: Key)
    requires key in WorldNext(c, w, a).execs && (key in w.execs ==> Justified(c, key.job, w.execs[key]))
    ensures Justified(c, key.job, WorldNext(c, w, a).execs[key])
  {
    match a
    case QueueStep(step) => QueueStepIs(c, w, step);
    case LoadSend(_, _) =>
    case CommitSend(send, now) => SendsLeaveExecs(c, w, send, now);
    case Begin(_, _) =>
    case CommitDelivery(k) =>
      if k in w.execs && k.job in w.home && w.execs[k].phase.Delivering? && w.execs[k].phase.loaded.Some? {
        CommitDeliveryIs(c, w, k);
        if k == key {
          DeliveredIsJustified(c, LogOf(w.origins, w.home[k.job]), k.job, w.execs[k]);
        }
      }
    case Ack(k, now, backoffMs) => AckIs(c, w, k, now, backoffMs);
    case _ =>
      ExecActionIs(c, w, a);
      if a.key == key && key in w.execs && key.job in w.home {
        ExecStepIsJustified(c, LogOf(w.origins, w.home[key.job]), key.job, w.execs[key], a);
      }
  }

  lemma SendsLeaveExecs(c: Config, w: World, send: Send, now: int)
    ensures WorldNext(c, w, CommitSend(send, now)).execs == w.execs
  {
    CommitSendIs(c, w, send, now);
  }

  /**
   In every run, an execution ends as what it heard last and what its claim calls for: a
   success or rejection only with its verdict, a final failure with a dead-letter verdict and
   any other with none, a defer by the very delay it was given, or by the delivery's own
   delay when a verdict could not be delivered.
   */
  lemma {:induction false} EndsAreJustified(c: Config, actions: seq<WorldAction>, key: Key)
    requires key in WorldRun(c, actions).execs
    ensures Justified(c, key.job, WorldRun(c, actions).execs[key])
  {
    if actions != [] {
      var before := actions[..|actions| - 1];
      if key in WorldRun(c, before).execs {
        EndsAreJustified(c, before, key);
      }
      StepIsJustified(c, WorldRun(c, before), actions[|actions| - 1], key);
    }
  }

  /** An execution's step is its own, at any reachable world. */
  lemma {:induction false} ExecMoves(c: Config, actions: seq<WorldAction>, key: Key, a: WorldAction)
    requires key in WorldRun(c, actions).execs
    requires (a.SubmitReturned? || a.ReconcileReturned? || a.DeliveryFails? || a.TimeOut?) && a.key == key
    ensures var w := WorldRun(c, actions);
            && key.job in w.home && key in WorldNext(c, w, a).execs
            && WorldNext(c, w, a).execs[key] == ExecNext(c, LogOf(w.origins, w.home[key.job]), key.job, w.execs[key], a)
  {
    RunKeepsWorld(c, actions);
    StreamAndExec(WorldRun(c, actions), key);
    ExecActionIs(c, WorldRun(c, actions), a);
  }

  /** A submit's answer is always taken: it is the next thing on record and brings the execution to its delivery or end. */
  lemma {:induction false} SubmitAnswersAreTaken(c: Config, actions: seq<WorldAction>, key: Key, answer: SubmitAnswer)
    requires key in WorldRun(c, actions).execs && WorldRun(c, actions).execs[key].phase.Submitting?
    ensures var w := WorldRun(c, actions);
            var t := WorldNext(c, w, SubmitReturned(key, answer));
            && key in t.execs && Concludes(t.execs[key].phase)
            && t.execs[key].calls == w.execs[key].calls + [SubmitAnswered(answer)]
  {
    ExecMoves(c, actions, key, SubmitReturned(key, answer));
  }

  /** So is a reconcile's, except that one that found nothing submitted goes on to submit. */
  lemma {:induction false} ReconcileAnswersAreTaken(c: Config, actions: seq<WorldAction>, key: Key, answer: ReconcileAnswer)
    requires key in WorldRun(c, actions).execs && WorldRun(c, actions).execs[key].phase.Reconciling?
    ensures var w := WorldRun(c, actions);
            var t := WorldNext(c, w, ReconcileReturned(key, answer));
            && key in t.execs
            && (if answer.NotSubmitted? then
                  && t.execs[key].phase.Submitting?
                  && t.execs[key].calls == w.execs[key].calls + [ReconcileAnswered(answer), SubmitCalled]
                else
                  && Concludes(t.execs[key].phase)
                  && t.execs[key].calls == w.execs[key].calls + [ReconcileAnswered(answer)])
  {
    ExecMoves(c, actions, key, ReconcileReturned(key, answer));
    var calls := WorldRun(c, actions).execs[key].calls;
    assert calls + [ReconcileAnswered(answer)] + [SubmitCalled] == calls + [ReconcileAnswered(answer), SubmitCalled];
  }

  predicate Concludes(phase: Phase) {
    phase.Delivering? || (phase.Ended? && !phase.outcome.TimedOut?)
  }

  /** Every won claim of a dispatched job can be executed, once. */
  lemma {:induction false} WonClaimsAreExecuted(c: Config, actions: seq<WorldAction>, j: JobId, h: Handle)
    requires var w := WorldRun(c, actions); j in w.home && j in w.queue.jobs && h in w.queue.jobs[j].won
    ensures var w, t := WorldRun(c, actions), WorldNext(c, WorldRun(c, actions), Begin(j, h));
            var key := Key(j, h.claimSeq);
            if key in w.execs then t == w
            else
              && t == w.(execs := t.execs) && t.execs.Keys == w.execs.Keys + {key}
              && t.execs[key].handle == h && |t.execs[key].calls| == 1 && (t.execs[key].phase.Submitting? || t.execs[key].phase.Reconciling?)
  {
  }

  // ----------------------------------------------------------------- the origin's side

  /** Sending loads the stream as it is, to be decided on later. */
  lemma {:induction false} SendsLoadTheStream(c: Config, actions: seq<WorldAction>, origin: OriginId, command: OriginCommand)
    requires !command.Settle?
    ensures var w := WorldRun(c, actions);
            var log := LogOf(w.origins, origin);
            WorldNext(c, w, LoadSend(origin, command)) ==
              w.(sends := w.sends + {Send(origin, command, |log|, OriginFold(Events(log)))})
  {
    RunKeepsWorld(c, actions);
    var log := LogOf(WorldRun(c, actions).origins, origin);
    assert OriginInv(log);
    DenseLast(log);
  }

  /** No dispatch of this stream is open or confirmed. */
  ghost predicate FreeToDispatch(jobs: seq<DispatchEvent>) {
    jobs == [] || jobs[|jobs| - 1].JobFailed?
  }

  ghost predicate Enqueueable(push: PendingPush, now: int) {
    push.encoded.Some? && push.delayMs <= MAX_DELAY_MS && IsInstant(now + push.delayMs)
  }

  /**
   A placing commit lands exactly when nobody wrote to its origin since it loaded, nothing is
   open or confirmed there, its job encodes at a representable instant, and the job id is
   new. Then the dispatch event and the job's enqueue appear together; otherwise neither does.
   */
  lemma {:induction false} PlaceLandsExactly(c: Config, actions: seq<WorldAction>, send: Send, now: int)
    requires send in WorldRun(c, actions).sends && send.command.Place?
    ensures var w := WorldRun(c, actions);
            var t := WorldNext(c, w, CommitSend(send, now));
            var log := LogOf(w.origins, send.origin);
            var push := send.command.push;
            var done := w.(sends := w.sends - {send});
            if send.base == |log| && FreeToDispatch(JobsOn(log)) && Enqueueable(push, now) && push.jobId !in w.queue.jobs then
              t == done.(origins := w.origins[send.origin := log + [Stored(|log| + 1, OfJob(JobDispatched(push.jobId, send.command.job)))]],
                         queue := JobQueue.Next(w.queue, Enqueue(push.jobId, push.kind, push.encoded.value, now + push.delayMs)),
                         home := w.home[push.jobId := send.origin])
            else t == done
  {
    SendFacts(c, actions, send);
    CommitSendIs(c, WorldRun(c, actions), send, now);
    PlacingExactly(WorldRun(c, actions), send, now);
  }

  lemma {:induction false} SendFacts(c: Config, actions: seq<WorldAction>, send: Send)
    requires send in WorldRun(c, actions).sends
    ensures var log := LogOf(WorldRun(c, actions).origins, send.origin); OriginInv(log) && LoadedInv(log, send.base, send.state)
  {
    RunKeepsWorld(c, actions);
    SendLeaves(WorldRun(c, actions), send);
  }

  lemma {:induction false} PlacingExactly(w: World, send: Send, now: int)
    requires send.command.Place? && OriginInv(LogOf(w.origins, send.origin)) && LoadedInv(LogOf(w.origins, send.origin), send.base, send.state)
    ensures var log := LogOf(w.origins, send.origin);
            var push := send.command.push;
            var done := w.(sends := w.sends - {send});
            Placing(w, send, now) ==
              if send.base == |log| && FreeToDispatch(JobsOn(log)) && Enqueueable(push, now) && push.jobId !in w.queue.jobs then
                done.(origins := w.origins[send.origin := log + [Stored(|log| + 1, OfJob(JobDispatched(push.jobId, send.command.job)))]],
                      queue := JobQueue.Next(w.queue, Enqueue(push.jobId, push.kind, push.encoded.value, now + push.delayMs)),
                      home := w.home[push.jobId := send.origin])
              else done
  {
    PlaceDecided(LogOf(w.origins, send.origin), send);
  }

  /** What a placing command decides on the prefix it loaded, and whether that can still be appended. */
  lemma {:induction false} PlaceDecided(log: seq<Stored<OriginEvent>>, send: Send)
    requires OriginInv(log) && LoadedInv(log, send.base, send.state) && send.command.Place?
    ensures var event := OfJob(JobDispatched(send.command.push.jobId, send.command.job));
            var handled := OriginDecision(send.state, send.command);
            && (handled.Ok? ==> handled.value == [event])
            && (handled.Ok? && Insert(log, Stored(send.base + 1, event)).Some? <==> send.base == |log| && FreeToDispatch(JobsOn(log)))
            && (Insert(log, Stored(send.base + 1, event)).Some? ==> Insert(log, Stored(send.base + 1, event)).value == log + [Stored(|log| + 1, event)])
  {
    var event := OfJob(JobDispatched(send.command.push.jobId, send.command.job));
    InsertDense(log, Stored(send.base + 1, event));
    if send.base == |log| {
      assert Events(log)[..|log|] == Events(log);
      OriginReplaysIffAlternates(Events(log));
    }
  }

  /** A domain commit lands exactly when nobody wrote to its origin since it loaded, all of its events or none. */
  lemma {:induction false} ActLandsExactly(c: Config, actions: seq<WorldAction>, send: Send, now: int)
    requires send in WorldRun(c, actions).sends && send.command.Act?
    ensures var w := WorldRun(c, actions);
            var t := WorldNext(c, w, CommitSend(send, now));
            var log := LogOf(w.origins, send.origin);
            && t == w.(sends := w.sends - {send}, origins := t.origins)
            && (forall o :: o != send.origin ==> LogOf(t.origins, o) == LogOf(w.origins, o))
            && LogOf(t.origins, send.origin) == if send.base == |log| then log + Wrapped(Domains(send.command.data), |log|) else log
  {
    SendFacts(c, actions, send);
    var w := WorldRun(c, actions);
    CommitSendIs(c, w, send, now);
    var log := LogOf(w.origins, send.origin);
    PrefixesOfLiveReplayAreLive(ORIGIN, Events(log), send.base);
    if send.command.data == [] {
      assert log + Wrapped(Domains(send.command.data), |log|) == log;
    } else {
      ActedOnWhatItLoaded(log, send.base, Domains(send.command.data));
    }
  }

  // -------------------------------------------------------------------- deliveries

  /** The execution after its delivery: with its result if the origin knows, deferred or as failed if not. */
  function AfterDelivery(x: Exec, known: bool, delayMs: nat): Exec
    requires x.phase.Delivering?
  {
    x.(phase := Ended(if known || x.phase.result.Transient? then x.phase.result else Deferred(delayMs)))
  }

  /** What a delivery with nobody in between makes of the world. */
  ghost predicate DeliveredOn(c: Config, w: World, t: World, key: Key)
    requires key in w.execs && w.execs[key].phase.Delivering? && key.job in w.home
  {
    var x := w.execs[key];
    var origin := w.home[key.job];
    var log := LogOf(w.origins, origin);
    var open := OpenFor(JobsOn(log), key.job);
    && t.queue == w.queue && t.home == w.home && t.sends == w.sends
    && key in t.execs && t.execs[key] == AfterDelivery(x, open || AlreadyTold(JobsOn(log), x.phase.verdict), c.refusedBackoffMs)
    && (forall o :: o != origin ==> LogOf(t.origins, o) == LogOf(w.origins, o))
    && LogOf(t.origins, origin) == if open then log + [Stored(|log| + 1, OfJob(VerdictEvent(x.phase.verdict)))] else log
  }

  function WithLoad(x: Exec, log: seq<Stored<OriginEvent>>): Exec
    requires x.phase.Delivering?
  {
    x.(phase := x.phase.(loaded := Some(Loaded(|log|, OriginFold(Events(log))))))
  }

  /**
   A delivery with nobody in between: while the job is the one in flight its verdict is
   recorded, whole; when the last verdict was its own it is absorbed; both let the execution
   report its result. Otherwise nothing is written and the execution is put off.
   */
  lemma {:induction false} DeliveryLandsExactly(c: Config, actions: seq<WorldAction>, key: Key)
    requires key in WorldRun(c, actions).execs && WorldRun(c, actions).execs[key].phase.Delivering?
    ensures key.job in WorldRun(c, actions).home
    ensures var w := WorldRun(c, actions);
            DeliveredOn(c, w, WorldNext(c, WorldNext(c, w, LoadForDelivery(key)), CommitDelivery(key)), key)
  {
    DeliveringFacts(c, actions, key);
    var w := WorldRun(c, actions);
    var log := LogOf(w.origins, w.home[key.job]);
    LoadForDeliveryIs(c, w, key);
    DeliverFrom(c, w, w.(execs := w.execs[key := WithLoad(w.execs[key], log)]), key);
  }

  lemma {:induction false} DeliveringFacts(c: Config, actions: seq<WorldAction>, key: Key)
    requires key in WorldRun(c, actions).execs && WorldRun(c, actions).execs[key].phase.Delivering?
    ensures var w := WorldRun(c, actions);
            && key.job in w.home && OriginInv(LogOf(w.origins, w.home[key.job]))
            && VerdictJob(w.execs[key].phase.verdict) == key.job
            && (w.execs[key].phase.loaded.Some? ==>
                  LoadedInv(LogOf(w.origins, w.home[key.job]), w.execs[key].phase.loaded.value.base, w.execs[key].phase.loaded.value.state))
  {
    RunKeepsWorld(c, actions);
    StreamAndExec(WorldRun(c, actions), key);
  }

  lemma LoadForDeliveryIs(c: Config, w: World, key: Key)
    requires key in w.execs && key.job in w.home && w.execs[key].phase.Delivering? && OriginInv(LogOf(w.origins, w.home[key.job]))
    ensures WorldNext(c, w, LoadForDelivery(key)) ==
              w.(execs := w.execs[key := WithLoad(w.execs[key], LogOf(w.origins, w.home[key.job]))])
  {
    ExecActionIs(c, w, LoadForDelivery(key));
    DenseLast(LogOf(w.origins, w.home[key.job]));
  }

  lemma {:induction false} DeliverFrom(c: Config, w: World, mid: World, key: Key)
    requires key in w.execs && key.job in w.home && w.execs[key].phase.Delivering? && OriginInv(LogOf(w.origins, w.home[key.job]))
    requires VerdictJob(w.execs[key].phase.verdict) == key.job
    requires mid == w.(execs := w.execs[key := WithLoad(w.execs[key], LogOf(w.origins, w.home[key.job]))])
    ensures DeliveredOn(c, w, WorldNext(c, mid, CommitDelivery(key)), key)
  {
    CommitDeliveryIs(c, mid, key);
    DeliveredNow(c, LogOf(w.origins, w.home[key.job]), key.job, mid.execs[key]);
  }

  lemma {:induction false} DeliveredNow(c: Config, log: seq<Stored<OriginEvent>>, job: JobId, x: Exec)
    requires OriginInv(log) && x.phase.Delivering? && VerdictJob(x.phase.verdict) == job
    requires x.phase.loaded == Some(Loaded(|log|, OriginFold(Events(log))))
    ensures var open, told := OpenFor(JobsOn(log), job), AlreadyTold(JobsOn(log), x.phase.verdict);
            && Delivered(c, log, x).0 == AfterDelivery(x, open || told, c.refusedBackoffMs)
            && Delivered(c, log, x).1 == if open then Some(log + [Stored(|log| + 1, OfJob(VerdictEvent(x.phase.verdict)))]) else None
  {
    OriginReplaysIffAlternates(Events(log));
    InsertDense(log, Stored(|log| + 1, OfJob(VerdictEvent(x.phase.verdict))));
    assert OfJobs([VerdictEvent(x.phase.verdict)]) == [OfJob(VerdictEvent(x.phase.verdict))];
  }

  /** A delivery that lost a race to another writer writes nothing: it is retried soon, or, by what it had loaded, absorbed or refused. */
  lemma {:induction false} StaleDeliveryWritesNothing(c: Config, actions: seq<WorldAction>, key: Key)
    requires key in WorldRun(c, actions).execs && key.job in WorldRun(c, actions).home
    requires var x := WorldRun(c, actions).execs[key]; x.phase.Delivering? && x.phase.loaded.Some?
    requires var w := WorldRun(c, actions); w.execs[key].phase.loaded.value.base < |LogOf(w.origins, w.home[key.job])|
    ensures var w := WorldRun(c, actions);
            var t := WorldNext(c, w, CommitDelivery(key));
            var log := LogOf(w.origins, w.home[key.job]);
            && t == w.(execs := t.execs) && key in t.execs
            && PutOff(c, JobEvents(Events(log)[..w.execs[key].phase.loaded.value.base]), key.job, w.execs[key], t.execs[key])
  {
    DeliveringFacts(c, actions, key);
    var w := WorldRun(c, actions);
    StaleDelivery(c, LogOf(w.origins, w.home[key.job]), key.job, w.execs[key]);
    CommitDeliveryIs(c, w, key);
  }

  /** What becomes of an execution whose load was overtaken, told by what it had loaded. */
  ghost predicate PutOff(c: Config, loaded: seq<DispatchEvent>, job: JobId, x: Exec, y: Exec)
    requires x.phase.Delivering?
  {
    y == if OpenFor(loaded, job) then AfterDelivery(x, false, c.retryDelayMs)
         else AfterDelivery(x, AlreadyTold(loaded, x.phase.verdict), c.refusedBackoffMs)
  }

  lemma {:induction false} StaleDelivery(c: Config, log: seq<Stored<OriginEvent>>, job: JobId, x: Exec)
    requires x.phase.Delivering? && x.phase.loaded.Some? && x.phase.loaded.value.base < |log| && OriginInv(log)
    requires LoadedInv(log, x.phase.loaded.value.base, x.phase.loaded.value.state) && VerdictJob(x.phase.verdict) == job
    ensures Delivered(c, log, x).1.None?
    ensures PutOff(c, JobEvents(Events(log)[..x.phase.loaded.value.base]), job, x, Delivered(c, log, x).0)
  {
    var base := x.phase.loaded.value.base;
    PrefixesOfLiveReplayAreLive(ORIGIN, Events(log), base);
    OriginReplaysIffAlternates(Events(log)[..base]);
    InsertDense(log, Stored(base + 1, OfJob(VerdictEvent(x.phase.verdict))));
    assert OfJobs([VerdictEvent(x.phase.verdict)]) == [OfJob(VerdictEvent(x.phase.verdict))];
  }

  /**
   A delivery whose outcome is lost is put off by the retry delay, also after it had landed;
   a final failure is reported all the same. A timeout ends any execution that is not gone.
   */
  lemma {:induction false} LostOutcomesPutOff(c: Config, actions: seq<WorldAction>, key: Key)
    requires key in WorldRun(c, actions).execs
    ensures var w := WorldRun(c, actions);
            var x := w.execs[key];
            var t := WorldNext(c, w, DeliveryFails(key));
            && key in t.execs
            && (x.phase.Delivering? ==> t.execs[key] == AfterDelivery(x, false, c.retryDelayMs))
            && (x.phase.Ended? && (x.phase.outcome.Finished? || x.phase.outcome.Terminal?) ==>
                  t.execs[key] == x.(phase := Ended(Deferred(c.retryDelayMs))))
    ensures var w := WorldRun(c, actions);
            var t := WorldNext(c, w, TimeOut(key));
            key in t.execs && t.execs[key] == if w.execs[key].phase.Gone? then w.execs[key] else w.execs[key].(phase := Ended(TimedOut))
  {
    EndsAreJustified(c, actions, key);
    ExecMoves(c, actions, key, DeliveryFails(key));
    ExecMoves(c, actions, key, TimeOut(key));
  }

  // --------------------------------------------------------------------------- acks

  /** An ended execution's ack is in flight for its job, under its own claim and on the stream as it is. */
  lemma {:induction false} AcksReachTheQueue(c: Config, actions: seq<WorldAction>, key: Key, now: int, backoffMs: nat)
    requires key in WorldRun(c, actions).execs && WorldRun(c, actions).execs[key].phase.Ended? && WorldRun(c, actions).queue.running
    ensures var w := WorldRun(c, actions);
            var x := w.execs[key];
            var t := WorldNext(c, w, Ack(key, now, backoffMs));
            var command := AckCommand(x.handle, c.maxAttempts, now, backoffMs, AckPlanOf(x.phase.outcome));
            && key.job in w.queue.jobs && key.job in t.queue.jobs
            && LoadedNow(w.queue.jobs[key.job], x.handle, command) in t.queue.jobs[key.job].settling
  {
    RunKeepsWorld(c, actions);
    var w := WorldRun(c, actions);
    StreamAndExec(w, key);
    AckIs(c, w, key, now, backoffMs);
    var x := w.execs[key];
    var command := AckCommand(x.handle, c.maxAttempts, now, backoffMs, AckPlanOf(x.phase.outcome));
    SurfacesStayWithinTheirClaim(x.handle, c.maxAttempts, now, backoffMs, AckPlanOf(x.phase.outcome), Acknowledge);
    LoadIsInFlight(w.queue, key.job, x.handle, command);
  }

  lemma LoadIsInFlight(s: System, j: JobId, h: Handle, command: JobCommand)
    requires Inv(s) && s.running && j in s.jobs && h in s.jobs[j].won && CommandOf(h, command)
    ensures j in JobQueue.Next(s, LoadJob(j, h, command)).jobs
    ensures LoadedNow(s.jobs[j], h, command) in JobQueue.Next(s, LoadJob(j, h, command)).jobs[j].settling
  {
    assert RecordInv(s.jobs[j], s.running, s.minted);
    DenseLast(s.jobs[j].log);
    NextRecordIs(s, LoadJob(j, h, command), j);
  }
}
