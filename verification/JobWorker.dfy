/** How workers turn an execution's result into a fenced settlement command. */
module JobWorker {
  import opened Prelude
  import opened Outbox
  import opened EventTable
  import opened Lifecycles
  import opened Jobs
  import opened JobQueue
  import opened JobInvariants
  import opened JobTheorems
  import opened JobEffects

  const MAX_U32: nat := 0xffff_ffff

  /** The result of one execution under a claim; a timeout carries no classification. */
  datatype Execution = Finished | Deferred(delayMs: nat) | Transient(error: string) | Terminal(error: string) | TimedOut

  datatype AckPlan = AckSucceeded | AckDeferred(delayMs: nat) | AckFailed(error: string) | AckRejected(error: string)

  const FIRST_CLAIM_SEQ: nat := 2

  predicate IsFirstExecution(h: Handle) {
    h.claimSeq == FIRST_CLAIM_SEQ
  }

  predicate IsFinalAttempt(h: Handle, maxAttempts: nat) {
    maxAttempts > 0 && h.attempt + 1 >= maxAttempts
  }

  function AckPlanOf(result: Execution): AckPlan {
    match result
    case Finished => AckSucceeded
    case Deferred(delayMs) => AckDeferred(delayMs)
    case Terminal(error) => AckRejected(error)
    case Transient(error) => AckFailed(error)
    case TimedOut => AckFailed("job execution exceeded its timeout")
  }

  /** A delay as the durable clock adds it; one it cannot represent becomes half a minute. */
  function LeaseDelta(delayMs: nat): nat {
    if delayMs > MAX_DELAY_MS then 30_000 else delayMs
  }

  /** `backoffMs` is the delay the worker's backoff gives this attempt. */
  function AckCommand(h: Handle, maxAttempts: nat, now: int, backoffMs: nat, plan: AckPlan): JobCommand {
    match plan
    case AckSucceeded => Succeed(h.claimId)
    case AckDeferred(delayMs) => Reschedule(h.claimId, now + LeaseDelta(delayMs))
    case AckRejected(error) => Kill(h.claimId, Rejected, error)
    case AckFailed(error) =>
      var failed := h.attempt + 1;
      if failed >= maxAttempts then Kill(h.claimId, RetriesExhausted, error)
      else RetrySchedule(h.claimId, now + LeaseDelta(backoffMs), failed, error)
  }

  datatype Settle = Acknowledge | Retry(runAtMs: int, error: string) | Defer(runAtMs: int) | DeadLetter(reason: DeadReason, error: string)

  datatype FacadeError = BadInstant(ms: int) | AttemptExhausted

  /** The language-neutral settlements of a claim. */
  function FacadeCommand(h: Handle, settle: Settle): Result<JobCommand, FacadeError> {
    match settle
    case Acknowledge => Ok(Succeed(h.claimId))
    case Retry(runAtMs, error) =>
      if !IsInstant(runAtMs) then Err(BadInstant(runAtMs))
      else if h.attempt >= MAX_U32 then Err(AttemptExhausted)
      else Ok(RetrySchedule(h.claimId, runAtMs, h.attempt + 1, error))
    case Defer(runAtMs) =>
      if !IsInstant(runAtMs) then Err(BadInstant(runAtMs)) else Ok(Reschedule(h.claimId, runAtMs))
    case DeadLetter(reason, error) => Ok(Kill(h.claimId, reason, error))
  }

  /** Both surfaces only produce commands the protocol admits for the claim they hold. */
  lemma SurfacesStayWithinTheirClaim(h: Handle, maxAttempts: nat, now: int, backoffMs: nat, plan: AckPlan, settle: Settle)
    ensures CommandOf(h, AckCommand(h, maxAttempts, now, backoffMs, plan))
    ensures FacadeCommand(h, settle).Ok? ==> CommandOf(h, FacadeCommand(h, settle).value)
  {
  }

  // ------------------------------------- what a result comes to on the stream

  /** Ended in one more attempt, at an instant and with its error on record. */
  ghost predicate RetriedAt(before: seq<JobEvent>, after: seq<JobEvent>, runAt: int, error: string) {
    && |after| == |before| + 1 && before <= after
    && ScheduledAt(after) == runAt && Retries(after) == Retries(before) + 1
    && after[|before|].RetryScheduled? && after[|before|].error == error
  }

  ghost predicate DeferredTo(before: seq<JobEvent>, after: seq<JobEvent>, runAt: int) {
    && |after| == |before| + 1 && before <= after
    && ScheduledAt(after) == runAt && Retries(after) == Retries(before) && ClaimsSinceDefer(after) == 0
  }

  ghost predicate DiedOf(before: seq<JobEvent>, after: seq<JobEvent>, reason: DeadReason, error: string) {
    before + [Dead(reason, error)] == after && Folded(after) == Live(Buried(reason))
  }

  ghost predicate FailedOnceMore(before: seq<JobEvent>, after: seq<JobEvent>, maxAttempts: nat, runAt: int, error: string) {
    if Retries(before) + 1 >= maxAttempts then DiedOf(before, after, RetriesExhausted, error)
    else RetriedAt(before, after, runAt, error)
  }

  /** What an execution's result comes to, counting the failures the stream already records. */
  ghost predicate ExecutionRecorded(
    before: seq<JobEvent>, after: seq<JobEvent>, maxAttempts: nat, now: int, backoffMs: nat, result: Execution)
  {
    match result
    case Finished => before + [Succeeded] == after && Folded(after) == Live(Done)
    case Deferred(delayMs) => DeferredTo(before, after, now + if delayMs <= MAX_DELAY_MS then delayMs else 30_000)
    case Terminal(error) => DiedOf(before, after, Rejected, error)
    case Transient(error) => FailedOnceMore(before, after, maxAttempts, now + (if backoffMs <= MAX_DELAY_MS then backoffMs else 30_000), error)
    case TimedOut =>
      FailedOnceMore(before, after, maxAttempts, now + (if backoffMs <= MAX_DELAY_MS then backoffMs else 30_000),
                     "job execution exceeded its timeout")
  }

  /** In every run, an execution's ack that lands records its result: the failures counted are those on the stream. */
  lemma {:induction false} AckRecordsTheResult(
    actions: seq<Action>, j: JobId, s: Settlement, maxAttempts: nat, now: int, backoffMs: nat, result: Execution)
    requires j in Run(actions).jobs && s in Run(actions).jobs[j].settling
    requires s.command == AckCommand(s.handle, maxAttempts, now, backoffMs, AckPlanOf(result))
    requires SettleTransaction(Run(actions).jobs[j].log, s).1.Some?
    ensures var log := Run(actions).jobs[j].log;
            ExecutionRecorded(Events(log), Events(SettleTransaction(log, s).1.value), maxAttempts, now, backoffMs, result)
  {
    LandedWithItsAttempt(actions, j, s);
    var log := Run(actions).jobs[j].log;
    RecordedGrows(Events(log), Events(SettleTransaction(log, s).1.value), s.command);
  }

  lemma {:induction false} LandedWithItsAttempt(actions: seq<Action>, j: JobId, s: Settlement)
    requires j in Run(actions).jobs && s in Run(actions).jobs[j].settling
    requires SettleTransaction(Run(actions).jobs[j].log, s).1.Some?
    ensures var log := Run(actions).jobs[j].log;
            && RecordedAs(Events(log), Events(SettleTransaction(log, s).1.value), s.command)
            && s.handle.attempt == Retries(Events(log))
  {
    RunKeepsInv(actions);
    RunningWhileSettling(Run(actions), j);
    RecordsByInv(Run(actions).jobs[j], Run(actions).minted, s);
  }

  /** The one event a terminal command leaves. */
  lemma RecordedGrows(before: seq<JobEvent>, after: seq<JobEvent>, command: JobCommand)
    requires RecordedAs(before, after, command)
    ensures after == before + [after[|before|]]
    ensures command.Succeed? ==> after[|before|] == Succeeded
    ensures command.Kill? ==> after[|before|] == Dead(command.reason, command.error)
  {
    FoldedSnoc(before, after[|before|]);
    HeldIffLastClaimed(after);
  }

  /** What a facade settlement comes to on the stream. */
  ghost predicate SettleRecorded(before: seq<JobEvent>, after: seq<JobEvent>, settle: Settle) {
    match settle
    case Acknowledge => before + [Succeeded] == after && Folded(after) == Live(Done)
    case Retry(runAtMs, error) => RetriedAt(before, after, runAtMs, error)
    case Defer(runAtMs) => DeferredTo(before, after, runAtMs)
    case DeadLetter(reason, error) => DiedOf(before, after, reason, error)
  }

  /**
   A facade settlement is turned into a command exactly when its instant is representable
   and its attempt counter has room; and in every run, one that lands records what was asked.
   */
  lemma {:induction false} FacadeRecordsWhatWasAsked(actions: seq<Action>, j: JobId, s: Settlement, settle: Settle)
    ensures FacadeCommand(s.handle, settle).Ok? <==>
              && (settle.Retry? || settle.Defer? ==> IsInstant(settle.runAtMs))
              && (settle.Retry? ==> s.handle.attempt < MAX_U32)
    ensures var r := Run(actions);
            && j in r.jobs && s in r.jobs[j].settling && FacadeCommand(s.handle, settle) == Ok(s.command)
            && SettleTransaction(r.jobs[j].log, s).1.Some?
            ==> SettleRecorded(Events(r.jobs[j].log), Events(SettleTransaction(r.jobs[j].log, s).1.value), settle)
  {
    var r := Run(actions);
    if j in r.jobs && s in r.jobs[j].settling && FacadeCommand(s.handle, settle) == Ok(s.command) && SettleTransaction(r.jobs[j].log, s).1.Some? {
      LandedWithItsAttempt(actions, j, s);
      RecordedGrows(Events(r.jobs[j].log), Events(SettleTransaction(r.jobs[j].log, s).1.value), s.command);
    }
  }

  /**
   `is_final_attempt` promises a job that its failure will dead-letter it, and the ack
   decides. They agree on every transient failure exactly when the budget is positive.
   */
  lemma FinalAttemptAgreesWithAck(h: Handle, maxAttempts: nat, now: int, backoffMs: nat, error: string)
    ensures var command := AckCommand(h, maxAttempts, now, backoffMs, AckFailed(error));
            && (command.Kill? || command.RetrySchedule?)
            && ((IsFinalAttempt(h, maxAttempts) <==> command.Kill?) <==> maxAttempts > 0)
  {
  }

  ghost predicate NativeCommand(h: Handle, command: JobCommand, maxAttempts: nat) {
    exists now, backoffMs, plan :: command == AckCommand(h, maxAttempts, now, backoffMs, plan)
  }

  /** Runs whose settlements all come from workers with the retry budget `maxAttempts`. */
  ghost predicate NativeRun(actions: seq<Action>, maxAttempts: nat) {
    forall k :: 0 <= k < |actions| && actions[k].LoadJob? ==> NativeCommand(actions[k].handle, actions[k].command, maxAttempts)
  }

  predicate IsExhausted(event: JobEvent) {
    event.Dead? && event.reason == RetriesExhausted
  }

  ghost predicate RetriesWithin(r: JobRecord, maxAttempts: nat) {
    var events := Events(r.log);
    && (forall s :: s in r.settling ==> NativeCommand(s.handle, s.command, maxAttempts))
    && Retries(events) < maxAttempts
    && forall i :: 0 <= i < |events| && IsExhausted(events[i]) ==> Retries(events[..i]) + 1 == maxAttempts
  }

  lemma SettlementsComeFromLoads(r: JobRecord, running: bool, minted: set<ClaimId>, a: Action)
    ensures forall s :: s in JobNext(r, running, minted, a).settling ==>
              s in r.settling || (a.LoadJob? && s.handle == a.handle && s.command == a.command)
  {
  }

  lemma {:induction false} StepKeepsRetriesWithin(s: System, a: Action, j: JobId, maxAttempts: nat)
    requires Inv(s) && j in s.jobs && RetriesWithin(s.jobs[j], maxAttempts)
    requires a.LoadJob? ==> NativeCommand(a.handle, a.command, maxAttempts)
    ensures j in Next(s, a).jobs && RetriesWithin(Next(s, a).jobs[j], maxAttempts)
  {
    NextAt(s, a, j);
    StepGrowsLogByAtMostOne(s, a, j);
    var r, t := s.jobs[j], Next(s, a).jobs[j];
    SettlementsComeFromLoads(r, s.running, s.minted, a);
    if t.log != r.log {
      var event :| AppendedBy(r, a, event) && Events(t.log) == Events(r.log) + [event];
      AppendKeepsRetriesWithin(r, a, event, maxAttempts);
    }
  }

  lemma {:induction false} AppendKeepsRetriesWithin(r: JobRecord, a: Action, event: JobEvent, maxAttempts: nat)
    requires RetriesWithin(r, maxAttempts) && AppendedBy(r, a, event)
    ensures var grown := Events(r.log) + [event];
            && Retries(grown) < maxAttempts
            && forall i :: 0 <= i < |grown| && IsExhausted(grown[i]) ==> Retries(grown[..i]) + 1 == maxAttempts
  {
    var events := Events(r.log);
    var grown := events + [event];
    forall i | 0 <= i <= |events| ensures grown[..i] == events[..i] {}
    assert events[..|events|] == events;
    if event.RetryScheduled? || IsExhausted(event) {
      assert NativeCommand(a.settlement.handle, a.settlement.command, maxAttempts);
    }
  }

  lemma {:induction false} NativeRunsStayWithin(actions: seq<Action>, maxAttempts: nat, j: JobId)
    requires NativeRun(actions, maxAttempts) && maxAttempts >= 1 && j in Run(actions).jobs
    ensures RetriesWithin(Run(actions).jobs[j], maxAttempts)
  {
    if actions != [] {
      var before := actions[..|actions| - 1];
      var a := actions[|actions| - 1];
      RunKeepsInv(before);
      if j in Run(before).jobs {
        NativeRunsStayWithin(before, maxAttempts, j);
        StepKeepsRetriesWithin(Run(before), a, j, maxAttempts);
      } else {
        FreshLogIsEnqueued(Run(before), a, j);
        UnbornJobsOnlyEnqueue(Run(before).running, Run(before).minted, a);
      }
    }
  }

  /**
   Under workers with a retry budget of m >= 1, a job records at most m - 1 retries,
   its folded attempt is below m, and it dies of exhaustion exactly at its m-th failure.
   */
  lemma {:induction false} RetryBudget(actions: seq<Action>, maxAttempts: nat, j: JobId)
    requires NativeRun(actions, maxAttempts) && maxAttempts >= 1 && j in Run(actions).jobs
    ensures var events := Events(Run(actions).jobs[j].log);
            var state := Folded(events);
            && Retries(events) <= maxAttempts - 1
            && state.Live? && (state.entity.Pending? || state.entity.Held? ==> state.entity.attempt < maxAttempts)
            && forall i :: 0 <= i < |events| && IsExhausted(events[i]) ==> Retries(events[..i]) == maxAttempts - 1
  {
    NativeRunsStayWithin(actions, maxAttempts, j);
    AttemptCountsRetries(actions, j);
  }
}
