/**
 A durable job as an event-sourced aggregate: its events, the folded state, the
 fenced settlement commands, and the pure claim planner.
 */
module Jobs {
  import opened Prelude
  import opened Outbox
  import opened Lifecycles

  type ClaimId = nat

  /** The millisecond instants chrono represents: years -262143 to 262142. */
  const EARLIEST_INSTANT: int := -8_334_601_228_800_000
  const LATEST_INSTANT: int := 8_210_266_876_799_999

  predicate IsInstant(ms: int) {
    EARLIEST_INSTANT <= ms <= LATEST_INSTANT
  }

  datatype DeadReason = RetriesExhausted | Rejected | Undecodable | Abandoned

  datatype JobEvent =
    | Enqueued(kind: string, payload: string, runAt: int)
    | Claimed(worker: string, claimId: ClaimId, leaseUntil: int)
    | Succeeded
    | RetryScheduled(runAt: int, attempt: nat, error: string)
    | Rescheduled(runAt: int)
    | Dead(reason: DeadReason, error: string)

  datatype JobState =
    | Pending(kind: string, payload: string, runAt: int, attempt: nat, claims: nat)
    | Held(kind: string, payload: string, worker: string, claimId: ClaimId, runAt: int, attempt: nat, claims: nat)
    | Done
    | Buried(reason: DeadReason)

  datatype JobCommand =
    | Succeed(claimId: ClaimId)
    | RetrySchedule(claimId: ClaimId, runAt: int, attempt: nat, error: string)
    | Reschedule(claimId: ClaimId, runAt: int)
    | Kill(claimId: ClaimId, reason: DeadReason, error: string)

  datatype JobError = Fenced

  function Originate(event: JobEvent): Option<JobState> {
    match event
    case Enqueued(kind, payload, runAt) => Some(Pending(kind, payload, runAt, 0, 0))
    case _ => None
  }

  function Evolve(entity: JobState, event: JobEvent): Result<Option<JobState>, JobError> {
    Ok(match (entity, event)
       case (Pending(kind, payload, runAt, attempt, claims), Claimed(worker, claimId, _)) =>
         Some(Held(kind, payload, worker, claimId, runAt, attempt, claims + 1))
       case (Held(kind, payload, _, _, runAt, attempt, claims), Claimed(worker, claimId, _)) =>
         Some(Held(kind, payload, worker, claimId, runAt, attempt, claims + 1))
       case (Held(_, _, _, _, _, _, _), Succeeded) => Some(Done)
       case (Held(kind, payload, _, _, _, _, claims), RetryScheduled(runAt, attempt, _)) =>
         Some(Pending(kind, payload, runAt, attempt, claims))
       case (Held(kind, payload, _, _, _, attempt, _), Rescheduled(runAt)) =>
         Some(Pending(kind, payload, runAt, attempt, 0))
       case (Pending(_, _, _, _, _), Dead(reason, _)) => Some(Buried(reason))
       case (Held(_, _, _, _, _, _, _), Dead(reason, _)) => Some(Buried(reason))
       case _ => None)
  }

  /** A settlement of a job with no stream emits nothing. */
  function Initialize(command: JobCommand): Result<Effect<JobEvent>, JobError> {
    Ok(Emit([]))
  }

  function Transition(entity: JobState, command: JobCommand): Result<Effect<JobEvent>, JobError> {
    if !entity.Held? || entity.claimId != command.claimId then Err(Fenced)
    else Ok(Emit([Outcome(command)]))
  }

  function Outcome(command: JobCommand): JobEvent {
    match command
    case Succeed(_) => Succeeded
    case RetrySchedule(_, runAt, attempt, error) => RetryScheduled(runAt, attempt, error)
    case Reschedule(_, runAt) => Rescheduled(runAt)
    case Kill(_, reason, error) => Dead(reason, error)
  }

  type JobLifecycle = Lifecycle<JobState, JobEvent, JobError>

  const JOB: EventSourced<JobState, JobEvent, JobCommand, JobError> :=
    EventSourced(Originate, Evolve, Initialize, Transition)

  function Folded(events: seq<JobEvent>): JobLifecycle {
    Replay(JOB, events)
  }

  /** The events a settlement may append to a job it loaded in state `l`. */
  function Settled(l: JobLifecycle, command: JobCommand): Result<seq<JobEvent>, Failure<JobState, JobEvent, JobError>> {
    Handled(JOB, l, command, true)
  }

  lemma FoldedSnoc(events: seq<JobEvent>, event: JobEvent)
    ensures Folded(events + [event]) == Applied(JOB, Folded(events), event)
  {
    FoldSnoc(JOB, Uninitialized, events, event);
  }

  /** A held job applies any outcome, so scratch validation lets it through. */
  lemma OutcomeApplies(state: JobState, command: JobCommand)
    requires state.Held?
    ensures var events := [Outcome(command)]; Applicable(JOB, JobLifecycle.Live(state), events) == 1
  {
    var events := [Outcome(command)];
    assert events[..0] == [] && events[..1] == events;
    assert Fold(JOB, JobLifecycle.Live(state), events) == Applied(JOB, JobLifecycle.Live(state), events[0]);
  }

  /** Both fences of a settlement's handler: it emits its outcome exactly when it holds the claim. */
  lemma SettledExactlyWhenHeld(l: JobLifecycle, command: JobCommand)
    ensures l.Live? ==>
              Settled(l, command) ==
                if l.entity.Held? && l.entity.claimId == command.claimId then Ok([Outcome(command)])
                else Err(Apply(Fenced))
    ensures l.Uninitialized? ==> Settled(l, command) == Ok([])
    ensures l.Failed? ==> Settled(l, command) == Err(l.error)
  {
    if l.Live? && l.entity.Held? && l.entity.claimId == command.claimId {
      OutcomeApplies(l.entity, command);
    }
  }

  predicate IsOutcome(event: JobEvent) {
    !event.Enqueued? && !event.Claimed?
  }

  predicate IsTerminal(event: JobEvent) {
    event.Succeeded? || event.Dead?
  }

  // ---------------------------------------------------------------- claims

  /** What a claim transaction re-reads; `payload` is `None` when it does not decode. */
  datatype ClaimRead = ClaimRead(version: nat, payload: Option<JobLifecycle>, leaseUntil: Option<int>)

  datatype WonClaim = WonClaim(claimSeq: nat, claimId: ClaimId, attempt: nat, args: string)

  datatype ClaimDecision =
    | Skip
    | Claim(sequence: nat, event: JobEvent, payload: JobLifecycle, leaseUntil: int, won: WonClaim)
    | Abandon(sequence: nat, event: JobEvent, payload: JobLifecycle)

  predicate Runnable(state: JobState, leaseUntil: Option<int>, now: int) {
    match state
    case Pending(_, _, runAt, _, _) => runAt <= now
    case Held(_, _, _, _, _, _, _) => leaseUntil.None? || leaseUntil.value < now
    case Done => false
    case Buried(_) => false
  }

  const BUDGET_EXHAUSTED := Dead(Abandoned, "claim budget exhausted")

  /** `claimId` is the id a winning claim mints. */
  function PlanClaim(read: Option<ClaimRead>, worker: string, now: int, lease: int, maxClaims: nat, claimId: ClaimId)
    : ClaimDecision
  {
    if read.None? || read.value.payload.None? || !read.value.payload.value.Live? then Skip
    else
      var state := read.value.payload.value.entity;
      if !Runnable(state, read.value.leaseUntil, now) then Skip
      else
        var sequence := read.value.version + 1;
        if state.claims >= maxClaims then Abandon(sequence, BUDGET_EXHAUSTED, Live(Buried(Abandoned)))
        else if !IsInstant(now + lease) then Skip
        else
          Claim(sequence,
                Claimed(worker, claimId, now + lease),
                Live(Held(state.kind, state.payload, worker, claimId, state.runAt, state.attempt, state.claims + 1)),
                now + lease,
                WonClaim(sequence, claimId, state.attempt, state.payload))
  }

  // ------------------------------------------------- shapes of live streams

  function Retries(events: seq<JobEvent>): nat {
    if events == [] then 0
    else Retries(events[..|events| - 1]) + if events[|events| - 1].RetryScheduled? then 1 else 0
  }

  /** `Claimed` events since the last defer. */
  function ClaimsSinceDefer(events: seq<JobEvent>): nat {
    if events == [] then 0
    else
      var last := events[|events| - 1];
      if last.Rescheduled? then 0
      else ClaimsSinceDefer(events[..|events| - 1]) + if last.Claimed? then 1 else 0
  }

  /** Every retry event carries its own ordinal. */
  ghost predicate AttemptsOrdinal(events: seq<JobEvent>) {
    forall i :: 0 <= i < |events| && events[i].RetryScheduled? ==> events[i].attempt == Retries(events[..i + 1])
  }

  ghost predicate ClaimIdsUnique(events: seq<JobEvent>) {
    forall i, j :: 0 <= i < j < |events| && events[i].Claimed? && events[j].Claimed? ==>
      events[i].claimId != events[j].claimId
  }

  /** The claim a stream was held under just before its event `i`. */
  function HolderBefore(events: seq<JobEvent>, i: nat): Option<ClaimId>
    requires i <= |events|
  {
    var l := Folded(events[..i]);
    if l.Live? && l.entity.Held? then Some(l.entity.claimId) else None
  }

  /** A job is held exactly when its last event is a claim, and then under that claim. */
  lemma HeldIffLastClaimed(events: seq<JobEvent>)
    requires Folded(events).Live?
    ensures events != []
    ensures Folded(events).entity.Held? <==> events[|events| - 1].Claimed?
    ensures Folded(events).entity.Held? ==> Folded(events).entity.claimId == events[|events| - 1].claimId
  {
    var last := |events| - 1;
    assert events == events[..last] + [events[last]];
    FoldedSnoc(events[..last], events[last]);
  }

  /** The first event enqueues, no later one does, and a terminal event is the last. */
  lemma {:induction false} LiveStreamShape(events: seq<JobEvent>, i: nat)
    requires Folded(events).Live? && i < |events|
    ensures events[i].Enqueued? <==> i == 0
    ensures IsTerminal(events[i]) ==> i == |events| - 1
    ensures IsOutcome(events[i]) && !events[i].Dead? ==> 0 < i && events[i - 1].Claimed?
  {
    var before := events[..i];
    assert events[..i + 1] == before + [events[i]];
    FoldedSnoc(before, events[i]);
    PrefixesOfLiveReplayAreLive(JOB, events, i);
    PrefixesOfLiveReplayAreLive(JOB, events, i + 1);
    if i > 0 {
      NonEmptyLiveIsLive(before);
      HeldIffLastClaimed(before);
    }
    if i + 1 < |events| {
      PrefixesOfLiveReplayAreLive(JOB, events, i + 2);
      assert events[..i + 2] == events[..i + 1] + [events[i + 1]];
      FoldedSnoc(events[..i + 1], events[i + 1]);
    }
  }

  lemma {:induction false} NonEmptyLiveIsLive(events: seq<JobEvent>)
    requires !Folded(events).Failed? && events != []
    ensures Folded(events).Live?
  {
    var last := |events| - 1;
    assert events == events[..last] + [events[last]];
    FoldedSnoc(events[..last], events[last]);
  }

  lemma OrdinalPrefix(events: seq<JobEvent>, n: nat)
    requires AttemptsOrdinal(events) && n <= |events|
    ensures AttemptsOrdinal(events[..n])
  {
    forall i | 0 <= i < n && events[i].RetryScheduled? ensures events[i].attempt == Retries(events[..n][..i + 1]) {
      assert events[..n][..i + 1] == events[..i + 1];
    }
  }

  /** When the job was last scheduled to run. */
  function ScheduledAt(events: seq<JobEvent>): int {
    if events == [] then 0
    else
      match events[|events| - 1]
      case Enqueued(_, _, runAt) => runAt
      case RetryScheduled(runAt, _, _) => runAt
      case Rescheduled(runAt) => runAt
      case _ => ScheduledAt(events[..|events| - 1])
  }

  /** The state a job must be in, read off its stream without folding it. */
  function ReadOff(events: seq<JobEvent>): JobState
    requires events != [] && events[0].Enqueued?
  {
    match events[|events| - 1]
    case Succeeded => Done
    case Dead(reason, _) => Buried(reason)
    case Claimed(worker, claimId, _) =>
      Held(events[0].kind, events[0].payload, worker, claimId, ScheduledAt(events), Retries(events), ClaimsSinceDefer(events))
    case _ => Pending(events[0].kind, events[0].payload, ScheduledAt(events), Retries(events), ClaimsSinceDefer(events))
  }

  /** One applicable event moves the folded state as it moves the stream. */
  lemma ReadOffFollows(before: seq<JobEvent>, event: JobEvent)
    requires before != [] && before[0].Enqueued?
    requires Evolve(ReadOff(before), event).value.Some?
    requires event.RetryScheduled? ==> event.attempt == Retries(before) + 1
    ensures Evolve(ReadOff(before), event) == Ok(Some(ReadOff(before + [event])))
  {
    assert (before + [event])[..|before|] == before;
  }

  /** A live fold is exactly the state read off the stream: its job, its schedule, its holder and its counters. */
  lemma {:induction false} FoldedIsReadOff(events: seq<JobEvent>)
    requires Folded(events).Live? && AttemptsOrdinal(events)
    ensures events != [] && events[0].Enqueued? && Folded(events).entity == ReadOff(events)
  {
    HeldIffLastClaimed(events);
    var last := |events| - 1;
    var before := events[..last];
    assert events == before + [events[last]];
    FoldedSnoc(before, events[last]);
    if before == [] {
      ReadOffStarts(events[0]);
      assert events == [events[0]];
    } else {
      PrefixesOfLiveReplayAreLive(JOB, events, last);
      NonEmptyLiveIsLive(before);
      OrdinalPrefix(events, last);
      FoldedIsReadOff(before);
      LastOrdinal(events);
      ReadOffFollows(before, events[last]);
    }
  }

  lemma ReadOffStarts(event: JobEvent)
    ensures event.Enqueued? ==> Originate(event) == Some(ReadOff([event]))
    ensures Originate(event).Some? ==> event.Enqueued?
  {
    if event.Enqueued? {
      assert [event][..0] == [];
      assert Retries([event]) == 0 && ClaimsSinceDefer([event]) == 0 && ScheduledAt([event]) == event.runAt;
    }
  }

  lemma RetriesSnoc(events: seq<JobEvent>, event: JobEvent)
    ensures Retries(events + [event]) == Retries(events) + if event.RetryScheduled? then 1 else 0
  {
    assert (events + [event])[..|events|] == events;
  }

  lemma LastOrdinal(events: seq<JobEvent>)
    requires AttemptsOrdinal(events) && events != []
    ensures events[|events| - 1].RetryScheduled? ==> events[|events| - 1].attempt == Retries(events[..|events| - 1]) + 1
  {
    assert events[..|events|] == events;
  }

  /** The folded counters are the counts of the stream they were folded from. */
  lemma {:induction false} FoldedCounters(events: seq<JobEvent>)
    requires Folded(events).Live? && AttemptsOrdinal(events)
    ensures var state := Folded(events).entity;
            state.Pending? || state.Held? ==>
              && state.attempt == Retries(events)
              && state.claims == ClaimsSinceDefer(events)
  {
    FoldedIsReadOff(events);
  }

  // ------------------------------------------------------------ the grammar

  /** What may stand at position `i` of a job stream. */
  ghost predicate FitsJob(events: seq<JobEvent>, i: nat)
    requires i < |events|
  {
    if i == 0 then events[i].Enqueued?
    else
      && !events[i].Enqueued? && !IsTerminal(events[i - 1])
      && (IsOutcome(events[i]) && !events[i].Dead? ==> events[i - 1].Claimed?)
  }

  ghost predicate WellFormed(events: seq<JobEvent>) {
    events != [] && forall i :: 0 <= i < |events| ==> FitsJob(events, i)
  }

  /** A stream folds to a live job exactly when it is well formed. */
  lemma {:induction false} LiveExactlyWhenWellFormed(events: seq<JobEvent>)
    ensures Folded(events).Live? <==> WellFormed(events)
  {
    if Folded(events).Live? {
      HeldIffLastClaimed(events);
      forall i | 0 <= i < |events| ensures FitsJob(events, i) {
        LiveStreamShape(events, i);
        if i > 0 {
          LiveStreamShape(events, i - 1);
        }
      }
    }
    if WellFormed(events) {
      WellFormedFolds(events);
    }
  }

  lemma {:induction false} WellFormedFolds(events: seq<JobEvent>)
    requires WellFormed(events)
    ensures Folded(events).Live?
    ensures Folded(events).entity.Done? || Folded(events).entity.Buried? <==> IsTerminal(events[|events| - 1])
  {
    var last := |events| - 1;
    var before := events[..last];
    assert events == before + [events[last]];
    FoldedSnoc(before, events[last]);
    assert FitsJob(events, last);
    if before != [] {
      forall i | 0 <= i < |before| ensures FitsJob(before, i) {
        assert FitsJob(events, i);
      }
      WellFormedFolds(before);
      HeldIffLastClaimed(before);
      FittingEventApplies(Folded(before).entity, before[last - 1], events[last]);
    }
  }

  lemma FittingEventApplies(state: JobState, previous: JobEvent, event: JobEvent)
    requires !state.Done? && !state.Buried? && (state.Held? <==> previous.Claimed?)
    requires !event.Enqueued? && (IsOutcome(event) && !event.Dead? ==> previous.Claimed?)
    ensures var next := Evolve(state, event).value; next.Some? && (next.value.Done? || next.value.Buried? <==> IsTerminal(event))
  {
  }

  ghost predicate NeverDeferred(events: seq<JobEvent>) {
    forall i :: 0 <= i < |events| ==> !events[i].Rescheduled?
  }

  /** Without a defer, a stream is at most twice as long as its claim count, plus two. */
  lemma {:induction false} StreamLengthFollowsClaims(events: seq<JobEvent>)
    requires Folded(events).Live? && NeverDeferred(events)
    ensures var state := Folded(events).entity;
            var claims := ClaimsSinceDefer(events);
            && (state.Held? ==> |events| <= 2 * claims)
            && (state.Pending? ==> |events| <= 2 * claims + 1)
            && |events| <= 2 * claims + 2
  {
    var last := |events| - 1;
    var before := events[..last];
    HeldIffLastClaimed(events);
    assert events == before + [events[last]];
    FoldedSnoc(before, events[last]);
    if before != [] {
      PrefixesOfLiveReplayAreLive(JOB, events, last);
      NonEmptyLiveIsLive(before);
      StreamLengthFollowsClaims(before);
    }
  }
}
