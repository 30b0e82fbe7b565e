/**
 An entity that dispatches a job: the dispatch machine embedded beside domain state of its
 own, with dispatch events and domain events interleaved on one stream. The domain state is
 the journal of all domain events, which any other domain state is a function of, and a
 domain command may emit any of them.
 */
module Origins {
  import opened Prelude
  import opened Outbox
  import opened Lifecycles
  import opened Dispatches

  datatype OriginEvent = Domain(data: string) | OfJob(dispatch: DispatchEvent)

  datatype Origin = Origin(machine: DispatchedJob, journal: seq<string>)

  /** Place the job, settle it, or do anything else. */
  datatype OriginCommand = Place(push: PendingPush, job: string) | Settle(verdict: Verdict) | Act(data: seq<string>)

  function OriginAfter(origin: Origin, event: OriginEvent): Option<Origin> {
    match event
    case Domain(data) => Some(origin.(journal := origin.journal + [data]))
    case OfJob(dispatch) =>
      match EvolveDispatch(origin.machine, dispatch)
      case None => None
      case Some(machine) => Some(origin.(machine := machine))
  }

  const FRESH := Origin(Idle, [])

  function OriginOriginate(event: OriginEvent): Option<Origin> {
    OriginAfter(FRESH, event)
  }

  function OriginEvolve(origin: Origin, event: OriginEvent): Result<Option<Origin>, DispatchRefused> {
    Ok(OriginAfter(origin, event))
  }

  function OriginInitialize(command: OriginCommand): Result<Effect<OriginEvent>, DispatchRefused> {
    OriginTransition(FRESH, command)
  }

  function OriginTransition(origin: Origin, command: OriginCommand): Result<Effect<OriginEvent>, DispatchRefused> {
    match command
    case Place(push, job) =>
      (match DispatchJob(origin.machine, push.jobId, job)
       case Ok(event) => Ok(Dispatch(OfJob(event), push))
       case Err(refused) => Err(refused))
    case Settle(verdict) =>
      (match SettleJob(origin.machine, verdict)
       case Ok(events) => Ok(Emit(OfJobs(events)))
       case Err(refused) => Err(refused))
    case Act(data) => Ok(Emit(Domains(data)))
  }

  function OfJobs(events: seq<DispatchEvent>): (origin: seq<OriginEvent>)
    ensures |origin| == |events|
  {
    seq(|events|, i requires 0 <= i < |events| => OfJob(events[i]))
  }

  function Domains(data: seq<string>): (events: seq<OriginEvent>)
    ensures |events| == |data|
  {
    seq(|data|, i requires 0 <= i < |data| => Domain(data[i]))
  }

  const ORIGIN: EventSourced<Origin, OriginEvent, OriginCommand, DispatchRefused> :=
    EventSourced(OriginOriginate, OriginEvolve, OriginInitialize, OriginTransition)

  type OriginLifecycle = Lifecycle<Origin, OriginEvent, DispatchRefused>

  function OriginFold(events: seq<OriginEvent>): OriginLifecycle {
    Replay(ORIGIN, events)
  }

  /** The machine behind a lifecycle; a fresh entity has dispatched nothing. */
  function Machine(l: OriginLifecycle): DispatchedJob {
    if l.Live? then l.entity.machine else Idle
  }

  /** The dispatch events of a stream, in order. */
  function JobEvents(events: seq<OriginEvent>): seq<DispatchEvent> {
    if events == [] then []
    else
      var before := JobEvents(events[..|events| - 1]);
      match events[|events| - 1]
      case Domain(_) => before
      case OfJob(dispatch) => before + [dispatch]
  }

  lemma JobEventsSnoc(events: seq<OriginEvent>, event: OriginEvent)
    ensures JobEvents(events + [event]) == if event.OfJob? then JobEvents(events) + [event.dispatch] else JobEvents(events)
  {
    assert (events + [event])[..|events|] == events;
  }

  lemma {:induction false} JobEventsOfPrefix(events: seq<OriginEvent>, n: nat)
    requires n <= |events|
    ensures JobEvents(events[..n]) <= JobEvents(events)
  {
    if n < |events| {
      var last := |events| - 1;
      assert events[..last][..n] == events[..n];
      JobEventsOfPrefix(events[..last], n);
    } else {
      assert events[..n] == events;
    }
  }

  lemma OriginFoldSnoc(events: seq<OriginEvent>, event: OriginEvent)
    ensures OriginFold(events + [event]) == Applied(ORIGIN, OriginFold(events), event)
  {
    FoldSnoc(ORIGIN, Uninitialized, events, event);
  }

  /** The embedded machine is the fold of the dispatch events alone, whatever is interleaved with them. */
  lemma {:induction false} MachineFollowsItsEvents(events: seq<OriginEvent>)
    ensures !OriginFold(events).Failed? <==> DispatchFold(JobEvents(events)).Some?
    ensures !OriginFold(events).Failed? ==> DispatchFold(JobEvents(events)) == Some(Machine(OriginFold(events)))
  {
    if events != [] {
      var last := |events| - 1;
      var before := events[..last];
      assert events == before + [events[last]];
      MachineFollowsItsEvents(before);
      OriginFoldSnoc(before, events[last]);
      JobEventsSnoc(before, events[last]);
      if events[last].OfJob? {
        DispatchFoldSnoc(JobEvents(before), events[last].dispatch);
      }
    }
  }

  /** An origin stream replays exactly when its dispatch events alternate, and its machine is read off the last of them. */
  lemma {:induction false} OriginReplaysIffAlternates(events: seq<OriginEvent>)
    ensures !OriginFold(events).Failed? <==> Alternates(JobEvents(events))
    ensures !OriginFold(events).Failed? ==> Machine(OriginFold(events)) == StateOf(JobEvents(events))
  {
    MachineFollowsItsEvents(events);
    ReplaysIffAlternates(JobEvents(events));
  }

  // ---------------------------------------------------------------- deciding

  /** What the guards alone decide. */
  function OriginDecision(l: OriginLifecycle, command: OriginCommand): Result<seq<OriginEvent>, Failure<Origin, OriginEvent, DispatchRefused>> {
    if l.Failed? then Err(l.error)
    else
      match command
      case Place(push, job) =>
        (match DispatchJob(Machine(l), push.jobId, job) case Ok(event) => Ok([OfJob(event)]) case Err(refused) => Err(Apply(refused)))
      case Settle(verdict) =>
        (match SettleJob(Machine(l), verdict) case Ok(events) => Ok(OfJobs(events)) case Err(refused) => Err(Apply(refused)))
      case Act(data) => Ok(Domains(data))
  }

  /** Domain events apply in every state that has not failed. */
  lemma {:induction false} DomainsApply(l: OriginLifecycle, data: seq<string>)
    requires !l.Failed?
    ensures !Fold(ORIGIN, l, Domains(data)).Failed?
  {
    if data != [] {
      var last := |data| - 1;
      DomainsApply(l, data[..last]);
      assert Domains(data) == Domains(data[..last]) + [Domain(data[last])];
      FoldSnoc(ORIGIN, l, Domains(data[..last]), Domain(data[last]));
    }
  }

  lemma OneApplies(l: OriginLifecycle, dispatch: DispatchEvent)
    requires !l.Failed? && EvolveDispatch(Machine(l), dispatch).Some?
    ensures !Fold(ORIGIN, l, [OfJob(dispatch)]).Failed?
  {
    assert [OfJob(dispatch)] == [] + [OfJob(dispatch)];
    FoldSnoc(ORIGIN, l, [], OfJob(dispatch));
  }

  /** Validating on a scratch copy never overrules the guards, in any state. */
  lemma GuardsDecide(l: OriginLifecycle, command: OriginCommand)
    ensures Handled(ORIGIN, l, command, true) == OriginDecision(l, command)
  {
    var decided := OriginDecision(l, command);
    if decided.Ok? {
      DecidedApplies(l, command);
      var k := Applicable(ORIGIN, l, decided.value);
      ReplayKeepsTheLongestApplicablePrefix(ORIGIN, l, decided.value);
      assert decided.value[..|decided.value|] == decided.value;
      assert k == |decided.value|;
    }
  }

  lemma DecidedApplies(l: OriginLifecycle, command: OriginCommand)
    requires OriginDecision(l, command).Ok?
    ensures !Fold(ORIGIN, l, OriginDecision(l, command).value).Failed?
  {
    match command
    case Place(push, job) => OneApplies(l, DispatchJob(Machine(l), push.jobId, job).value);
    case Settle(verdict) =>
      var events := SettleJob(Machine(l), verdict).value;
      SettlesExactly(Machine(l), verdict);
      if events != [] {
        OneApplies(l, VerdictEvent(verdict));
        assert OfJobs(events) == [OfJob(VerdictEvent(verdict))];
      }
    case Act(data) => DomainsApply(l, data);
  }

  /** A delivered verdict, new or absorbed, is on the stream afterwards. */
  lemma {:induction false} DeliveredVerdictIsRecorded(events: seq<OriginEvent>, verdict: Verdict)
    requires !OriginFold(events).Failed? && OriginDecision(OriginFold(events), Settle(verdict)).Ok?
    ensures var emitted := OriginDecision(OriginFold(events), Settle(verdict)).value;
            && (emitted == [] || emitted == [OfJob(VerdictEvent(verdict))])
            && Records(JobEvents(events + emitted), verdict)
  {
    OriginReplaysIffAlternates(events);
    AcceptedVerdictIsRecorded(JobEvents(events), verdict);
    var emitted := OriginDecision(OriginFold(events), Settle(verdict)).value;
    if emitted == [] {
      assert events + emitted == events && JobEvents(events) + [] == JobEvents(events);
    } else {
      JobEventsSnoc(events, emitted[0]);
    }
  }

  // ------------------------------------------ streams grown by the guards

  /** What one command, handled against the whole stream, leaves on it. */
  function Grown(events: seq<OriginEvent>, command: OriginCommand): seq<OriginEvent> {
    match Handled(ORIGIN, OriginFold(events), command, true)
    case Ok(emitted) => events + emitted
    case Err(_) => events
  }

  /**
   A dispatch is accepted exactly on a stream that has none open and none confirmed: before
   the first, or after a failed one. It then adds its own event; otherwise the stream stays
   as it is and the answer says which of the two it was.
   */
  lemma {:induction false} PlaceAcceptedExactly(events: seq<OriginEvent>, push: PendingPush, job: string)
    requires Alternates(JobEvents(events))
    ensures var jobs := JobEvents(events);
            var answer := Handled(ORIGIN, OriginFold(events), Place(push, job), true);
            var grown := Grown(events, Place(push, job));
            if jobs == [] || jobs[|jobs| - 1].JobFailed? then grown == events + [OfJob(JobDispatched(push.jobId, job))]
            else
              && grown == events
              && answer == Err(Apply(if jobs[|jobs| - 1].JobDispatched? then AlreadyInFlight else AlreadyConfirmed))
  {
    OriginReplaysIffAlternates(events);
    GuardsDecide(OriginFold(events), Place(push, job));
  }

  /** The dispatch in flight is this job's. */
  ghost predicate OpenFor(jobs: seq<DispatchEvent>, jobId: JobId) {
    jobs != [] && jobs[|jobs| - 1].JobDispatched? && jobs[|jobs| - 1].jobId == jobId
  }

  /** The last dispatch event is a verdict of this kind for this job. */
  ghost predicate AlreadyTold(jobs: seq<DispatchEvent>, verdict: Verdict) {
    && jobs != []
    && (match verdict
        case Confirm(success) => jobs[|jobs| - 1].JobConfirmed? && jobs[|jobs| - 1].success.jobId == success.jobId
        case Fail(defeat) => jobs[|jobs| - 1].JobFailed? && jobs[|jobs| - 1].defeat.jobId == defeat.jobId)
  }

  /**
   A verdict is recorded, whole, exactly while the job it names is the one in flight; it is
   absorbed when the last verdict was of its kind and for its job; and refused otherwise.
   */
  lemma {:induction false} VerdictAcceptedExactly(events: seq<OriginEvent>, verdict: Verdict)
    requires Alternates(JobEvents(events))
    ensures var jobs := JobEvents(events);
            var answer := Handled(ORIGIN, OriginFold(events), Settle(verdict), true);
            var grown := Grown(events, Settle(verdict));
            match verdict
            case Confirm(success) =>
              if OpenFor(jobs, success.jobId) then grown == events + [OfJob(JobConfirmed(success))]
              else grown == events && answer == if AlreadyTold(jobs, verdict) then Ok([]) else Err(Apply(OutcomeMismatch))
            case Fail(defeat) =>
              if OpenFor(jobs, defeat.jobId) then grown == events + [OfJob(JobFailed(defeat))]
              else grown == events && answer == if AlreadyTold(jobs, verdict) then Ok([]) else Err(Apply(OutcomeMismatch))
  {
    OriginReplaysIffAlternates(events);
    GuardsDecide(OriginFold(events), Settle(verdict));
    var emitted := SettleJob(Machine(OriginFold(events)), verdict);
    if emitted.Ok? {
      assert |emitted.value| == 1 ==> OfJobs(emitted.value) == [OfJob(emitted.value[0])];
      assert events + [] == events;
    }
  }

  /** A domain command is always accepted and adds its events in order. */
  lemma {:induction false} DomainAcceptedAlways(events: seq<OriginEvent>, data: seq<string>)
    requires Alternates(JobEvents(events))
    ensures var grown := Grown(events, Act(data));
            && |grown| == |events| + |data| && events <= grown
            && forall i :: 0 <= i < |data| ==> grown[|events| + i] == Domain(data[i])
  {
    OriginReplaysIffAlternates(events);
    GuardsDecide(OriginFold(events), Act(data));
  }

  /** What the domain events of a stream say, in order. */
  function DomainData(events: seq<OriginEvent>): seq<string> {
    if events == [] then []
    else
      var before := DomainData(events[..|events| - 1]);
      match events[|events| - 1]
      case Domain(data) => before + [data]
      case OfJob(_) => before
  }

  /** The domain state is that of the domain events alone, whatever dispatch events are interleaved. */
  lemma {:induction false} JournalFollowsItsEvents(events: seq<OriginEvent>)
    requires OriginFold(events).Live?
    ensures OriginFold(events).entity.journal == DomainData(events)
  {
    var last := |events| - 1;
    var before := events[..last];
    assert events == before + [events[last]];
    OriginFoldSnoc(before, events[last]);
    if before != [] {
      PrefixesOfLiveReplayAreLive(ORIGIN, events, last);
      NonEmptyOriginIsLive(before);
      JournalFollowsItsEvents(before);
    }
  }

  lemma NonEmptyOriginIsLive(events: seq<OriginEvent>)
    requires events != [] && !OriginFold(events).Failed?
    ensures OriginFold(events).Live?
  {
    var last := |events| - 1;
    assert events == events[..last] + [events[last]];
    OriginFoldSnoc(events[..last], events[last]);
  }

  function Stream(commands: seq<OriginCommand>): seq<OriginEvent> {
    if commands == [] then []
    else Grown(Stream(commands[..|commands| - 1]), commands[|commands| - 1])
  }

  lemma {:induction false} StreamReplays(commands: seq<OriginCommand>)
    ensures !OriginFold(Stream(commands)).Failed?
  {
    if commands != [] {
      var before := Stream(commands[..|commands| - 1]);
      StreamReplays(commands[..|commands| - 1]);
      GrownReplays(before, commands[|commands| - 1]);
    }
  }

  lemma GrownReplays(events: seq<OriginEvent>, command: OriginCommand)
    requires !OriginFold(events).Failed?
    ensures !OriginFold(Grown(events, command)).Failed?
  {
    var handled := Handled(ORIGIN, OriginFold(events), command, true);
    if handled.Ok? {
      FoldConcat(ORIGIN, Uninitialized, events, handled.value);
    }
  }

  /** Delivering the same verdict twice changes nothing the second time. */
  lemma {:induction false} SecondDeliveryIsAbsorbed(events: seq<OriginEvent>, verdict: Verdict)
    requires !OriginFold(events).Failed?
    ensures Grown(Grown(events, Settle(verdict)), Settle(verdict)) == Grown(events, Settle(verdict))
  {
    GuardsDecide(OriginFold(events), Settle(verdict));
    var grown := Grown(events, Settle(verdict));
    if OriginDecision(OriginFold(events), Settle(verdict)).Ok? {
      GrownReplays(events, Settle(verdict));
      GuardsDecide(OriginFold(grown), Settle(verdict));
      SettledTwice(events, verdict);
    }
  }

  lemma {:induction false} SettledTwice(events: seq<OriginEvent>, verdict: Verdict)
    requires !OriginFold(events).Failed? && OriginDecision(OriginFold(events), Settle(verdict)).Ok?
    requires !OriginFold(events + OriginDecision(OriginFold(events), Settle(verdict)).value).Failed?
    ensures var grown := events + OriginDecision(OriginFold(events), Settle(verdict)).value;
            OriginDecision(OriginFold(grown), Settle(verdict)) == Ok([]) && grown + [] == grown
  {
    var emitted := OriginDecision(OriginFold(events), Settle(verdict)).value;
    var grown := events + emitted;
    OriginReplaysIffAlternates(events);
    OriginReplaysIffAlternates(grown);
    SettlesExactly(StateOf(JobEvents(events)), verdict);
    SettlesExactly(StateOf(JobEvents(grown)), verdict);
    if emitted == [] {
      assert grown == events;
    } else {
      assert emitted == [OfJob(VerdictEvent(verdict))];
      JobEventsSnoc(events, emitted[0]);
    }
  }

  /**
   Every stream commands can produce, with any domain events in between, replays; its
   dispatch events alternate; and a verdict delivered twice changes nothing the second time.
   */
  lemma {:induction false} CommandsKeepTheGrammar(commands: seq<OriginCommand>, verdict: Verdict)
    ensures var events := Stream(commands);
            && !OriginFold(events).Failed? && Alternates(JobEvents(events))
            && Grown(Grown(events, Settle(verdict)), Settle(verdict)) == Grown(events, Settle(verdict))
  {
    StreamReplays(commands);
    OriginReplaysIffAlternates(Stream(commands));
    SecondDeliveryIsAbsorbed(Stream(commands), verdict);
  }
}

/**
 Deliveries to an origin whose events may be compacted: a verdict commits without an
 expected version, so being accepted does not mean being loaded.
 */
module OriginCommits {
  import opened Prelude
  import opened EventTable
  import opened Lifecycles
  import EventStore
  import opened NativeCommits
  import opened Dispatches
  import opened Origins

  type OriginStream = EventStore.Stream<Origin, OriginEvent, DispatchRefused>

  /** What delivering one verdict sends, from a worker that loaded the first `version` events. */
  function VerdictCommit(size: SnapshotSize, history: seq<OriginEvent>, version: nat, verdict: Verdict, snapshotVersion: nat)
    : EventStore.CommitRequest<Origin, OriginEvent, DispatchRefused>
    requires version <= |history|
  {
    var events := [OfJob(VerdictEvent(verdict))];
    EventStore.CommitRequest(None, Wrapped(events, version),
                             SnapshotTaken(ORIGIN, size, version, OriginFold(history[..version]), events, snapshotVersion))
  }

  /** The events a load sees once that commit was accepted. */
  function SeenAfter(size: SnapshotSize, rows: seq<Stored<OriginEvent>>, history: seq<OriginEvent>, version: nat, event: OriginEvent): seq<OriginEvent>
    requires version <= |history|
  {
    if version == |history| then history + [event]
    else if Due(size, version + 1) then history[..version] + [event] + Events(rows)
    else history
  }

  /**
   An accepted verdict is loaded afterwards exactly when its worker held the current version
   or its commit took a snapshot; otherwise loads see it only if it was on record before.
   */
  lemma {:induction false} AcceptedVerdictIsLoadedExactly(
    size: SnapshotSize, st: OriginStream, history: seq<OriginEvent>, version: nat, verdict: Verdict, snapshotVersion: nat)
    requires EventStore.StreamInv(ORIGIN, st, history) && version <= |history|
    requires EventStore.Committed(st, VerdictCommit(size, history, version, verdict, snapshotVersion)).Ok?
    ensures var after := EventStore.Committed(st, VerdictCommit(size, history, version, verdict, snapshotVersion)).value;
            var seen := SeenAfter(size, st.rows, history, version, OfJob(VerdictEvent(verdict)));
            && EventStore.Loaded(ORIGIN, after) == OriginFold(seen)
            && (Records(JobEvents(seen), verdict) <==>
                  version == |history| || Due(size, version + 1) || Records(JobEvents(history), verdict))
  {
    var event := OfJob(VerdictEvent(verdict));
    var seen := SeenAfter(size, st.rows, history, version, event);
    if version == |history| {
      CurrentVerdictLoads(size, st, history, verdict, snapshotVersion);
      RecordedOnceSeen(seen, |history|, verdict);
    } else {
      StaleVerdictLoads(size, st, history, version, verdict, snapshotVersion);
      if Due(size, version + 1) {
        RecordedOnceSeen(seen, version, verdict);
      }
    }
  }

  lemma {:induction false} CurrentVerdictLoads(size: SnapshotSize, st: OriginStream, history: seq<OriginEvent>, verdict: Verdict, snapshotVersion: nat)
    requires EventStore.StreamInv(ORIGIN, st, history)
    ensures var done := EventStore.Committed(st, VerdictCommit(size, history, |history|, verdict, snapshotVersion));
            done.Ok? && EventStore.Loaded(ORIGIN, done.value) == OriginFold(history + [OfJob(VerdictEvent(verdict))])
  {
    var events := [OfJob(VerdictEvent(verdict))];
    assert history[..|history|] == history;
    WholeCommitKeepsStream(ORIGIN, size, st, history, events, snapshotVersion);
    var done := EventStore.Committed(st, VerdictCommit(size, history, |history|, verdict, snapshotVersion));
    EventStore.LoadedIsFullReplay(ORIGIN, done.value, history + events);
  }

  lemma {:induction false} StaleVerdictLoads(
    size: SnapshotSize, st: OriginStream, history: seq<OriginEvent>, version: nat, verdict: Verdict, snapshotVersion: nat)
    requires EventStore.StreamInv(ORIGIN, st, history) && version < |history|
    requires EventStore.Committed(st, VerdictCommit(size, history, version, verdict, snapshotVersion)).Ok?
    ensures var after := EventStore.Committed(st, VerdictCommit(size, history, version, verdict, snapshotVersion)).value;
            EventStore.Loaded(ORIGIN, after) == OriginFold(SeenAfter(size, st.rows, history, version, OfJob(VerdictEvent(verdict))))
  {
    var events := [OfJob(VerdictEvent(verdict))];
    var batch := Wrapped(events, version);
    assert Events(batch)[..1] == events && events[..1] == events;
    if Due(size, version + 1) {
      StaleSnapshotLosesOthersEvents(ORIGIN, st, history, version, batch, 1, snapshotVersion);
    } else {
      StaleCommitLosesItsOwnEvents(ORIGIN, st, history, version, batch);
      SkipLow(batch, [], |history|);
      assert batch + [] == batch;
    }
  }

  /** A verdict anywhere among the events is recorded among the dispatch events. */
  lemma {:induction false} RecordedOnceSeen(events: seq<OriginEvent>, i: nat, verdict: Verdict)
    requires i < |events| && events[i] == OfJob(VerdictEvent(verdict))
    ensures Records(JobEvents(events), verdict)
  {
    JobEventsOfPrefix(events, i + 1);
    var upTo := events[..i + 1];
    assert upTo == events[..i] + [events[i]];
    JobEventsSnoc(events[..i], events[i]);
    var at := |JobEvents(upTo)| - 1;
    assert JobEvents(events)[at] == VerdictEvent(verdict);
  }

  /** The smallest lost confirmation: the origin accepts it, and keeps showing the job in flight. */
  lemma LostConfirmation(job: string, other: string, success: Success)
    ensures var history := [OfJob(JobDispatched(success.jobId, job)), Domain(other)];
            var st := EventStore.Stream([], Some(EventStore.Snapshot(OriginFold(history), 2, 1)));
            var done := EventStore.Committed(st, VerdictCommit(10, history, 1, Confirm(success), 1));
            && OriginDecision(OriginFold(history[..1]), Settle(Confirm(success))) == Ok([OfJob(JobConfirmed(success))])
            && done.Ok? && Machine(EventStore.Loaded(ORIGIN, done.value)) == InFlight(success.jobId)
  {
    var placed := OfJob(JobDispatched(success.jobId, job));
    var history := [placed, Domain(other)];
    assert history[..1] == [] + [placed] && history == [placed] + [Domain(other)];
    OriginFoldSnoc([], placed);
    OriginFoldSnoc([placed], Domain(other));
    assert OfJobs([JobConfirmed(success)]) == [OfJob(JobConfirmed(success))];
    LostWriteExample(ORIGIN, placed, Domain(other), OfJob(JobConfirmed(success)));
    assert Wrapped([OfJob(JobConfirmed(success))], 1) == [Stored(2, OfJob(JobConfirmed(success)))];
  }
}
