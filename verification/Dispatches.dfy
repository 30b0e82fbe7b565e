/**
 The state an origin entity keeps for a job it dispatched, the events that record
 its lifecycle, and the guards on dispatching and settling.
 */
module Dispatches {
  import opened Prelude
  import opened Outbox
  import opened Lifecycles
  import opened Jobs

  datatype Success = Success(jobId: JobId, output: string, attempts: nat)

  datatype DispatchFailure = DomainRejected(error: string) | DeadLettered(reason: DeadReason, detail: string)

  datatype Defeat = Defeat(jobId: JobId, failure: DispatchFailure, attempts: nat)

  datatype DispatchedJob =
    | Idle
    | InFlight(jobId: JobId)
    | SettledOk(success: Success)
    | SettledFailed(defeat: Defeat)

  datatype DispatchEvent =
    | JobDispatched(jobId: JobId, job: string)
    | JobConfirmed(success: Success)
    | JobFailed(defeat: Defeat)

  datatype Verdict = Confirm(success: Success) | Fail(defeat: Defeat)

  datatype DispatchRefused = AlreadyInFlight | AlreadyConfirmed | OutcomeMismatch

  function VerdictJob(verdict: Verdict): JobId {
    match verdict
    case Confirm(success) => success.jobId
    case Fail(defeat) => defeat.jobId
  }

  function VerdictAttempts(verdict: Verdict): nat {
    match verdict
    case Confirm(success) => success.attempts
    case Fail(defeat) => defeat.attempts
  }

  function VerdictEvent(verdict: Verdict): DispatchEvent {
    match verdict
    case Confirm(success) => JobConfirmed(success)
    case Fail(defeat) => JobFailed(defeat)
  }

  /** `jobId` is the id the kick-off mints. */
  function DispatchJob(state: DispatchedJob, jobId: JobId, job: string): Result<DispatchEvent, DispatchRefused> {
    match state
    case Idle => Ok(JobDispatched(jobId, job))
    case SettledFailed(_) => Ok(JobDispatched(jobId, job))
    case InFlight(_) => Err(AlreadyInFlight)
    case SettledOk(_) => Err(AlreadyConfirmed)
  }

  function SettleJob(state: DispatchedJob, verdict: Verdict): Result<seq<DispatchEvent>, DispatchRefused> {
    match (state, verdict)
    case (InFlight(jobId), _) =>
      if jobId == VerdictJob(verdict) then Ok([VerdictEvent(verdict)]) else Err(OutcomeMismatch)
    case (SettledOk(existing), Confirm(success)) =>
      if existing.jobId == success.jobId then Ok([]) else Err(OutcomeMismatch)
    case (SettledFailed(existing), Fail(defeat)) =>
      if existing.jobId == defeat.jobId then Ok([]) else Err(OutcomeMismatch)
    case _ => Err(OutcomeMismatch)
  }

  /** Folds one event; `None` is a replay error. */
  function EvolveDispatch(state: DispatchedJob, event: DispatchEvent): Option<DispatchedJob> {
    match (state, event)
    case (Idle, JobDispatched(jobId, _)) => Some(InFlight(jobId))
    case (SettledFailed(_), JobDispatched(jobId, _)) => Some(InFlight(jobId))
    case (InFlight(jobId), JobConfirmed(success)) => if jobId == success.jobId then Some(SettledOk(success)) else None
    case (InFlight(jobId), JobFailed(defeat)) => if jobId == defeat.jobId then Some(SettledFailed(defeat)) else None
    case _ => None
  }

  /** Folds dispatch events from an idle machine; `None` once one cannot be applied. */
  function DispatchFold(events: seq<DispatchEvent>): Option<DispatchedJob> {
    if events == [] then Some(Idle)
    else
      match DispatchFold(events[..|events| - 1])
      case None => None
      case Some(state) => EvolveDispatch(state, events[|events| - 1])
  }

  lemma DispatchFoldSnoc(events: seq<DispatchEvent>, event: DispatchEvent)
    ensures DispatchFold(events + [event]) == if DispatchFold(events).None? then None else EvolveDispatch(DispatchFold(events).value, event)
  {
    assert (events + [event])[..|events|] == events;
  }

  // ---------------------------------------------------------- the grammar

  /**
   A dispatch stream is a repetition of dispatched-failed pairs, optionally ending in
   an open dispatch or in one final confirmation; each verdict names the job id
   dispatched just before it.
   */
  ghost predicate Alternates(events: seq<DispatchEvent>) {
    forall i :: 0 <= i < |events| ==> Fits(events, i)
  }

  ghost predicate Fits(events: seq<DispatchEvent>, i: nat)
    requires i < |events|
  {
    if i % 2 == 0 then events[i].JobDispatched?
    else
      && events[i - 1].JobDispatched?
      && (events[i].JobConfirmed? ==> events[i].success.jobId == events[i - 1].jobId && i == |events| - 1)
      && (events[i].JobFailed? ==> events[i].defeat.jobId == events[i - 1].jobId)
      && !events[i].JobDispatched?
  }

  /** The state an alternating stream folds to is read off its last event. */
  function StateOf(events: seq<DispatchEvent>): DispatchedJob {
    if events == [] then Idle
    else
      match events[|events| - 1]
      case JobDispatched(jobId, _) => InFlight(jobId)
      case JobConfirmed(success) => SettledOk(success)
      case JobFailed(defeat) => SettledFailed(defeat)
  }

  /** The streams that replay without error are exactly the alternating ones. */
  lemma {:induction false} ReplaysIffAlternates(events: seq<DispatchEvent>)
    ensures DispatchFold(events).Some? <==> Alternates(events)
    ensures Alternates(events) ==> DispatchFold(events) == Some(StateOf(events))
  {
    if events != [] {
      var last := |events| - 1;
      var before := events[..last];
      assert events == before + [events[last]];
      ReplaysIffAlternates(before);
      AlternatesBySnoc(before, events[last]);
      DispatchFoldSnoc(before, events[last]);
    }
  }

  lemma AlternatesBySnoc(before: seq<DispatchEvent>, event: DispatchEvent)
    ensures Alternates(before + [event]) <==> Alternates(before) && EvolveDispatch(StateOf(before), event).Some?
  {
    var events := before + [event];
    var last := |before|;
    if Alternates(events) {
      forall i | 0 <= i < last ensures Fits(before, i) {
        assert Fits(events, i);
      }
      assert Fits(events, last);
      assert last > 0 ==> Fits(events, last - 1);
    }
    if Alternates(before) && EvolveDispatch(StateOf(before), event).Some? {
      assert last > 0 ==> Fits(before, last - 1);
      forall i | 0 <= i < |events| ensures Fits(events, i) {
        assert i < last ==> Fits(before, i);
      }
    }
  }

  /** A verdict is accepted exactly for the job in flight, or as a repeat of the verdict already recorded. */
  lemma SettlesExactly(state: DispatchedJob, verdict: Verdict)
    ensures SettleJob(state, verdict).Ok? <==>
              || (state.InFlight? && state.jobId == VerdictJob(verdict))
              || (state.SettledOk? && verdict.Confirm? && state.success.jobId == VerdictJob(verdict))
              || (state.SettledFailed? && verdict.Fail? && state.defeat.jobId == VerdictJob(verdict))
    ensures SettleJob(state, verdict).Ok? ==>
              SettleJob(state, verdict).value == if state.InFlight? then [VerdictEvent(verdict)] else []
  {
  }

  ghost predicate ConfirmedOn(events: seq<DispatchEvent>, jobId: JobId) {
    exists i :: 0 <= i < |events| && events[i].JobConfirmed? && events[i].success.jobId == jobId
  }

  ghost predicate FailedOn(events: seq<DispatchEvent>, jobId: JobId) {
    exists i :: 0 <= i < |events| && events[i].JobFailed? && events[i].defeat.jobId == jobId
  }

  ghost predicate Records(events: seq<DispatchEvent>, verdict: Verdict) {
    match verdict
    case Confirm(success) => ConfirmedOn(events, success.jobId)
    case Fail(defeat) => FailedOn(events, defeat.jobId)
  }

  /** An accepted verdict, new or absorbed, is on the stream afterwards. */
  lemma {:induction false} AcceptedVerdictIsRecorded(events: seq<DispatchEvent>, verdict: Verdict)
    requires Alternates(events) && SettleJob(StateOf(events), verdict).Ok?
    ensures var emitted := SettleJob(StateOf(events), verdict).value;
            && (emitted == [] || emitted == [VerdictEvent(verdict)])
            && Records(events + emitted, verdict)
  {
    SettlesExactly(StateOf(events), verdict);
    var emitted := SettleJob(StateOf(events), verdict).value;
    var grown := events + emitted;
    assert |grown| > 0 && grown[|grown| - 1] == if emitted == [] then events[|events| - 1] else emitted[0];
  }
}
