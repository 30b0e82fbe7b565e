/**
 The lifecycle adapter: an event-sourced entity wrapped in a state machine that
 is uninitialized, live, or failed. Events are folded with `originate`/`evolve`;
 commands are routed to `initialize`/`transition` and their events validated on a
 throwaway copy before they may be committed.
 */
module Lifecycles {
  import opened Prelude
  import opened Outbox

  /** What a handler decided: domain events, or exactly one job dispatch. */
  datatype Effect<+E> = Emit(events: seq<E>) | Dispatch(event: E, push: PendingPush)

  /** An `EventSourced` implementation: entity `S`, events `E`, commands `C`, errors `X`. */
  datatype EventSourced<!S, !E, !C, !X> = EventSourced(
    originate: E -> Option<S>,
    evolve: (S, E) -> Result<Option<S>, X>,
    initialize: C -> Result<Effect<E>, X>,
    transition: (S, C) -> Result<Effect<E>, X>)

  datatype Failure<+S, +E, +X> =
    | EventCantOriginate(event: E)
    | UnexpectedEvent(entity: S, event: E)
    | AlreadyFailed(failure: Failure<S, E, X>, event: E)
    | Apply(error: X)
    | DispatchNotBuffered

  datatype Lifecycle<+S, +E, +X> =
    | Uninitialized
    | Live(entity: S)
    | Failed(error: Failure<S, E, X>, lastValid: Option<S>)

  function Applied<S, E, C, X>(def: EventSourced<S, E, C, X>, l: Lifecycle<S, E, X>, event: E): Lifecycle<S, E, X> {
    match l
    case Uninitialized =>
      (match def.originate(event)
       case None => Failed(EventCantOriginate(event), None)
       case Some(entity) => Live(entity))
    case Live(entity) =>
      (match def.evolve(entity, event)
       case Ok(Some(next)) => Live(next)
       case Ok(None) => Failed(UnexpectedEvent(entity, event), Some(entity))
       case Err(error) => Failed(Apply(error), Some(entity)))
    case Failed(error, lastValid) => Failed(AlreadyFailed(error, event), lastValid)
  }

  function Fold<S, E, C, X>(def: EventSourced<S, E, C, X>, l: Lifecycle<S, E, X>, events: seq<E>): Lifecycle<S, E, X> {
    if events == [] then l
    else Applied(def, Fold(def, l, events[..|events| - 1]), events[|events| - 1])
  }

  /** Plain replay of a whole stream. */
  function Replay<S, E, C, X>(def: EventSourced<S, E, C, X>, events: seq<E>): Lifecycle<S, E, X> {
    Fold(def, Uninitialized, events)
  }

  lemma {:induction false} FoldConcat<S, E, C, X>(
    def: EventSourced<S, E, C, X>, l: Lifecycle<S, E, X>, first: seq<E>, second: seq<E>)
    ensures Fold(def, l, first + second) == Fold(def, Fold(def, l, first), second)
  {
    if second == [] {
      assert first + second == first;
    } else {
      var last := |second| - 1;
      assert (first + second)[..|first + second| - 1] == first + second[..last];
      FoldConcat(def, l, first, second[..last]);
    }
  }

  lemma FoldSnoc<S, E, C, X>(def: EventSourced<S, E, C, X>, l: Lifecycle<S, E, X>, events: seq<E>, event: E)
    ensures Fold(def, l, events + [event]) == Applied(def, Fold(def, l, events), event)
  {
    assert (events + [event])[..|events|] == events;
  }

  /** One `AlreadyFailed` per event that reached a lifecycle already failed. */
  function Nest<S, E, X>(error: Failure<S, E, X>, later: seq<E>): Failure<S, E, X> {
    if later == [] then error
    else AlreadyFailed(Nest(error, later[..|later| - 1]), later[|later| - 1])
  }

  function LastValid<S, E, X>(l: Lifecycle<S, E, X>): Option<S> {
    match l
    case Uninitialized => None
    case Live(entity) => Some(entity)
    case Failed(_, lastValid) => lastValid
  }

  /** The length of the longest prefix the entity can apply. */
  function Applicable<S, E, C, X>(def: EventSourced<S, E, C, X>, l: Lifecycle<S, E, X>, events: seq<E>): (k: nat)
    requires !l.Failed?
    ensures k <= |events|
    ensures !Fold(def, l, events[..k]).Failed?
    ensures k < |events| ==> Fold(def, l, events[..k + 1]).Failed?
  {
    if events == [] then 0
    else
      var last := |events| - 1;
      assert forall i :: 0 <= i <= last ==> events[..last][..i] == events[..i];
      assert events[..|events|] == events;
      var k := Applicable(def, l, events[..last]);
      if k == last && !Fold(def, l, events).Failed? then |events| else k
  }

  lemma {:induction false} FailedIsSticky<S, E, C, X>(def: EventSourced<S, E, C, X>, l: Lifecycle<S, E, X>, events: seq<E>)
    requires l.Failed?
    ensures Fold(def, l, events) == Failed(Nest(l.error, events), l.lastValid)
  {
    if events != [] {
      FailedIsSticky(def, l, events[..|events| - 1]);
    }
  }

  /** How an entity that had not failed fails at one event. */
  ghost predicate FailsWith<S, E, C, X>(def: EventSourced<S, E, C, X>, good: Lifecycle<S, E, X>, event: E, error: Failure<S, E, X>) {
    match error
    case EventCantOriginate(e) => good.Uninitialized? && e == event && def.originate(event).None?
    case UnexpectedEvent(entity, e) => good == Live(entity) && e == event && def.evolve(entity, event) == Ok(None)
    case Apply(cause) => good.Live? && def.evolve(good.entity, event) == Err(cause)
    case _ => false
  }

  /**
   Replaying arbitrary events, from any state that has not failed: the entity of the
   longest applicable prefix survives as the last valid one, the first event beyond
   it names the cause, and every later event adds one `AlreadyFailed` around it.
   */
  lemma {:induction false} ReplayKeepsTheLongestApplicablePrefix<S, E, C, X>(
    def: EventSourced<S, E, C, X>, l: Lifecycle<S, E, X>, events: seq<E>)
    requires !l.Failed?
    ensures var k := Applicable(def, l, events);
            var good := Fold(def, l, events[..k]);
            if k == |events| then Fold(def, l, events) == good
            else
              var cause := Applied(def, good, events[k]);
              && cause.Failed? && FailsWith(def, good, events[k], cause.error)
              && Fold(def, l, events) == Failed(Nest(cause.error, events[k + 1..]), LastValid(good))
    // No longer prefix is applicable.
    ensures forall n :: Applicable(def, l, events) < n <= |events| ==> Fold(def, l, events[..n]).Failed?
  {
    var k := Applicable(def, l, events);
    if k == |events| {
      assert events[..k] == events;
    } else {
      assert events[..k + 1][..k] == events[..k];
      forall n | k < n <= |events| ensures Fold(def, l, events[..n]).Failed? {
        FailedBeyond(def, l, events, k, n);
      }
      FailedBeyond(def, l, events, k, |events|);
      assert events[k + 1..|events|] == events[k + 1..] && events[..|events|] == events;
    }
  }

  /** Once the event after a prefix fails, every longer prefix is that failure, nested. */
  lemma {:induction false} FailedBeyond<S, E, C, X>(
    def: EventSourced<S, E, C, X>, l: Lifecycle<S, E, X>, events: seq<E>, k: nat, n: nat)
    requires k < n <= |events| && Fold(def, l, events[..k + 1]).Failed?
    ensures var cause := Fold(def, l, events[..k + 1]);
            Fold(def, l, events[..n]) == Failed(Nest(cause.error, events[k + 1..n]), cause.lastValid)
  {
    assert events[..n] == events[..k + 1] + events[k + 1..n];
    FoldConcat(def, l, events[..k + 1], events[k + 1..n]);
    FailedIsSticky(def, Fold(def, l, events[..k + 1]), events[k + 1..n]);
  }

  /** No two event lists fold to the same state. */
  ghost predicate Separates<S, E(!new), C, X>(def: EventSourced<S, E, C, X>) {
    forall a, b :: Replay(def, a) == Replay(def, b) ==> a == b
  }

  lemma {:induction false} PrefixesOfLiveReplayAreLive<S, E, C, X>(
    def: EventSourced<S, E, C, X>, events: seq<E>, n: nat)
    requires n <= |events| && !Replay(def, events).Failed?
    ensures !Replay(def, events[..n]).Failed?
  {
    assert events == events[..n] + events[n..];
    FoldConcat(def, Uninitialized, events[..n], events[n..]);
    if Replay(def, events[..n]).Failed? {
      FailedIsSticky(def, Replay(def, events[..n]), events[n..]);
    }
  }

  /** The handler's answer, before any validation. */
  function Decide<S, E, C, X>(def: EventSourced<S, E, C, X>, l: Lifecycle<S, E, X>, command: C): Result<Effect<E>, Failure<S, E, X>> {
    match l
    case Failed(error, _) => Err(error)
    case Uninitialized =>
      (match def.initialize(command) case Ok(effect) => Ok(effect) case Err(error) => Err(Apply(error)))
    case Live(entity) =>
      (match def.transition(entity, command) case Ok(effect) => Ok(effect) case Err(error) => Err(Apply(error)))
  }

  function EffectEvents<E>(effect: Effect<E>): seq<E> {
    match effect
    case Emit(events) => events
    case Dispatch(event, _) => [event]
  }

  /** The events a command may commit: all of what the handler emitted, or an error. */
  function Handled<S, E, C, X>(def: EventSourced<S, E, C, X>, l: Lifecycle<S, E, X>, command: C, scopeOpen: bool)
    : (handled: Result<seq<E>, Failure<S, E, X>>)
    // An accepted command never poisons its stream.
    ensures handled.Ok? ==> !Fold(def, l, handled.value).Failed?
  {
    match Decide(def, l, command)
    case Err(error) => Err(error)
    case Ok(effect) =>
      if effect.Dispatch? && !scopeOpen then Err(DispatchNotBuffered)
      else
        var events := EffectEvents(effect);
        var k := Applicable(def, l, events);
        if k == |events| then
          assert events[..k] == events;
          Ok(events)
        else Err(Fold(def, l, events[..k + 1]).error)
  }

  /** What the entity itself answers a command with, before and after it exists. */
  function Answer<S, E, C, X>(def: EventSourced<S, E, C, X>, l: Lifecycle<S, E, X>, command: C): Result<Effect<E>, X>
    requires !l.Failed?
  {
    if l.Uninitialized? then def.initialize(command) else def.transition(l.entity, command)
  }

  /** The events of an effect: those emitted, or the one that records a dispatch. */
  ghost predicate Carries<E>(effect: Effect<E>, events: seq<E>) {
    match effect
    case Emit(emitted) => events == emitted
    case Dispatch(event, _) => events == [event]
  }

  /**
   A command is answered as its entity answers it, with one exception: events the entity
   itself could not apply are refused with the first failure they cause. A failed entity
   answers with its failure, and a dispatch outside any scope is refused.
   */
  lemma {:induction false} HandledExactly<S, E, C, X>(
    def: EventSourced<S, E, C, X>, l: Lifecycle<S, E, X>, command: C, scopeOpen: bool, events: seq<E>, n: nat)
    ensures l.Failed? ==> Handled(def, l, command, scopeOpen) == Err(l.error)
    ensures !l.Failed? && Answer(def, l, command).Err? ==>
              Handled(def, l, command, scopeOpen) == Err(Apply(Answer(def, l, command).error))
    ensures !l.Failed? && Answer(def, l, command).Ok? && Carries(Answer(def, l, command).value, events) ==>
              var handled := Handled(def, l, command, scopeOpen);
              if Answer(def, l, command).value.Dispatch? && !scopeOpen then handled == Err(DispatchNotBuffered)
              else
                && (!Fold(def, l, events).Failed? ==> handled == Ok(events))
                && (n < |events| && !Fold(def, l, events[..n]).Failed? && Fold(def, l, events[..n + 1]).Failed? ==>
                      handled == Err(Fold(def, l, events[..n + 1]).error))
  {
    if !l.Failed? && Answer(def, l, command).Ok? && Carries(Answer(def, l, command).value, events) {
      ReplayKeepsTheLongestApplicablePrefix(def, l, events);
      assert events[..|events|] == events;
      if n < |events| && !Fold(def, l, events[..n]).Failed? && Fold(def, l, events[..n + 1]).Failed? {
        FirstFailureIsApplicableLength(def, l, events, n);
      }
    }
  }

  /** The aggregate instance cqrs-es loads, hands a command, and replays events into. */
  class Aggregate<S, E, C, X> {
    const def: EventSourced<S, E, C, X>
    var state: Lifecycle<S, E, X>

    constructor (def: EventSourced<S, E, C, X>)
      ensures this.def == def && state == Uninitialized
    {
      this.def := def;
      state := Uninitialized;
    }

    constructor FromSnapshot(def: EventSourced<S, E, C, X>, state: Lifecycle<S, E, X>)
      ensures this.def == def && this.state == state
    {
      this.def := def;
      this.state := state;
    }

    method ApplyEvent(event: E)
      modifies this
      ensures state == Applied(def, old(state), event)
    {
      state := Applied(def, state, event);
    }

    /** Replays a loaded stream into this aggregate. */
    method Load(events: seq<E>)
      modifies this
      ensures state == Fold(def, old(state), events)
    {
      var i := 0;
      while i < |events|
        invariant 0 <= i <= |events|
        invariant state == Fold(def, old(state), events[..i])
      {
        assert events[..i + 1][..i] == events[..i];
        ApplyEvent(events[i]);
        i := i + 1;
      }
      assert events[..i] == events;
    }

    /**
     Routes one command. The aggregate keeps its pre-command state whatever
     happens; a dispatch is buffered before validation, and reported as
     `DispatchNotBuffered` when no scope is open.
     */
    method Handle(command: C, scope: PendingScope?) returns (sink: Result<seq<E>, Failure<S, E, X>>)
      modifies scope
      ensures sink == Handled(def, old(state), command, scope != null)
      ensures state == old(state)
      ensures scope != null ==>
                scope.pending == old(scope.pending) +
                  match Decide(def, old(state), command)
                  case Ok(Dispatch(_, push)) => [push]
                  case _ => []
    {
      var decision := Decide(def, state, command);
      if decision.Err? {
        return Err(decision.error);
      }
      match decision.value {
        case Emit(_) =>
        case Dispatch(_, push) =>
          if scope == null {
            return Err(DispatchNotBuffered);
          }
          scope.Buffer(push);
      }
      var events := EffectEvents(decision.value);
      var scratch := state;
      var written := 0;
      while written < |events|
        invariant 0 <= written <= |events|
        invariant scratch == Fold(def, state, events[..written]) && !scratch.Failed?
        invariant state == old(state)
        invariant scope != null ==>
                    scope.pending == old(scope.pending) +
                      match decision
                      case Ok(Dispatch(_, push)) => [push]
                      case _ => []
      {
        assert events[..written + 1][..written] == events[..written];
        scratch := Applied(def, scratch, events[written]);
        written := written + 1;
        if scratch.Failed? {
          FirstFailureIsApplicableLength(def, state, events, written - 1);
          return Err(scratch.error);
        }
      }
      assert events[..written] == events;
      ReplayKeepsTheLongestApplicablePrefix(def, state, events);
      return Ok(events);
    }
  }

  lemma FirstFailureIsApplicableLength<S, E, C, X>(
    def: EventSourced<S, E, C, X>, l: Lifecycle<S, E, X>, events: seq<E>, n: nat)
    requires !l.Failed? && n < |events|
    requires !Fold(def, l, events[..n]).Failed? && Fold(def, l, events[..n + 1]).Failed?
    ensures Applicable(def, l, events) == n
  {
    var k := Applicable(def, l, events);
    if k > n {
      FailedBeyond(def, l, events, n, k);
    } else if k < n {
      FailedBeyond(def, l, events, k, n);
    }
  }
}
