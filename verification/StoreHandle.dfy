/**
 Opening, calling into and closing a store through one owner cell. A store is open,
 closing or closed; every call holds a lease; the closer that finds it open destroys it
 once the leases are gone, and every other closer joins and waits for its outcome.
 */
module StoreHandle {
  import opened Prelude

  datatype CloseOutcome = TornDown | Panicked

  datatype StoreState = Open(activeCalls: nat) | Closing(activeCalls: nat) | Closed(outcome: CloseOutcome)

  datatype CloseRole = Destroy | Join

  /** Whether a call may take a lease. */
  predicate MayAcquire(state: StoreState, inner: bool) {
    state.Open? && inner
  }

  /** Whether a waiting closer may go on: a destroyer once no call is left, a joiner once closed. */
  predicate MayProceed(state: StoreState, role: CloseRole) {
    match role
    case Destroy => !(state.Closing? && state.activeCalls != 0)
    case Join => state.Closed?
  }

  /** What dropping a lease does to the state, and whether it finds the count corrupt. */
  function LeaseDropped(state: StoreState): (StoreState, bool) {
    match state
    case Open(n) => if n == 0 then (state, true) else (Open(n - 1), false)
    case Closing(n) => if n == 0 then (state, true) else (Closing(n - 1), false)
    case Closed(_) => (state, true)
  }

  /** The first closer to arrive closes the store to calls and will destroy it. */
  function CloseBegun(state: StoreState): (StoreState, CloseRole) {
    match state
    case Open(n) => (Closing(n), Destroy)
    case Closing(_) => (state, Join)
    case Closed(_) => (state, Join)
  }

  /** The shared store object; each method is one critical section. */
  class EsStore {
    var state: StoreState
    var inner: bool
    var poisoned: bool

    constructor ()
      ensures state == Open(0) && inner && !poisoned
    {
      state, inner, poisoned := Open(0), true, false;
    }

    /** Takes a lease, unless a closer got here first. */
    method Acquire() returns (leased: bool)
      modifies `state
      ensures leased <==> MayAcquire(old(state), inner)
      ensures state == if leased then Open(old(state).activeCalls + 1) else old(state)
    {
      match state {
        case Open(n) =>
          if inner {
            state := Open(n + 1);
            return true;
          }
          return false;
        case _ => return false;
      }
    }

    method DropLease()
      modifies `state, `poisoned
      ensures state == LeaseDropped(old(state)).0
      ensures poisoned == (old(poisoned) || LeaseDropped(old(state)).1)
    {
      match state {
        case Open(n) =>
          if n == 0 { poisoned := true; } else { state := Open(n - 1); }
        case Closing(n) =>
          if n == 0 { poisoned := true; } else { state := Closing(n - 1); }
        case Closed(_) => poisoned := true;
      }
    }

    method LinearizeClose() returns (role: CloseRole)
      modifies `state
      ensures (state, role) == CloseBegun(old(state))
    {
      match state {
        case Open(n) =>
          state := Closing(n);
          return Destroy;
        case _ => return Join;
      }
    }

    /** The check a closer makes each time it wakes. */
    method Wakes(role: CloseRole) returns (proceeds: bool)
      ensures proceeds <==> MayProceed(state, role)
    {
      match role {
        case Destroy => return !(state.Closing? && state.activeCalls != 0);
        case Join => return state.Closed?;
      }
    }

    method TakeInner() returns (taken: bool)
      modifies `inner
      ensures taken == old(inner) && !inner
    {
      taken := inner;
      inner := false;
    }

    method Finish(outcome: CloseOutcome)
      modifies `state
      ensures state == Closed(outcome)
    {
      state := Closed(outcome);
    }

    /**
     One wake-up of a closer: it goes on waiting, or a joiner returns the outcome it finds, or
     the destroyer empties the slot, tears the engine down and publishes how that went.
     */
    method Close(role: CloseRole, teardown: CloseOutcome) returns (returned: Option<CloseOutcome>)
      modifies `state, `inner
      ensures returned.Some? <==> MayProceed(old(state), role)
      ensures if returned.Some? && role.Destroy? then state == Closed(returned.value) && returned.value == teardown && !inner
              else unchanged(this) && (returned.Some? ==> state == Closed(returned.value))
    {
      var proceeds := Wakes(role);
      if !proceeds {
        return None;
      }
      match role {
        case Join => return Some(state.outcome);
        case Destroy =>
          var taken := TakeInner();
          Finish(teardown);
          return Some(teardown);
      }
    }
  }
}

/** Every interleaving of opens, calls and closers on one owner cell. */
module StoreHandleRuns {
  import opened Prelude
  import opened StoreHandle

  type StoreId = nat
  type CloserId = nat

  /** `leases` counts the live leases; `releases` how often the raw handle was given back. */
  datatype Store = Store(state: StoreState, inner: bool, poisoned: bool, leases: nat, destroyer: Option<CloserId>, releases: nat)

  datatype Stage = Waiting | Drained | Tearing | Returned(outcome: CloseOutcome) | Retired(outcome: CloseOutcome)

  datatype Closer = Closer(store: StoreId, role: CloseRole, stage: Stage)

  /** `entry` is the registry's entry for the owner, `owner` the cell itself, null as `None`. */
  datatype System = System(entry: Option<StoreId>, owner: Option<StoreId>, stores: seq<Store>, closers: map<CloserId, Closer>)

  datatype Action =
    | Publish
    | Acquire
    | DropLease(store: StoreId)
    | BeginClose(closer: CloserId)
    | WaitOver(closer: CloserId)
    | TakeInner(closer: CloserId)
    | FinishTeardown(closer: CloserId, outcome: CloseOutcome)
    | JoinReturns(closer: CloserId)
    | Retire(closer: CloserId)

  const EMPTY := System(None, None, [], map[])

  function Published(s: System): System {
    if s.entry.Some? then s
    else
      var id := |s.stores|;
      System(Some(id), Some(id), s.stores + [Store(Open(0), true, false, 0, None, 0)], s.closers)
  }

  function Acquired(s: System): System {
    if s.entry.None? || s.owner != s.entry || s.entry.value >= |s.stores| then s
    else
      var id := s.entry.value;
      var store := s.stores[id];
      if !MayAcquire(store.state, store.inner) then s
      else s.(stores := s.stores[id := store.(state := Open(store.state.activeCalls + 1), leases := store.leases + 1)])
  }

  function LeaseGone(s: System, id: StoreId): System {
    if id >= |s.stores| || s.stores[id].leases == 0 then s
    else
      var store := s.stores[id];
      var dropped := LeaseDropped(store.state);
      s.(stores := s.stores[id := store.(state := dropped.0, poisoned := store.poisoned || dropped.1, leases := store.leases - 1)])
  }

  function CloseLinearized(s: System, c: CloserId): System {
    if c in s.closers then s
    else if s.entry.None? then s.(owner := None)
    else if (s.owner.Some? && s.owner != s.entry) || s.entry.value >= |s.stores| then s
    else
      var id := s.entry.value;
      var store := s.stores[id];
      var begun := CloseBegun(store.state);
      s.(owner := None,
         stores := s.stores[id := store.(state := begun.0, destroyer := if begun.1.Destroy? then Some(c) else store.destroyer)],
         closers := s.closers[c := Closer(id, begun.1, Waiting)])
  }

  predicate At(s: System, c: CloserId, role: CloseRole, stage: Stage) {
    c in s.closers && s.closers[c].role == role && s.closers[c].stage == stage && s.closers[c].store < |s.stores|
  }

  function Moved(s: System, c: CloserId, stage: Stage): System
    requires c in s.closers
  {
    s.(closers := s.closers[c := s.closers[c].(stage := stage)])
  }

  function DestroyerDrained(s: System, c: CloserId): System {
    if !At(s, c, Destroy, Waiting) then s
    else if MayProceed(s.stores[s.closers[c].store].state, Destroy) then Moved(s, c, Drained)
    else s
  }

  function InnerTaken(s: System, c: CloserId): System {
    if !At(s, c, Destroy, Drained) then s
    else
      var id := s.closers[c].store;
      Moved(s, c, Tearing).(stores := s.stores[id := s.stores[id].(inner := false)])
  }

  function TeardownFinished(s: System, c: CloserId, outcome: CloseOutcome): System {
    if !At(s, c, Destroy, Tearing) then s
    else
      var id := s.closers[c].store;
      Moved(s, c, Returned(outcome)).(stores := s.stores[id := s.stores[id].(state := Closed(outcome))])
  }

  function JoinReturned(s: System, c: CloserId): System {
    if !At(s, c, Join, Waiting) then s
    else
      var state := s.stores[s.closers[c].store].state;
      if MayProceed(state, Join) then Moved(s, c, Returned(state.outcome)) else s
  }

  /** A returning closer removes the entry if it is still this store's, and with it the raw handle. */
  function StoreRetired(s: System, c: CloserId): System {
    if c !in s.closers || !s.closers[c].stage.Returned? || s.closers[c].store >= |s.stores| then s
    else
      var id := s.closers[c].store;
      var t := Moved(s, c, Retired(s.closers[c].stage.outcome));
      if s.entry != Some(id) then t
      else t.(entry := None, stores := s.stores[id := s.stores[id].(releases := s.stores[id].releases + 1)])
  }

  function Next(s: System, a: Action): System {
    match a
    case Publish => Published(s)
    case Acquire => Acquired(s)
    case DropLease(id) => LeaseGone(s, id)
    case BeginClose(c) => CloseLinearized(s, c)
    case WaitOver(c) => DestroyerDrained(s, c)
    case TakeInner(c) => InnerTaken(s, c)
    case FinishTeardown(c, outcome) => TeardownFinished(s, c, outcome)
    case JoinReturns(c) => JoinReturned(s, c)
    case Retire(c) => StoreRetired(s, c)
  }

  function Run(actions: seq<Action>): System {
    if actions == [] then EMPTY else Next(Run(actions[..|actions| - 1]), actions[|actions| - 1])
  }

  // -------------------------------------------------------------- invariant

  predicate IsOver(stage: Stage) {
    stage.Returned? || stage.Retired?
  }

  /** What a store's own record says, given whether the registry still lists it and its owner still points at it. */
  ghost predicate StoreInv(store: Store, listed: bool, owned: bool) {
    && !store.poisoned
    && store.releases == (if listed then 0 else 1)
    && (match store.state
        case Open(n) => n == store.leases && store.inner && store.destroyer.None? && listed && owned
        case Closing(n) => n == store.leases && store.destroyer.Some? && listed && !owned
        case Closed(_) => store.leases == 0 && !store.inner && store.destroyer.Some? && !owned)
  }

  /** How far a closer may be, given its store. */
  ghost predicate CloserInv(c: CloserId, closer: Closer, store: Store) {
    && !store.state.Open?
    && (closer.role.Destroy? <==> store.destroyer == Some(c))
    && (IsOver(closer.stage) ==> store.state == Closed(closer.stage.outcome))
    && (closer.role.Join? ==> closer.stage.Waiting? || IsOver(closer.stage))
    && (closer.role.Destroy? ==>
          && (store.state.Closed? <==> IsOver(closer.stage))
          && (store.inner <==> closer.stage.Waiting? || closer.stage.Drained?)
          && (!closer.stage.Waiting? ==> store.leases == 0))
    && (store.releases == 0 || store.state.Closed?)
    && (closer.stage.Retired? ==> store.releases == 1)
  }

  ghost predicate StoresInv(entry: Option<StoreId>, owner: Option<StoreId>, stores: seq<Store>, closers: map<CloserId, Closer>) {
    forall id :: 0 <= id < |stores| ==>
      && StoreInv(stores[id], entry == Some(id), owner == Some(id))
      && (stores[id].destroyer.Some? ==> stores[id].destroyer.value in closers && closers[stores[id].destroyer.value].store == id)
  }

  ghost predicate ClosersInv(stores: seq<Store>, closers: map<CloserId, Closer>) {
    forall c :: c in closers ==> closers[c].store < |stores| && CloserInv(c, closers[c], stores[closers[c].store])
  }

  ghost predicate Inv(s: System) {
    && (s.owner.Some? ==> s.owner == s.entry)
    && (s.entry.Some? ==> s.entry.value < |s.stores|)
    && StoresInv(s.entry, s.owner, s.stores, s.closers)
    && ClosersInv(s.stores, s.closers)
  }

  lemma PublishKeepsInv(s: System)
    requires Inv(s)
    ensures Inv(Published(s))
  {
    var t := Published(s);
    if s.entry.None? {
      forall c | c in t.closers ensures CloserInv(c, t.closers[c], t.stores[t.closers[c].store]) {
        assert t.stores[t.closers[c].store] == s.stores[s.closers[c].store];
      }
    }
  }

  lemma StoresMayChangeOne(
    entry: Option<StoreId>, owner: Option<StoreId>, stores: seq<Store>, closers: map<CloserId, Closer>, id: StoreId, store: Store)
    requires StoresInv(entry, owner, stores, closers) && id < |stores|
    requires StoreInv(store, entry == Some(id), owner == Some(id)) && store.destroyer == stores[id].destroyer
    ensures StoresInv(entry, owner, stores[id := store], closers)
  {
  }

  lemma ClosersFollowOne(stores: seq<Store>, closers: map<CloserId, Closer>, id: StoreId, store: Store)
    requires ClosersInv(stores, closers) && id < |stores|
    requires forall c :: c in closers && closers[c].store == id ==> CloserInv(c, closers[c], store)
    ensures ClosersInv(stores[id := store], closers)
  {
  }

  /** Replacing one store's record, when closers of that store still fit it. */
  lemma StoreMayChange(s: System, id: StoreId, store: Store)
    requires Inv(s) && id < |s.stores|
    requires StoreInv(store, s.entry == Some(id), s.owner == Some(id)) && store.destroyer == s.stores[id].destroyer
    requires forall c :: c in s.closers && s.closers[c].store == id ==> CloserInv(c, s.closers[c], store)
    ensures Inv(s.(stores := s.stores[id := store]))
  {
    StoresMayChangeOne(s.entry, s.owner, s.stores, s.closers, id, store);
    ClosersFollowOne(s.stores, s.closers, id, store);
  }

  lemma AcquireKeepsInv(s: System)
    requires Inv(s)
    ensures Inv(Acquired(s))
  {
    if Acquired(s) != s {
      var id := s.entry.value;
      StoreMayChange(s, id, Acquired(s).stores[id]);
    }
  }

  lemma DropLeaseKeepsInv(s: System, id: StoreId)
    requires Inv(s)
    ensures Inv(LeaseGone(s, id))
  {
    if LeaseGone(s, id) != s {
      StoreMayChange(s, id, LeaseGone(s, id).stores[id]);
    }
  }

  lemma BeginCloseKeepsInv(s: System, c: CloserId)
    requires Inv(s)
    ensures Inv(CloseLinearized(s, c))
  {
    var t := CloseLinearized(s, c);
    if c !in s.closers && s.entry.Some? {
      var id := s.entry.value;
      forall d | d in t.closers ensures CloserInv(d, t.closers[d], t.stores[t.closers[d].store]) {
        assert d != c ==> CloserInv(d, s.closers[d], s.stores[s.closers[d].store]);
      }
      forall i | 0 <= i < |t.stores| ensures StoreInv(t.stores[i], t.entry == Some(i), t.owner == Some(i)) {
        assert StoreInv(s.stores[i], s.entry == Some(i), s.owner == Some(i));
      }
    }
  }

  /** A closer moving on, when its store still fits it. */
  lemma CloserMayMove(s: System, c: CloserId, stage: Stage)
    requires Inv(s) && c in s.closers && CloserInv(c, s.closers[c].(stage := stage), s.stores[s.closers[c].store])
    ensures Inv(Moved(s, c, stage))
  {
  }

  lemma WaitOverKeepsInv(s: System, c: CloserId)
    requires Inv(s)
    ensures Inv(DestroyerDrained(s, c))
  {
    if DestroyerDrained(s, c) != s {
      CloserMayMove(s, c, Drained);
    }
  }

  lemma JoinReturnsKeepsInv(s: System, c: CloserId)
    requires Inv(s)
    ensures Inv(JoinReturned(s, c))
  {
    if JoinReturned(s, c) != s {
      CloserMayMove(s, c, Returned(s.stores[s.closers[c].store].state.outcome));
    }
  }

  /** A closer moving on and changing its store in the same step. */
  lemma CloserMayAct(stores: seq<Store>, closers: map<CloserId, Closer>, c: CloserId, closer: Closer, store: Store)
    requires ClosersInv(stores, closers) && c in closers && closer.store == closers[c].store
    requires CloserInv(c, closer, store)
    requires forall d :: d in closers && d != c && closers[d].store == closer.store ==> CloserInv(d, closers[d], store)
    ensures ClosersInv(stores[closer.store := store], closers[c := closer])
  {
  }

  lemma StoreMayAct(
    entry: Option<StoreId>, owner: Option<StoreId>, stores: seq<Store>, closers: map<CloserId, Closer>,
    c: CloserId, closer: Closer, store: Store)
    requires StoresInv(entry, owner, stores, closers) && c in closers && closer.store == closers[c].store < |stores|
    requires StoreInv(store, entry == Some(closer.store), owner == Some(closer.store)) && store.destroyer == stores[closer.store].destroyer
    ensures StoresInv(entry, owner, stores[closer.store := store], closers[c := closer])
  {
  }

  lemma DestroyerMayAct(s: System, c: CloserId, stage: Stage, store: Store)
    requires Inv(s) && c in s.closers && s.closers[c].role.Destroy?
    requires var id := s.closers[c].store;
             && StoreInv(store, s.entry == Some(id), s.owner == Some(id)) && store.destroyer == s.stores[id].destroyer
             && CloserInv(c, s.closers[c].(stage := stage), store)
             && forall d :: d in s.closers && d != c && s.closers[d].store == id ==> CloserInv(d, s.closers[d], store)
    ensures Inv(Moved(s, c, stage).(stores := s.stores[s.closers[c].store := store]))
  {
    CloserMayAct(s.stores, s.closers, c, s.closers[c].(stage := stage), store);
    StoreMayAct(s.entry, s.owner, s.stores, s.closers, c, s.closers[c].(stage := stage), store);
  }

  lemma TakeInnerKeepsInv(s: System, c: CloserId)
    requires Inv(s)
    ensures Inv(InnerTaken(s, c))
  {
    if At(s, c, Destroy, Drained) {
      var id := s.closers[c].store;
      assert CloserInv(c, s.closers[c], s.stores[id]);
      DestroyerMayAct(s, c, Tearing, s.stores[id].(inner := false));
    }
  }

  lemma FinishKeepsInv(s: System, c: CloserId, outcome: CloseOutcome)
    requires Inv(s)
    ensures Inv(TeardownFinished(s, c, outcome))
  {
    if At(s, c, Destroy, Tearing) {
      var id := s.closers[c].store;
      assert CloserInv(c, s.closers[c], s.stores[id]);
      DestroyerMayAct(s, c, Returned(outcome), s.stores[id].(state := Closed(outcome)));
    }
  }

  /** Forgetting a closed store hands its raw handle back. */
  lemma ForgettingKeepsStores(s: System, id: StoreId)
    requires Inv(s) && s.entry == Some(id) && s.stores[id].state.Closed?
    ensures StoresInv(None, s.owner, s.stores[id := s.stores[id].(releases := s.stores[id].releases + 1)], s.closers)
  {
    assert StoreInv(s.stores[id], true, s.owner == Some(id));
  }

  lemma RetireKeepsInv(s: System, c: CloserId)
    requires Inv(s)
    ensures Inv(StoreRetired(s, c))
  {
    if c in s.closers && s.closers[c].stage.Returned? {
      var id := s.closers[c].store;
      var closer := s.closers[c].(stage := Retired(s.closers[c].stage.outcome));
      var store := s.stores[id].(releases := 1);
      assert CloserInv(c, s.closers[c], s.stores[id]);
      assert StoreInv(s.stores[id], s.entry == Some(id), s.owner == Some(id));
      if s.entry == Some(id) {
        ForgettingKeepsStores(s, id);
        ClosersFollowOne(s.stores, s.closers, id, store);
        var t := s.(entry := None, stores := s.stores[id := store]);
        assert Inv(t);
        assert StoreRetired(s, c) == Moved(t, c, closer.stage);
        CloserMayMove(t, c, closer.stage);
      } else {
        CloserMayMove(s, c, closer.stage);
      }
    }
  }

  lemma {:induction false} RunKeepsInv(actions: seq<Action>)
    ensures Inv(Run(actions))
  {
    if actions != [] {
      var s := Run(actions[..|actions| - 1]);
      RunKeepsInv(actions[..|actions| - 1]);
      match actions[|actions| - 1]
      case Publish => PublishKeepsInv(s);
      case Acquire => AcquireKeepsInv(s);
      case DropLease(id) => DropLeaseKeepsInv(s, id);
      case BeginClose(c) => BeginCloseKeepsInv(s, c);
      case WaitOver(c) => WaitOverKeepsInv(s, c);
      case TakeInner(c) => TakeInnerKeepsInv(s, c);
      case FinishTeardown(c, outcome) => FinishKeepsInv(s, c, outcome);
      case JoinReturns(c) => JoinReturnsKeepsInv(s, c);
      case Retire(c) => RetireKeepsInv(s, c);
    }
  }

  // ---------------------------------------------------------------- theorems

  /**
   The call count is exactly the live leases; the store's engine slot is empty only when
   there are none, and from then on there never are; and no lease drop ever finds the count corrupt.
   */
  lemma {:induction false} LeasesAreCounted(actions: seq<Action>, id: StoreId)
    requires id < |Run(actions).stores|
    ensures var store := Run(actions).stores[id];
            && (!store.state.Closed? ==> store.state.activeCalls == store.leases)
            && (!store.inner ==> store.leases == 0 && !store.state.Open?)
            && !store.poisoned
            && (store.leases > 0 ==> !LeaseDropped(store.state).1)
  {
    RunKeepsInv(actions);
    var s := Run(actions);
    assert StoreInv(s.stores[id], s.entry == Some(id), s.owner == Some(id));
    if s.stores[id].destroyer.Some? {
      var c := s.stores[id].destroyer.value;
      assert CloserInv(c, s.closers[c], s.stores[id]);
    }
  }

  /** A store that is no longer open has exactly one destroyer; every other closer of it joins. */
  lemma {:induction false} ExactlyOneDestroyer(actions: seq<Action>, id: StoreId)
    requires id < |Run(actions).stores| && !Run(actions).stores[id].state.Open?
    ensures var s := Run(actions);
            exists c :: c in s.closers && s.closers[c].store == id && s.closers[c].role.Destroy?
              && forall d :: d in s.closers && s.closers[d].store == id && s.closers[d].role.Destroy? ==> d == c
  {
    RunKeepsInv(actions);
    var s := Run(actions);
    assert StoreInv(s.stores[id], s.entry == Some(id), s.owner == Some(id));
    var c := s.stores[id].destroyer.value;
    assert CloserInv(c, s.closers[c], s.stores[id]);
    forall d | d in s.closers && s.closers[d].store == id && s.closers[d].role.Destroy? ensures d == c {
      assert CloserInv(d, s.closers[d], s.stores[id]);
    }
  }

  /** Whoever returns from closing a store returns the destroyer's outcome, after it. */
  lemma {:induction false} ClosersAgree(actions: seq<Action>, c: CloserId, d: CloserId)
    requires var s := Run(actions); c in s.closers && d in s.closers && s.closers[c].store == s.closers[d].store
    requires IsOver(Run(actions).closers[c].stage) && Run(actions).closers[d].role.Destroy?
    ensures var s := Run(actions);
            && s.closers[c].store < |s.stores|
            && IsOver(s.closers[d].stage) && s.closers[d].stage.outcome == s.closers[c].stage.outcome
            && s.stores[s.closers[c].store].leases == 0 && !s.stores[s.closers[c].store].inner
  {
    RunKeepsInv(actions);
    var s := Run(actions);
    var id := s.closers[c].store;
    assert CloserInv(c, s.closers[c], s.stores[id]) && CloserInv(d, s.closers[d], s.stores[id]);
    assert StoreInv(s.stores[id], s.entry == Some(id), s.owner == Some(id));
  }

  /** The raw handle is given back once, exactly when the registry forgets the store, and by the time any closer is done. */
  lemma {:induction false} HandleReleasedOnce(actions: seq<Action>, id: StoreId, c: CloserId)
    requires id < |Run(actions).stores|
    ensures var s := Run(actions);
            && s.stores[id].releases == (if s.entry == Some(id) then 0 else 1)
            && (s.stores[id].releases == 1 ==> s.stores[id].state.Closed?)
            && (c in s.closers && s.closers[c].store == id && s.closers[c].stage.Retired? ==> s.stores[id].releases == 1)
  {
    RunKeepsInv(actions);
    var s := Run(actions);
    assert StoreInv(s.stores[id], s.entry == Some(id), s.owner == Some(id));
    if s.stores[id].destroyer.Some? {
      var d := s.stores[id].destroyer.value;
      assert CloserInv(d, s.closers[d], s.stores[id]);
    }
    if c in s.closers && s.closers[c].store == id {
      assert CloserInv(c, s.closers[c], s.stores[id]);
    }
  }

  /** The owner cell is null or names the registered store, so a close never finds a foreign handle. */
  lemma {:induction false} OwnerMatchesRegistry(actions: seq<Action>)
    ensures var s := Run(actions);
            && (s.owner.Some? ==> s.owner == s.entry)
            && (s.entry.Some? ==> s.entry.value < |s.stores| && (s.owner == s.entry <==> s.stores[s.entry.value].state.Open?))
  {
    RunKeepsInv(actions);
    var s := Run(actions);
    if s.entry.Some? {
      assert StoreInv(s.stores[s.entry.value], true, s.owner == s.entry);
    }
  }

  /** Once its closing has begun, no continuation reopens a store or gives it a lease. */
  lemma {:induction false} ClosingStoresTakeNoCalls(actions: seq<Action>, more: seq<Action>, id: StoreId)
    requires id < |Run(actions).stores| && !Run(actions).stores[id].state.Open?
    ensures var s, t := Run(actions), Run(actions + more);
            id < |t.stores| && !t.stores[id].state.Open? && t.stores[id].leases <= s.stores[id].leases
  {
    if more == [] {
      assert actions + more == actions;
    } else {
      var before := actions + more[..|more| - 1];
      assert (actions + more)[..|actions + more| - 1] == before;
      ClosingStoresTakeNoCalls(actions, more[..|more| - 1], id);
      ClosingStoreStaysSo(Run(before), more[|more| - 1], id);
    }
  }

  lemma ClosingStoreStaysSo(s: System, a: Action, id: StoreId)
    requires id < |s.stores| && !s.stores[id].state.Open?
    ensures var t := Next(s, a);
            id < |t.stores| && !t.stores[id].state.Open? && t.stores[id].leases <= s.stores[id].leases
  {
  }

  // ------------------------------------------------------- what goes through

  /** The store a call would reach: the registered one, while it is open. */
  ghost predicate IsOpen(s: System) {
    s.entry.Some? && s.entry.value < |s.stores| && s.stores[s.entry.value].state.Open?
  }

  /** Opening succeeds exactly while no store is registered, and gives an open store without calls. */
  lemma {:induction false} OpeningSucceedsExactly(actions: seq<Action>)
    ensures var s, t := Run(actions), Next(Run(actions), Publish);
            if s.entry.Some? then t == s
            else
              && IsOpen(t) && t.owner == t.entry == Some(|s.stores|) && t.closers == s.closers
              && |t.stores| == |s.stores| + 1 && s.stores <= t.stores
              && t.stores[|s.stores|].leases == 0 && t.stores[|s.stores|].inner
  {
  }

  /** A call gets its lease exactly while the registered store is open, and then changes nothing but that count. */
  lemma {:induction false} OpenStoresServeCalls(actions: seq<Action>)
    ensures var s, t := Run(actions), Next(Run(actions), Acquire);
            if !IsOpen(s) then t == s
            else
              var id := s.entry.value;
              var leases := s.stores[id].leases + 1;
              t == s.(stores := s.stores[id := s.stores[id].(state := Open(leases), leases := leases)])
  {
    RunKeepsInv(actions);
    var s := Run(actions);
    if IsOpen(s) {
      assert StoreInv(s.stores[s.entry.value], true, s.owner == s.entry);
    }
  }

  /** A lease can always be given back, whether the store is still open or already closing. */
  lemma {:induction false} LeasesCanBeDropped(actions: seq<Action>, id: StoreId)
    requires id < |Run(actions).stores| && Run(actions).stores[id].leases > 0
    ensures var s, t := Run(actions), Next(Run(actions), DropLease(id));
            var leases := s.stores[id].leases - 1;
            t == s.(stores := s.stores[id := s.stores[id].(
                      state := if s.stores[id].state.Open? then Open(leases) else Closing(leases), leases := leases)])
  {
    RunKeepsInv(actions);
    var s := Run(actions);
    assert StoreInv(s.stores[id], s.entry == Some(id), s.owner == Some(id));
  }

  /**
   A new closer takes part exactly while a store is registered: it clears the owner, shuts an
   open store to calls and will destroy it, or joins a close under way.
   */
  lemma {:induction false} ClosersTakePart(actions: seq<Action>, c: CloserId)
    requires c !in Run(actions).closers
    ensures var s, t := Run(actions), Next(Run(actions), BeginClose(c));
            && t.owner.None? && t.entry == s.entry && |t.stores| == |s.stores|
            && (forall id :: 0 <= id < |s.stores| && s.entry != Some(id) ==> t.stores[id] == s.stores[id])
            && (if s.entry.None? then t.closers == s.closers
                else
                  && s.entry.value < |s.stores|
                  && t.closers == s.closers[c := Closer(s.entry.value, if IsOpen(s) then Destroy else Join, Waiting)]
                  && !t.stores[s.entry.value].state.Open?
                  && t.stores[s.entry.value].leases == s.stores[s.entry.value].leases)
  {
    RunKeepsInv(actions);
  }

  /**
   Once the last call is gone the destroyer gets through, with whatever outcome its teardown
   has: the store is closed with it, its slot is empty, and the registry has let it go.
   */
  lemma {:induction false} DestroyerFinishes(actions: seq<Action>, c: CloserId, outcome: CloseOutcome)
    requires var s := Run(actions); c in s.closers && s.closers[c].role.Destroy? && s.closers[c].stage.Waiting?
    requires var s := Run(actions); s.closers[c].store < |s.stores| && s.stores[s.closers[c].store].leases == 0
    ensures var s := Run(actions);
            var torn := Next(Next(Next(s, WaitOver(c)), TakeInner(c)), FinishTeardown(c, outcome));
            DestroyedBy(s, Next(torn, Retire(c)), c, outcome)
  {
    ReadyToDestroy(actions, c);
    Destroyed(Run(actions), c, outcome);
    TeardownIs(Run(actions), c, outcome);
  }

  lemma {:induction false} ReadyToDestroy(actions: seq<Action>, c: CloserId)
    requires var s := Run(actions); c in s.closers && s.closers[c].role.Destroy? && s.closers[c].stage.Waiting?
    requires var s := Run(actions); s.closers[c].store < |s.stores| && s.stores[s.closers[c].store].leases == 0
    ensures var s := Run(actions);
            var id := s.closers[c].store;
            && At(s, c, Destroy, Waiting) && s.stores[id].state == Closing(0)
            && s.stores[id].releases == if s.entry == Some(id) then 0 else 1
  {
    RunKeepsInv(actions);
    var s := Run(actions);
    var id := s.closers[c].store;
    assert CloserInv(c, s.closers[c], s.stores[id]) && StoreInv(s.stores[id], s.entry == Some(id), s.owner == Some(id));
  }

  lemma TeardownIs(s: System, c: CloserId, outcome: CloseOutcome)
    ensures Next(Next(Next(Next(s, WaitOver(c)), TakeInner(c)), FinishTeardown(c, outcome)), Retire(c)) ==
              StoreRetired(TeardownFinished(InnerTaken(DestroyerDrained(s, c), c), c, outcome), c)
  {
  }

  ghost predicate DestroyedBy(s: System, t: System, c: CloserId, outcome: CloseOutcome)
    requires c in s.closers && s.closers[c].store < |s.stores|
  {
    var id := s.closers[c].store;
    && t.closers == s.closers[c := s.closers[c].(stage := Retired(outcome))]
    && |t.stores| == |s.stores| && t.stores[id].state == Closed(outcome) && !t.stores[id].inner
    && t.stores[id].releases == 1 && t.entry != Some(id)
  }

  lemma Destroyed(s: System, c: CloserId, outcome: CloseOutcome)
    requires At(s, c, Destroy, Waiting) && s.stores[s.closers[c].store].state == Closing(0)
    requires var id := s.closers[c].store; s.stores[id].releases == if s.entry == Some(id) then 0 else 1
    ensures DestroyedBy(s, StoreRetired(TeardownFinished(InnerTaken(DestroyerDrained(s, c), c), c, outcome), c), c, outcome)
  {
    var drained := DestroyerDrained(s, c);
    var taken := InnerTaken(drained, c);
    var torn := TeardownFinished(taken, c, outcome);
    assert At(drained, c, Destroy, Drained) && At(taken, c, Destroy, Tearing) && torn.closers[c].stage == Returned(outcome);
  }

  /** Once its store is closed a joiner gets through with the outcome it finds. */
  lemma {:induction false} JoinersFinish(actions: seq<Action>, c: CloserId)
    requires var s := Run(actions); c in s.closers && s.closers[c].role.Join? && s.closers[c].stage.Waiting?
    requires var s := Run(actions); s.closers[c].store < |s.stores| && s.stores[s.closers[c].store].state.Closed?
    ensures var s := Run(actions);
            var t := Next(Next(s, JoinReturns(c)), Retire(c));
            var id := s.closers[c].store;
            && t.closers == s.closers[c := s.closers[c].(stage := Retired(s.stores[id].state.outcome))]
            && id < |t.stores| && t.stores[id].state == s.stores[id].state && t.entry != Some(id)
  {
  }
}
