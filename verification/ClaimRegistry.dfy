/**
 The claim-token registry of one open store. Every operation is one critical section
 under the registry's mutex; between them callers hold guards (a reservation, a renewal
 or a settlement) that complete explicitly or undo themselves when dropped.
 */
module ClaimRegistry {
  import opened Prelude
  import opened Outbox

  /** Tokens are random 128-bit values; only their identity matters. */
  type Token = nat

  const MAX_ACTIVE_CLAIMS: nat := 4096

  datatype ClaimState = Available | Renewing | Settling

  datatype RetainedClaim = RetainedClaim(job: JobId, leaseUntil: int, state: ClaimState)

  type Retained = map<Token, RetainedClaim>

  predicate IsExpired(claim: RetainedClaim, now: int) {
    claim.state == Available && claim.leaseUntil < now
  }

  /** A token eviction may pick: expired, and none expired lapsed before it. */
  ghost predicate OldestExpired(retained: Retained, now: int, token: Token) {
    && token in retained && IsExpired(retained[token], now)
    && forall t :: t in retained && IsExpired(retained[t], now) ==> retained[token].leaseUntil <= retained[t].leaseUntil
  }

  function Without(retained: Retained, token: Token): Retained {
    retained - {token}
  }

  /** Makes a token the job's only available one; tokens being renewed or settled stay. */
  function Issued(retained: Retained, token: Token, job: JobId, leaseUntil: int): Retained {
    (map t | t in retained && (retained[t].state != Available || retained[t].job != job) :: retained[t])
      [token := RetainedClaim(job, leaseUntil, Available)]
  }

  function ExpiredRetired(retained: Retained, job: JobId, now: int): Retained {
    map t | t in retained && (retained[t].job != job || !IsExpired(retained[t], now)) :: retained[t]
  }

  predicate InState(retained: Retained, token: Token, state: ClaimState) {
    token in retained && retained[token].state == state
  }

  function WithState(retained: Retained, token: Token, state: ClaimState): Retained
    requires token in retained
  {
    retained[token := retained[token].(state := state)]
  }

  /** A guard's undo: back to available, if the token is still where the guard left it. */
  function Restored(retained: Retained, token: Token, from: ClaimState): Retained {
    if InState(retained, token, from) then WithState(retained, token, Available) else retained
  }

  /** How the durable queue answers a claim, a renewal or a settlement. */
  datatype ClaimAnswer = Won | Gone | Contended | ClaimFailed

  datatype RenewalAnswer = Held | Lost | RenewalFailed

  /** What an answered claim makes of the tokens. */
  function Answered(retained: Retained, token: Token, job: JobId, now: int, leaseUntil: int, answer: ClaimAnswer): Retained {
    match answer
    case Won => Issued(retained, token, job, leaseUntil)
    case Gone => ExpiredRetired(retained, job, now)
    case _ => retained
  }

  class Registry {
    var retained: Retained
    var reservations: nat

    constructor ()
      ensures retained == map[] && reservations == 0
    {
      retained, reservations := map[], 0;
    }

    /** Drops the longest-lapsed available token, if any lapsed at all. */
    method EvictOldestExpired(now: int) returns (evicted: Option<Token>)
      modifies `retained
      ensures evicted.Some? ==> OldestExpired(old(retained), now, evicted.value) && retained == Without(old(retained), evicted.value)
      ensures evicted.None? ==> retained == old(retained) && forall t :: t in retained ==> !IsExpired(retained[t], now)
    {
      evicted := None;
      var unseen := retained.Keys;
      while unseen != {}
        invariant unseen <= retained.Keys && retained == old(retained)
        invariant evicted.None? ==> forall t :: t in retained && t !in unseen ==> !IsExpired(retained[t], now)
        invariant evicted.Some? ==>
                    && evicted.value in retained && IsExpired(retained[evicted.value], now)
                    && forall t :: t in retained && t !in unseen && IsExpired(retained[t], now) ==>
                         retained[evicted.value].leaseUntil <= retained[t].leaseUntil
        decreases |unseen|
      {
        var token :| token in unseen;
        unseen := unseen - {token};
        if IsExpired(retained[token], now) && (evicted.None? || retained[token].leaseUntil < retained[evicted.value].leaseUntil) {
          evicted := Some(token);
        }
      }
      if evicted.Some? {
        retained := Without(retained, evicted.value);
      }
    }

    /** Reserves a slot, evicting one expired token when full; refused only when full of live ones. */
    method PrepareClaim(now: int) returns (reserved: bool)
      modifies this
      ensures reserved ==>
                && reservations == old(reservations) + 1
                && (if |old(retained)| + old(reservations) < MAX_ACTIVE_CLAIMS then retained == old(retained)
                    else exists victim :: OldestExpired(old(retained), now, victim) && retained == Without(old(retained), victim))
      ensures !reserved ==>
                && unchanged(this) && |retained| + reservations >= MAX_ACTIVE_CLAIMS
                && forall t :: t in retained ==> !IsExpired(retained[t], now)
    {
      if |retained| + reservations + 1 > MAX_ACTIVE_CLAIMS {
        var evicted := EvictOldestExpired(now);
        if evicted.None? {
          return false;
        }
      }
      reservations := reservations + 1;
      return true;
    }

    /** Saturates at zero. */
    method ReleaseReservation()
      modifies `reservations
      ensures reservations == if old(reservations) == 0 then 0 else old(reservations) - 1
    {
      if reservations > 0 {
        reservations := reservations - 1;
      }
    }

    method Issue(token: Token, job: JobId, leaseUntil: int)
      modifies this
      ensures retained == Issued(old(retained), token, job, leaseUntil)
      ensures reservations == if old(reservations) == 0 then 0 else old(reservations) - 1
    {
      retained := map t | t in retained && (retained[t].state != Available || retained[t].job != job) :: retained[t];
      retained := retained[token := RetainedClaim(job, leaseUntil, Available)];
      ReleaseReservation();
    }

    /** Takes an available token out of circulation. */
    method Begin(token: Token, state: ClaimState) returns (begun: bool)
      modifies `retained
      ensures begun <==> InState(old(retained), token, Available)
      ensures retained == if begun then WithState(old(retained), token, state) else old(retained)
    {
      begun := token in retained && retained[token].state == Available;
      if begun {
        retained := retained[token := retained[token].(state := state)];
      }
    }

    method CompleteRenewal(token: Token, leaseUntil: int) returns (completed: bool)
      modifies `retained
      ensures completed <==> InState(old(retained), token, Renewing)
      ensures retained == if completed then old(retained)[token := RetainedClaim(old(retained)[token].job, leaseUntil, Available)] else old(retained)
    {
      completed := token in retained && retained[token].state == Renewing;
      if completed {
        retained := retained[token := RetainedClaim(retained[token].job, leaseUntil, Available)];
      }
    }

    method RetireClaim(token: Token)
      modifies `retained
      ensures retained == Without(old(retained), token)
    {
      retained := retained - {token};
    }

    method RetireExpiredClaims(job: JobId, now: int)
      modifies `retained
      ensures retained == ExpiredRetired(old(retained), job, now)
    {
      retained := map t | t in retained && (retained[t].job != job || !IsExpired(retained[t], now)) :: retained[t];
    }

    /** What a dropped, uncompleted guard does. */
    method Restore(token: Token, from: ClaimState)
      modifies `retained
      ensures retained == Restored(old(retained), token, from)
    {
      if token in retained && retained[token].state == from {
        retained := retained[token := retained[token].(state := Available)];
      }
    }

    /** A claim call with nobody in between: whatever the queue answers, the reservation is given back. */
    method JobClaim(token: Token, job: JobId, now: int, leaseUntil: int, answer: ClaimAnswer) returns (reserved: bool)
      modifies this
      ensures reservations == old(reservations)
      ensures !reserved ==> unchanged(this)
      ensures reserved ==>
                if |old(retained)| + old(reservations) < MAX_ACTIVE_CLAIMS then
                  retained == Answered(old(retained), token, job, now, leaseUntil, answer)
                else
                  exists victim :: OldestExpired(old(retained), now, victim) &&
                    retained == Answered(Without(old(retained), victim), token, job, now, leaseUntil, answer)
    {
      reserved := PrepareClaim(now);
      if !reserved {
        return;
      }
      match answer {
        case Won => Issue(token, job, leaseUntil);
        case Gone =>
          RetireExpiredClaims(job, now);
          ReleaseReservation();
        case _ => ReleaseReservation();
      }
    }

    /** A renewal call with nobody in between: one that fails leaves the token as it found it. */
    method JobRenew(token: Token, leaseUntil: int, answer: RenewalAnswer) returns (found: bool)
      modifies `retained
      ensures found <==> InState(old(retained), token, Available)
      ensures retained == if !found || answer.RenewalFailed? then old(retained)
                          else if answer.Lost? then Without(old(retained), token)
                          else old(retained)[token := RetainedClaim(old(retained)[token].job, leaseUntil, Available)]
    {
      found := Begin(token, Renewing);
      if found {
        match answer {
          case Held =>
            var completed := CompleteRenewal(token, leaseUntil);
          case Lost => RetireClaim(token);
          case RenewalFailed => Restore(token, Renewing);
        }
      }
    }

    /** A settlement call with nobody in between: the token is spent exactly when the settlement lands. */
    method JobSettle(token: Token, landed: bool) returns (found: bool)
      modifies `retained
      ensures found <==> InState(old(retained), token, Available)
      ensures retained == if found && landed then Without(old(retained), token) else old(retained)
    {
      found := Begin(token, Settling);
      if found {
        if landed {
          RetireClaim(token);
        } else {
          Restore(token, Settling);
        }
      }
    }
  }
}

/** Every interleaving of the critical sections, with the guards callers hold between them. */
module ClaimRegistryRuns {
  import opened Prelude
  import opened Outbox
  import opened ClaimRegistry

  /**
   `holders`, `renewals` and `settlements` count the live guards: reservations, and renewals
   and settlements per token. `minted` and `completed` are history: tokens ever issued, and
   settlements completed per token.
   */
  datatype State = State(
    retained: Retained, reservations: nat,
    holders: nat, renewals: multiset<Token>, settlements: multiset<Token>,
    minted: set<Token>, completed: multiset<Token>)

  /** Eviction among equally old tokens is the implementation's choice: `victim` names it. */
  datatype Action =
    | Prepare(now: int, victim: Token)
    | DropReservation
    | Issue(token: Token, job: JobId, leaseUntil: int)
    | BeginRenewal(token: Token)
    | CompleteRenewal(token: Token, leaseUntil: int)
    | RetireRenewal(token: Token)
    | DropRenewal(token: Token)
    | BeginSettlement(token: Token)
    | CompleteSettlement(token: Token)
    | DropSettlement(token: Token)
    | RetireExpired(job: JobId, now: int)

  const EMPTY := State(map[], 0, 0, multiset{}, multiset{}, {}, multiset{})

  function Released(reservations: nat): nat {
    if reservations == 0 then 0 else reservations - 1
  }

  ghost function Prepared(s: State, now: int, victim: Token): State {
    if |s.retained| + s.reservations < MAX_ACTIVE_CLAIMS then
      s.(reservations := s.reservations + 1, holders := s.holders + 1)
    else if OldestExpired(s.retained, now, victim) then
      s.(retained := Without(s.retained, victim), reservations := s.reservations + 1, holders := s.holders + 1)
    else s
  }

  function ReservationDropped(s: State): State {
    if s.holders == 0 then s else s.(reservations := Released(s.reservations), holders := s.holders - 1)
  }

  function ClaimIssued(s: State, token: Token, job: JobId, leaseUntil: int): State {
    // Tokens are minted fresh.
    if s.holders == 0 || token in s.minted then s
    else
      s.(retained := Issued(s.retained, token, job, leaseUntil), reservations := Released(s.reservations),
         holders := s.holders - 1, minted := s.minted + {token})
  }

  function RenewalBegun(s: State, token: Token): State {
    if !InState(s.retained, token, Available) then s
    else s.(retained := WithState(s.retained, token, Renewing), renewals := s.renewals + multiset{token})
  }

  function RenewalCompleted(s: State, token: Token, leaseUntil: int): State {
    if token !in s.renewals then s
    else
      // A completion that finds its token gone fails, and its drop restores nothing.
      s.(retained := if !InState(s.retained, token, Renewing) then s.retained
                     else s.retained[token := RetainedClaim(s.retained[token].job, leaseUntil, Available)],
         renewals := s.renewals - multiset{token})
  }

  function RenewalRetired(s: State, token: Token): State {
    if token !in s.renewals then s
    else s.(retained := Without(s.retained, token), renewals := s.renewals - multiset{token})
  }

  function RenewalDropped(s: State, token: Token): State {
    if token !in s.renewals then s
    else s.(retained := Restored(s.retained, token, Renewing), renewals := s.renewals - multiset{token})
  }

  function SettlementBegun(s: State, token: Token): State {
    if !InState(s.retained, token, Available) then s
    else s.(retained := WithState(s.retained, token, Settling), settlements := s.settlements + multiset{token})
  }

  function SettlementCompleted(s: State, token: Token): State {
    if token !in s.settlements then s
    else
      s.(retained := Without(s.retained, token), settlements := s.settlements - multiset{token},
         completed := s.completed + multiset{token})
  }

  function SettlementDropped(s: State, token: Token): State {
    if token !in s.settlements then s
    else s.(retained := Restored(s.retained, token, Settling), settlements := s.settlements - multiset{token})
  }

  ghost function Next(s: State, a: Action): State {
    match a
    case Prepare(now, victim) => Prepared(s, now, victim)
    case DropReservation => ReservationDropped(s)
    case Issue(token, job, leaseUntil) => ClaimIssued(s, token, job, leaseUntil)
    case BeginRenewal(token) => RenewalBegun(s, token)
    case CompleteRenewal(token, leaseUntil) => RenewalCompleted(s, token, leaseUntil)
    case RetireRenewal(token) => RenewalRetired(s, token)
    case DropRenewal(token) => RenewalDropped(s, token)
    case BeginSettlement(token) => SettlementBegun(s, token)
    case CompleteSettlement(token) => SettlementCompleted(s, token)
    case DropSettlement(token) => SettlementDropped(s, token)
    case RetireExpired(job, now) => s.(retained := ExpiredRetired(s.retained, job, now))
  }

  ghost function Run(actions: seq<Action>): State {
    if actions == [] then EMPTY else Next(Run(actions[..|actions| - 1]), actions[|actions| - 1])
  }

  // -------------------------------------------------------------- invariant

  /** A token being renewed or settled has its one guard, and no guard is without its token. */
  ghost predicate Guarded(s: State, token: Token) {
    && s.renewals[token] == (if InState(s.retained, token, Renewing) then 1 else 0)
    && s.settlements[token] == (if InState(s.retained, token, Settling) then 1 else 0)
  }

  ghost predicate Inv(s: State) {
    && |s.retained| + s.reservations <= MAX_ACTIVE_CLAIMS
    && s.holders == s.reservations
    && (forall token :: Guarded(s, token))
    && (forall token :: token in s.retained ==> token in s.minted)
    && (forall token :: s.completed[token] <= 1)
    && (forall token :: token in s.completed ==> token in s.minted && token !in s.retained)
  }

  lemma WithoutShrinks(retained: Retained, token: Token)
    requires token in retained
    ensures |Without(retained, token)| == |retained| - 1
  {
    assert Without(retained, token).Keys == retained.Keys - {token};
    assert |retained| == |retained.Keys| && |Without(retained, token)| == |Without(retained, token).Keys|;
  }

  lemma SubmapIsNoLarger(part: Retained, whole: Retained)
    requires part.Keys <= whole.Keys
    ensures |part| <= |whole|
  {
    SubsetIsNoLarger(part.Keys, whole.Keys);
    assert |part| == |part.Keys| && |whole| == |whole.Keys|;
  }

  lemma IssuedIsNoLarger(retained: Retained, token: Token, job: JobId, leaseUntil: int)
    ensures |Issued(retained, token, job, leaseUntil)| <= |retained| + 1
  {
    var issued := Issued(retained, token, job, leaseUntil);
    assert issued.Keys <= retained.Keys + {token};
    SubsetIsNoLarger(issued.Keys, retained.Keys + {token});
    assert |issued| == |issued.Keys| && |retained| == |retained.Keys|;
  }

  /** Tokens in use are exactly as they were, apart from the one an action ends. */
  ghost predicate LeavesTokensInUse(s: State, t: State, ended: Option<Token>) {
    forall token :: token in s.retained && s.retained[token].state != Available && ended != Some(token) ==>
      && token in t.retained && t.retained[token] == s.retained[token]
      && t.renewals[token] == s.renewals[token] && t.settlements[token] == s.settlements[token]
  }

  lemma PreparedKeepsInv(s: State, now: int, victim: Token)
    requires Inv(s)
    ensures Inv(Prepared(s, now, victim)) && LeavesTokensInUse(s, Prepared(s, now, victim), None)
  {
    if OldestExpired(s.retained, now, victim) {
      WithoutShrinks(s.retained, victim);
    }
    forall token ensures Guarded(Prepared(s, now, victim), token) {
      assert Guarded(s, token);
    }
  }

  lemma ReservationDroppedKeepsInv(s: State)
    requires Inv(s)
    ensures Inv(ReservationDropped(s)) && LeavesTokensInUse(s, ReservationDropped(s), None)
  {
    forall token ensures Guarded(ReservationDropped(s), token) {
      assert Guarded(s, token);
    }
  }

  lemma IssuedKeepsInv(s: State, token: Token, job: JobId, leaseUntil: int)
    requires Inv(s)
    ensures Inv(ClaimIssued(s, token, job, leaseUntil)) && LeavesTokensInUse(s, ClaimIssued(s, token, job, leaseUntil), None)
  {
    IssuedIsNoLarger(s.retained, token, job, leaseUntil);
    forall t ensures Guarded(ClaimIssued(s, token, job, leaseUntil), t) {
      assert Guarded(s, t);
    }
  }

  /** A step that leaves the history, the size and every other token alone. */
  lemma OneTokenKeepsInv(s: State, t: State, token: Token)
    requires Inv(s) && Guarded(t, token)
    requires t.reservations == s.reservations && t.holders == s.holders && t.minted == s.minted && t.completed == s.completed
    requires t.retained.Keys <= s.retained.Keys
    requires forall other :: other != token ==>
               && (other in t.retained <==> other in s.retained)
               && (other in s.retained ==> t.retained[other] == s.retained[other])
               && t.renewals[other] == s.renewals[other] && t.settlements[other] == s.settlements[other]
    ensures Inv(t) && LeavesTokensInUse(s, t, Some(token))
  {
    SubmapIsNoLarger(t.retained, s.retained);
    forall other ensures Guarded(t, other) {
      assert Guarded(s, other);
    }
  }

  lemma RenewalBegunKeepsInv(s: State, token: Token)
    requires Inv(s)
    ensures Inv(RenewalBegun(s, token)) && LeavesTokensInUse(s, RenewalBegun(s, token), None)
  {
    assert Guarded(s, token);
    OneTokenKeepsInv(s, RenewalBegun(s, token), token);
  }

  lemma RenewalCompletedKeepsInv(s: State, token: Token, leaseUntil: int)
    requires Inv(s)
    ensures Inv(RenewalCompleted(s, token, leaseUntil)) && LeavesTokensInUse(s, RenewalCompleted(s, token, leaseUntil), Some(token))
  {
    assert Guarded(s, token);
    OneTokenKeepsInv(s, RenewalCompleted(s, token, leaseUntil), token);
  }

  lemma RenewalEndedKeepsInv(s: State, token: Token)
    requires Inv(s)
    ensures Inv(RenewalRetired(s, token)) && LeavesTokensInUse(s, RenewalRetired(s, token), Some(token))
    ensures Inv(RenewalDropped(s, token)) && LeavesTokensInUse(s, RenewalDropped(s, token), Some(token))
  {
    assert Guarded(s, token);
    OneTokenKeepsInv(s, RenewalRetired(s, token), token);
    OneTokenKeepsInv(s, RenewalDropped(s, token), token);
  }

  lemma SettlementStepsKeepInv(s: State, token: Token)
    requires Inv(s)
    ensures Inv(SettlementBegun(s, token)) && LeavesTokensInUse(s, SettlementBegun(s, token), None)
    ensures Inv(SettlementDropped(s, token)) && LeavesTokensInUse(s, SettlementDropped(s, token), Some(token))
  {
    assert Guarded(s, token);
    OneTokenKeepsInv(s, SettlementBegun(s, token), token);
    OneTokenKeepsInv(s, SettlementDropped(s, token), token);
  }

  lemma SettlementCompletedKeepsInv(s: State, token: Token)
    requires Inv(s)
    ensures Inv(SettlementCompleted(s, token)) && LeavesTokensInUse(s, SettlementCompleted(s, token), Some(token))
  {
    assert Guarded(s, token);
    OneTokenKeepsInv(s, SettlementCompleted(s, token).(completed := s.completed), token);
    forall other ensures Guarded(SettlementCompleted(s, token), other) {
      assert Guarded(SettlementCompleted(s, token).(completed := s.completed), other);
    }
  }

  lemma RetireExpiredKeepsInv(s: State, job: JobId, now: int)
    requires Inv(s)
    ensures var t := s.(retained := ExpiredRetired(s.retained, job, now)); Inv(t) && LeavesTokensInUse(s, t, None)
  {
    SubmapIsNoLarger(ExpiredRetired(s.retained, job, now), s.retained);
    forall token ensures Guarded(s.(retained := ExpiredRetired(s.retained, job, now)), token) {
      assert Guarded(s, token);
    }
  }

  /** The token whose renewal or settlement an action ends, if it ends one. */
  function Ended(a: Action): Option<Token> {
    match a
    case CompleteRenewal(token, _) => Some(token)
    case RetireRenewal(token) => Some(token)
    case DropRenewal(token) => Some(token)
    case CompleteSettlement(token) => Some(token)
    case DropSettlement(token) => Some(token)
    case _ => None
  }

  lemma {:induction false} NextKeepsInv(s: State, a: Action)
    requires Inv(s)
    ensures Inv(Next(s, a)) && LeavesTokensInUse(s, Next(s, a), Ended(a))
  {
    match a
    case Prepare(now, victim) => PreparedKeepsInv(s, now, victim);
    case DropReservation => ReservationDroppedKeepsInv(s);
    case Issue(token, job, leaseUntil) => IssuedKeepsInv(s, token, job, leaseUntil);
    case BeginRenewal(token) => RenewalBegunKeepsInv(s, token);
    case CompleteRenewal(token, leaseUntil) => RenewalCompletedKeepsInv(s, token, leaseUntil);
    case RetireRenewal(token) => RenewalEndedKeepsInv(s, token);
    case DropRenewal(token) => RenewalEndedKeepsInv(s, token);
    case BeginSettlement(token) => SettlementStepsKeepInv(s, token);
    case CompleteSettlement(token) => SettlementCompletedKeepsInv(s, token);
    case DropSettlement(token) => SettlementStepsKeepInv(s, token);
    case RetireExpired(job, now) => RetireExpiredKeepsInv(s, job, now);
  }

  lemma {:induction false} RunKeepsInv(actions: seq<Action>)
    ensures Inv(Run(actions))
  {
    if actions != [] {
      RunKeepsInv(actions[..|actions| - 1]);
      NextKeepsInv(Run(actions[..|actions| - 1]), actions[|actions| - 1]);
    }
  }

  // ---------------------------------------------------------------- theorems

  /** In every reachable state the registry is within capacity and its counter is exactly the live reservations. */
  lemma {:induction false} CapacityHolds(actions: seq<Action>)
    ensures var s := Run(actions);
            && |s.retained| + s.reservations <= MAX_ACTIVE_CLAIMS
            && s.holders == s.reservations
            // Releasing a live reservation never saturates.
            && (s.holders > 0 ==> Released(s.reservations) == s.reservations - 1)
  {
    RunKeepsInv(actions);
  }

  /**
   A token is being renewed exactly while one renewal guard for it is alive, and settled
   exactly while one settlement guard is; so completing a live renewal never fails.
   */
  lemma {:induction false} ExactlyOneGuard(actions: seq<Action>, token: Token)
    ensures var s := Run(actions);
            && s.renewals[token] + s.settlements[token] <= 1
            && (token in s.renewals <==> InState(s.retained, token, Renewing))
            && (token in s.settlements <==> InState(s.retained, token, Settling))
  {
    RunKeepsInv(actions);
    assert Guarded(Run(actions), token);
  }

  /** Nothing but its own guard touches a token in use: no eviction, retirement or re-claim removes it. */
  lemma {:induction false} GuardProtectsItsToken(actions: seq<Action>, token: Token, more: seq<Action>)
    requires token in Run(actions).renewals || token in Run(actions).settlements
    requires forall k :: 0 <= k < |more| ==> Ended(more[k]) != Some(token)
    ensures var s, t := Run(actions), Run(actions + more);
            && token in s.retained && token in t.retained && t.retained[token] == s.retained[token]
            && t.renewals[token] == s.renewals[token] && t.settlements[token] == s.settlements[token]
  {
    ExactlyOneGuard(actions, token);
    if more == [] {
      assert actions + more == actions;
    } else {
      var before := actions + more[..|more| - 1];
      assert (actions + more)[..|actions + more| - 1] == before;
      GuardProtectsItsToken(actions, token, more[..|more| - 1]);
      RunKeepsInv(before);
      NextKeepsInv(Run(before), more[|more| - 1]);
    }
  }

  /** A token completes at most one settlement, and after it the token is gone for good. */
  lemma {:induction false} AtMostOneSettlement(actions: seq<Action>, token: Token, more: seq<Action>)
    ensures Run(actions).completed[token] <= 1
    ensures token in Run(actions).completed ==>
              token in Run(actions + more).completed && token !in Run(actions + more).retained
  {
    RunKeepsInv(actions);
    if token in Run(actions).completed {
      CompletedStays(actions, token, more);
      RunKeepsInv(actions + more);
    }
  }

  lemma {:induction false} CompletedStays(actions: seq<Action>, token: Token, more: seq<Action>)
    requires token in Run(actions).completed
    ensures token in Run(actions + more).completed
  {
    if more == [] {
      assert actions + more == actions;
    } else {
      assert (actions + more)[..|actions + more| - 1] == actions + more[..|more| - 1];
      CompletedStays(actions, token, more[..|more| - 1]);
      CompletedOnlyGrows(Run(actions + more[..|more| - 1]), more[|more| - 1]);
    }
  }

  lemma CompletedOnlyGrows(s: State, a: Action)
    ensures s.completed <= Next(s, a).completed
  {
  }

  /** A claim is turned away exactly when the registry is full and nothing in it has lapsed. */
  lemma {:induction false} RefusedOnlyWhenFullOfLiveClaims(actions: seq<Action>, now: int)
    ensures var s := Run(actions);
            (forall victim :: Next(s, Prepare(now, victim)) == s) <==>
              |s.retained| + s.reservations == MAX_ACTIVE_CLAIMS && forall t :: t in s.retained ==> !IsExpired(s.retained[t], now)
  {
    RunKeepsInv(actions);
    var s := Run(actions);
    if |s.retained| + s.reservations < MAX_ACTIVE_CLAIMS {
      assert Next(s, Prepare(now, 0)).reservations != s.reservations;
    } else if exists t :: t in s.retained && IsExpired(s.retained[t], now) {
      var victim := SomeOldest(s.retained, now);
      assert Next(s, Prepare(now, victim)).reservations != s.reservations;
    }
  }

  lemma {:induction false} SomeOldest(retained: Retained, now: int) returns (victim: Token)
    requires exists t :: t in retained && IsExpired(retained[t], now)
    ensures OldestExpired(retained, now, victim)
    decreases |retained|
  {
    victim :| victim in retained && IsExpired(retained[victim], now);
    var rest := Without(retained, victim);
    forall t | t in retained && t != victim ensures t in rest && rest[t] == retained[t] {}
    if exists t :: t in rest && IsExpired(rest[t], now) {
      WithoutShrinks(retained, victim);
      var other := SomeOldest(rest, now);
      if retained[other].leaseUntil < retained[victim].leaseUntil {
        victim := other;
      }
    }
  }

  // ------------------------------------------------- the fate of one token

  function At(retained: Retained, token: Token): Option<RetainedClaim> {
    if token in retained then Some(retained[token]) else None
  }

  /** Whether an issue goes through: under a live reservation, with a token never seen before. */
  predicate Issues(s: State, a: Action) {
    a.Issue? && s.holders > 0 && a.token !in s.minted
  }

  /** Whether a step may drop a token nobody is using, and why. */
  ghost predicate Drops(s: State, a: Action, token: Token)
    requires token in s.retained
  {
    var claim := s.retained[token];
    match a
    // Its own job was claimed again.
    case Issue(_, job, _) => Issues(s, a) && job == claim.job
    // It has lapsed, none lapsed before it, and room is needed.
    case Prepare(now, victim) =>
      && victim == token && claim.leaseUntil < now && |s.retained| + s.reservations >= MAX_ACTIVE_CLAIMS
      && forall t :: t in s.retained && s.retained[t].state == Available && s.retained[t].leaseUntil < now ==>
           claim.leaseUntil <= s.retained[t].leaseUntil
    // It has lapsed, and nothing runs under its job's lapsed tokens.
    case RetireExpired(job, now) => job == claim.job && claim.leaseUntil < now
    case _ => false
  }

  /** What becomes of one token in one step. */
  ghost function Fate(s: State, a: Action, token: Token): Option<RetainedClaim> {
    if token !in s.retained then
      if Issues(s, a) && a.token == token then Some(RetainedClaim(a.job, a.leaseUntil, Available)) else None
    else
      var claim := s.retained[token];
      match claim.state
      case Available =>
        if a == BeginRenewal(token) then Some(claim.(state := Renewing))
        else if a == BeginSettlement(token) then Some(claim.(state := Settling))
        else if Drops(s, a, token) then None
        else Some(claim)
      case Renewing =>
        (match a
         case CompleteRenewal(t, leaseUntil) => Some(if t == token then RetainedClaim(claim.job, leaseUntil, Available) else claim)
         case RetireRenewal(t) => if t == token then None else Some(claim)
         case DropRenewal(t) => Some(if t == token then claim.(state := Available) else claim)
         case _ => Some(claim))
      case Settling =>
        (match a
         case CompleteSettlement(t) => if t == token then None else Some(claim)
         case DropSettlement(t) => Some(if t == token then claim.(state := Available) else claim)
         case _ => Some(claim))
  }

  /**
   What any step of any run does to any one token. A token nobody is using leaves the
   registry only when its own job is claimed again, or lapsed, to make room or with its
   job's other lapsed tokens; its renewal or settlement takes it out of circulation and
   gives it back, renewed, as it was, or spent; and only an issue brings one in.
   */
  lemma {:induction false} StepDecidesEachToken(actions: seq<Action>, a: Action, token: Token)
    ensures At(Next(Run(actions), a).retained, token) == Fate(Run(actions), a, token)
  {
    RunKeepsInv(actions);
    var s := Run(actions);
    FateByInv(s, a, token);
  }

  lemma FateByInv(s: State, a: Action, token: Token)
    requires Guarded(s, token) && (token in s.retained ==> token in s.minted)
    ensures At(Next(s, a).retained, token) == Fate(s, a, token)
  {
    match a
    case Prepare(now, victim) => FateOfPrepare(s, now, victim, token);
    case Issue(t, job, leaseUntil) => FateOfIssue(s, t, job, leaseUntil, token);
    case RetireExpired(job, now) =>
    case DropReservation =>
    case BeginRenewal(t) => FateOfBeginning(s, t, token);
    case BeginSettlement(t) => FateOfBeginning(s, t, token);
    case CompleteRenewal(t, leaseUntil) => FateOfRenewed(s, t, leaseUntil, token);
    case RetireRenewal(t) => FateOfRetiredRenewal(s, t, token);
    case CompleteSettlement(t) => FateOfSettled(s, t, token);
    case DropRenewal(t) => FateOfDroppedRenewal(s, t, token);
    case DropSettlement(t) => FateOfDroppedSettlement(s, t, token);
  }

  lemma FateOfPrepare(s: State, now: int, victim: Token, token: Token)
    ensures At(Prepared(s, now, victim).retained, token) == Fate(s, Prepare(now, victim), token)
  {
  }

  lemma FateOfIssue(s: State, t: Token, job: JobId, leaseUntil: int, token: Token)
    requires token in s.retained ==> token in s.minted
    ensures At(ClaimIssued(s, t, job, leaseUntil).retained, token) == Fate(s, Issue(t, job, leaseUntil), token)
  {
  }

  lemma FateOfBeginning(s: State, t: Token, token: Token)
    ensures At(RenewalBegun(s, t).retained, token) == Fate(s, BeginRenewal(t), token)
    ensures At(SettlementBegun(s, t).retained, token) == Fate(s, BeginSettlement(t), token)
  {
  }

  lemma FateOfRenewed(s: State, t: Token, leaseUntil: int, token: Token)
    requires Guarded(s, token)
    ensures At(RenewalCompleted(s, t, leaseUntil).retained, token) == Fate(s, CompleteRenewal(t, leaseUntil), token)
  {
  }

  lemma FateOfRetiredRenewal(s: State, t: Token, token: Token)
    requires Guarded(s, token)
    ensures At(RenewalRetired(s, t).retained, token) == Fate(s, RetireRenewal(t), token)
  {
    assert token in s.renewals <==> InState(s.retained, token, Renewing);
    if t != token {
      assert At(RenewalRetired(s, t).retained, token) == At(s.retained, token);
    }
  }

  lemma FateOfDroppedRenewal(s: State, t: Token, token: Token)
    requires Guarded(s, token)
    ensures At(RenewalDropped(s, t).retained, token) == Fate(s, DropRenewal(t), token)
  {
    assert token in s.renewals <==> InState(s.retained, token, Renewing);
    if t != token {
      assert At(RenewalDropped(s, t).retained, token) == At(s.retained, token);
    }
  }

  lemma FateOfSettled(s: State, t: Token, token: Token)
    requires Guarded(s, token)
    ensures At(SettlementCompleted(s, t).retained, token) == Fate(s, CompleteSettlement(t), token)
  {
    assert token in s.settlements <==> InState(s.retained, token, Settling);
    if t != token {
      assert At(SettlementCompleted(s, t).retained, token) == At(s.retained, token);
    }
  }

  lemma FateOfDroppedSettlement(s: State, t: Token, token: Token)
    requires Guarded(s, token)
    ensures At(SettlementDropped(s, t).retained, token) == Fate(s, DropSettlement(t), token)
  {
    assert token in s.settlements <==> InState(s.retained, token, Settling);
    if t != token {
      assert At(SettlementDropped(s, t).retained, token) == At(s.retained, token);
    }
  }

  /** A claim reserves a slot exactly when there is room, or a lapsed token named to make it; an issue or a drop gives it back. */
  lemma {:induction false} StepDecidesReservations(actions: seq<Action>, a: Action)
    ensures var s, t := Run(actions), Next(Run(actions), a);
            t.reservations ==
              match a
              case Prepare(now, victim) =>
                if |s.retained| + s.reservations < MAX_ACTIVE_CLAIMS
                   || (InState(s.retained, victim, Available) && Drops(s, a, victim))
                then s.reservations + 1 else s.reservations
              case Issue(_, _, _) => if Issues(s, a) then s.reservations - 1 else s.reservations
              case DropReservation => if s.reservations > 0 then s.reservations - 1 else 0
              case _ => s.reservations
  {
    RunKeepsInv(actions);
  }

  /** At the moment it is issued, a token is its job's only available one. */
  lemma IssuedIsTheOnlyAvailable(retained: Retained, token: Token, job: JobId, leaseUntil: int, other: Token)
    ensures var issued := Issued(retained, token, job, leaseUntil);
            InState(issued, other, Available) && issued[other].job == job <==> other == token
  {
  }

  /** It need not stay so: re-claiming a job while an earlier token of it is being renewed ends with both available. */
  lemma RenewedTokenStaysBesideItsSuccessor(s: State, token: Token, successor: Token, leaseUntil: int, renewedUntil: int)
    requires Inv(s) && InState(s.retained, token, Renewing) && s.holders > 0 && successor !in s.minted
    ensures var job := s.retained[token].job;
            var t := Next(Next(s, Issue(successor, job, leaseUntil)), CompleteRenewal(token, renewedUntil));
            && token != successor
            && InState(t.retained, token, Available) && t.retained[token].job == job
            && InState(t.retained, successor, Available) && t.retained[successor].job == job
  {
    assert Guarded(s, token);
  }
}
