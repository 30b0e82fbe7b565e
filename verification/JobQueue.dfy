/**
 The durable job protocol as a transition system.

 A job is an event stream plus one `job_queue` row. Enqueues, claims and renewals
 are single write-locked transactions. A settlement is three separate steps: load
 the folded aggregate, append its outcome at the loaded sequence plus one, and let
 the reactor advance the row, which is itself a load and a version-guarded save
 that may be lost. Any number of workers, settlements and reactions may be in
 flight. A crash forgets everything in memory; recovery replays or rebuilds rows
 before workers run again.

 `Next` is total: an action that is not enabled leaves the system as it is, so
 every sequence of actions is a run and every interleaving is such a sequence.
 */
module JobQueue {
  import opened Prelude
  import opened Outbox
  import opened EventTable
  import opened Lifecycles
  import opened Jobs
  import opened Projection

  type JobLog = seq<Stored<JobEvent>>
  type JobView = View<JobState, JobEvent, JobError>

  /** A `job_queue` row. The lease is a column of its own: no event carries it into the fold. */
  datatype Row = Row(view: JobView, lease: Option<int>)

  /** The capability a won claim hands its worker. */
  datatype Handle = Handle(claimSeq: nat, claimId: ClaimId, attempt: nat)

  /** A settlement that has loaded the job and not yet tried to commit. */
  datatype Settlement = Settlement(handle: Handle, command: JobCommand, base: nat, state: JobLifecycle)

  /** A committed outcome whose row update has not run; `seen` is the view it loaded. */
  datatype Reaction = Reaction(event: JobEvent, seen: Option<JobView>)

  /**
   `log` and `row` are durable; `settling` and `reactions` are in memory. `won` and
   `settledBy` are history: the claims ever won, and which claim's settlement
   appended the event at a sequence.
   */
  datatype JobRecord = JobRecord(log: JobLog, row: Option<Row>,
                                 settling: set<Settlement>, reactions: set<Reaction>,
                                 won: set<Handle>, settledBy: map<nat, ClaimId>)

  datatype System = System(running: bool, jobs: map<JobId, JobRecord>, minted: set<ClaimId>)

  datatype Action =
    | Enqueue(job: JobId, kind: string, payload: string, runAt: int)
    | ClaimJob(job: JobId, worker: string, now: int, lease: int, maxClaims: nat, claimId: ClaimId)
    | RenewJob(job: JobId, claimSeq: nat, newLease: int)
    | LoadJob(job: JobId, handle: Handle, command: JobCommand)
    | CommitSettlement(job: JobId, settlement: Settlement)
    | LoadView(job: JobId, reaction: Reaction)
    | SaveView(job: JobId, reaction: Reaction)
    | LoseView(job: JobId, reaction: Reaction)
    | Crash
    | WipeRows
    | ReplayRow(job: JobId)
    | Resume

  const EMPTY := System(true, map[], {})

  // ------------------------------------------------------------ transactions

  function SeedRow(kind: string, payload: string, runAt: int): Row {
    Row(View(1, Some(Live(Pending(kind, payload, runAt, 0, 0)))), None)
  }

  /** Appends `Enqueued` at sequence 1 and seeds the row, or refuses a job id already in use. */
  function EnqueueTransaction(log: JobLog, kind: string, payload: string, runAt: int): Option<(JobLog, Row)> {
    if !IsInstant(runAt) then None
    else
      var appended := Insert(log, Stored(1, Enqueued(kind, payload, runAt)));
      if appended.None? then None else Some((appended.value, SeedRow(kind, payload, runAt)))
  }

  datatype ClaimOutcome = Won(won: WonClaim) | GaveUp | Contended | Skipped

  datatype ClaimResult = ClaimResult(outcome: ClaimOutcome, log: JobLog, row: Option<Row>)

  function ReadForClaim(row: Option<Row>): Option<ClaimRead> {
    if row.None? then None
    else Some(ClaimRead(row.value.view.version, row.value.view.payload, row.value.lease))
  }

  function ClaimTransaction(log: JobLog, row: Option<Row>, worker: string, now: int, lease: int, maxClaims: nat, claimId: ClaimId)
    : ClaimResult
  {
    match PlanClaim(ReadForClaim(row), worker, now, lease, maxClaims, claimId)
    case Skip => ClaimResult(Skipped, log, row)
    case Claim(sequence, event, payload, leaseUntil, won) =>
      (match Insert(log, Stored(sequence, event))
       case None => ClaimResult(Contended, log, row)
       case Some(appended) =>
         ClaimResult(Won(won), appended, Some(Row(View(sequence, Some(payload)), Some(leaseUntil)))))
    case Abandon(sequence, event, payload) =>
      (match Insert(log, Stored(sequence, event))
       case None => ClaimResult(Contended, log, row)
       case Some(appended) => ClaimResult(GaveUp, appended, Some(Row(View(sequence, Some(payload)), None))))
  }

  /** The claim facade refuses these before it opens a transaction. */
  predicate ValidClaimPolicy(now: int, lease: int, maxClaims: nat) {
    lease > 0 && maxClaims > 0 && IsInstant(now + lease)
  }

  predicate ShowsClaimed(row: Row) {
    row.view.payload.Some? && row.view.payload.value.Live? && row.view.payload.value.entity.Held?
  }

  /** Extends the lease of the row a claim advanced to `claimSeq`; `None` when that claim lost the row. */
  function RenewedRow(row: Option<Row>, claimSeq: nat, newLease: int): Option<Row> {
    if row.Some? && row.value.view.version == claimSeq && ShowsClaimed(row.value)
    then Some(row.value.(lease := Some(newLease)))
    else None
  }

  /** The settlement commands a handle can produce: its own fence, and one more attempt than it saw. */
  predicate CommandOf(handle: Handle, command: JobCommand) {
    && command.claimId == handle.claimId
    && (command.RetrySchedule? ==> command.attempt == handle.attempt + 1)
  }

  datatype SettlementVerdict = Recorded | FencedOff | Refused

  /** Tries to append a settlement's outcome at its loaded sequence plus one. */
  function SettleTransaction(log: JobLog, s: Settlement): (SettlementVerdict, Option<JobLog>) {
    match Settled(s.state, s.command)
    case Ok(events) =>
      if events == [] then (Recorded, None)
      else
        var appended := Insert(log, Stored(s.base + 1, events[0]));
        if appended.None? then (FencedOff, None) else (Recorded, appended)
    case Err(Apply(_)) => (FencedOff, None)
    case Err(_) => (Refused, None)
  }

  // ----------------------------------------------------------------- one job

  function Claiming(r: JobRecord, worker: string, now: int, lease: int, maxClaims: nat, claimId: ClaimId): JobRecord {
    var result := ClaimTransaction(r.log, r.row, worker, now, lease, maxClaims, claimId);
    var won := match result.outcome
               case Won(w) => {Handle(w.claimSeq, w.claimId, w.attempt)}
               case _ => {};
    r.(log := result.log, row := result.row, won := r.won + won)
  }

  function Renewing(r: JobRecord, claimSeq: nat, newLease: int): JobRecord {
    var renewed := RenewedRow(r.row, claimSeq, newLease);
    if renewed.None? then r else r.(row := renewed)
  }

  function Loading(r: JobRecord, handle: Handle, command: JobCommand): JobRecord {
    if handle !in r.won || !CommandOf(handle, command) then r
    else r.(settling := r.settling + {Settlement(handle, command, LastSequence(r.log), Folded(Events(r.log)))})
  }

  function Settling(r: JobRecord, s: Settlement): JobRecord {
    if s !in r.settling then r
    else
      var (_, appended) := SettleTransaction(r.log, s);
      var done := r.(settling := r.settling - {s});
      if appended.None? then done
      else
        done.(log := appended.value,
              reactions := r.reactions + {Reaction(Outcome(s.command), None)},
              settledBy := r.settledBy[s.base + 1 := s.command.claimId])
  }

  function LoadingView(r: JobRecord, reaction: Reaction): JobRecord {
    if reaction !in r.reactions || r.row.None? then r
    else r.(reactions := r.reactions - {reaction} + {reaction.(seen := Some(r.row.value.view))})
  }

  /** The version-guarded save; when it misses, the reaction goes back to loading. */
  function SavingView(r: JobRecord, reaction: Reaction): JobRecord {
    if reaction !in r.reactions || reaction.seen.None? then r
    else
      var next := Reacted(JOB, reaction.seen, reaction.event);
      if next.None? then r.(reactions := r.reactions - {reaction})
      else if r.row.None? || r.row.value.view.version != reaction.seen.value.version then
        r.(reactions := r.reactions - {reaction} + {reaction.(seen := None)})
      else
        r.(reactions := r.reactions - {reaction}, row := Some(r.row.value.(view := next.value)))
  }

  function Crashed(r: JobRecord): JobRecord {
    r.(settling := {}, reactions := {})
  }

  /** Replaying overwrites version and payload; an existing row keeps its lease column. */
  function Replayed(r: JobRecord): JobRecord {
    var view := if r.row.None? then None else Some(r.row.value.view);
    if !Behind(r.log, view) then r
    else
      var lease := if r.row.None? then None else r.row.value.lease;
      r.(row := Some(Row(CaughtUp(JOB, r.log, view), lease)))
  }

  predicate RowCurrent(r: JobRecord) {
    r.row.Some? && r.row.value.view.version == LastSequence(r.log)
  }

  function Enqueuing(r: JobRecord, kind: string, payload: string, runAt: int): JobRecord {
    var enqueued := EnqueueTransaction(r.log, kind, payload, runAt);
    if enqueued.None? then r else r.(log := enqueued.value.0, row := Some(enqueued.value.1))
  }

  const UNBORN := JobRecord([], None, {}, {}, {}, map[])

  /** Actions aimed at one job; the others concern the whole process. */
  predicate Targeted(a: Action) {
    !a.Crash? && !a.WipeRows? && !a.Resume?
  }

  function JobNext(r: JobRecord, running: bool, minted: set<ClaimId>, a: Action): JobRecord {
    match a
    case Enqueue(_, kind, payload, runAt) => Enqueuing(r, kind, payload, runAt)
    case ReplayRow(_) => if running then r else Replayed(r)
    case _ => if running then RunningNext(r, minted, a) else r
  }

  function RunningNext(r: JobRecord, minted: set<ClaimId>, a: Action): JobRecord {
    match a
    case ClaimJob(_, worker, now, lease, maxClaims, claimId) =>
      // Claim ids are minted fresh.
      if claimId in minted || !ValidClaimPolicy(now, lease, maxClaims) then r
      else Claiming(r, worker, now, lease, maxClaims, claimId)
    case RenewJob(_, claimSeq, newLease) => Renewing(r, claimSeq, newLease)
    case LoadJob(_, handle, command) => Loading(r, handle, command)
    case CommitSettlement(_, settlement) => Settling(r, settlement)
    case LoadView(_, reaction) => LoadingView(r, reaction)
    case SaveView(_, reaction) => SavingView(r, reaction)
    case LoseView(_, reaction) => r.(reactions := r.reactions - {reaction})
    case _ => r
  }

  // --------------------------------------------------------------- the system

  function Next(s: System, a: Action): System {
    if Targeted(a) then
      if a.job !in s.jobs && JobNext(UNBORN, s.running, s.minted, a) == UNBORN then s
      else
        var r := if a.job in s.jobs then s.jobs[a.job] else UNBORN;
        System(s.running,
               s.jobs[a.job := JobNext(r, s.running, s.minted, a)],
               if a.ClaimJob? then s.minted + {a.claimId} else s.minted)
    else
      match a
      case Crash => System(false, map j | j in s.jobs :: Crashed(s.jobs[j]), s.minted)
      case WipeRows => if s.running then s else s.(jobs := map j | j in s.jobs :: s.jobs[j].(row := None))
      // Recovery is over once no view is behind.
      case Resume => if forall j :: j in s.jobs ==> RowCurrent(s.jobs[j]) then s.(running := true) else s
  }

  function RunFrom(s: System, actions: seq<Action>): System {
    if actions == [] then s
    else Next(RunFrom(s, actions[..|actions| - 1]), actions[|actions| - 1])
  }

  function Run(actions: seq<Action>): System {
    RunFrom(EMPTY, actions)
  }
}

/** What every reachable state of the job protocol satisfies, and why each action keeps it. */
module JobInvariants {
  import opened Prelude
  import opened Outbox
  import opened EventTable
  import opened Lifecycles
  import opened Jobs
  import opened Projection
  import opened JobQueue

  /** The stream folds without error, its claim ids are distinct and minted, its retries numbered. */
  ghost predicate StreamInv(events: seq<JobEvent>, minted: set<ClaimId>) {
    && Folded(events).Live?
    && ClaimIdsUnique(events)
    && AttemptsOrdinal(events)
    && forall i :: 0 <= i < |events| && events[i].Claimed? ==> events[i].claimId in minted
  }

  /** The row is the fold of a prefix that misses at most the last event, and then a settlement. */
  ghost predicate RowInv(events: seq<JobEvent>, settledBy: map<nat, ClaimId>, row: Row) {
    && 1 <= row.view.version <= |events| <= row.view.version + 1
    && row.view.payload == Some(Folded(events[..row.view.version]))
    && (row.view.version < |events| ==> |events| in settledBy)
  }

  ghost predicate HandleInv(events: seq<JobEvent>, h: Handle) {
    && 2 <= h.claimSeq <= |events|
    && events[h.claimSeq - 1].Claimed? && events[h.claimSeq - 1].claimId == h.claimId
    && h.attempt == Retries(events[..h.claimSeq])
  }

  ghost predicate SettlementInv(events: seq<JobEvent>, won: set<Handle>, s: Settlement) {
    && s.handle in won && CommandOf(s.handle, s.command)
    && 1 <= s.base <= |events| && s.handle.claimSeq <= s.base
    && s.state == Folded(events[..s.base])
  }

  /** At most one reaction is pending, and only for the event the row lacks. */
  ghost predicate ReactionsInv(events: seq<JobEvent>, row: Option<Row>, reactions: set<Reaction>) {
    && |reactions| <= 1
    && forall u :: u in reactions ==>
         && row.Some? && row.value.view.version + 1 == |events|
         && u.event == events[|events| - 1]
         && (u.seen.Some? ==> u.seen == Some(row.value.view))
  }

  /** A recorded settlement settled the claim that held the job at that moment. */
  ghost predicate SettledAt(events: seq<JobEvent>, q: nat, claimId: ClaimId) {
    1 <= q <= |events| && IsOutcome(events[q - 1]) && HolderBefore(events, q - 1) == Some(claimId)
  }

  ghost predicate HistoryInv(events: seq<JobEvent>, settledBy: map<nat, ClaimId>) {
    && (forall q :: q in settledBy ==> SettledAt(events, q, settledBy[q]))
    && (forall i :: 0 <= i < |events| && IsOutcome(events[i]) && events[i] != BUDGET_EXHAUSTED ==> i + 1 in settledBy)
  }

  ghost predicate RecordInv(r: JobRecord, running: bool, minted: set<ClaimId>) {
    var events := Events(r.log);
    && Dense(r.log)
    && StreamInv(events, minted)
    && (running ==> r.row.Some?)
    && (r.row.Some? ==> RowInv(events, r.settledBy, r.row.value))
    && (forall h :: h in r.won ==> HandleInv(events, h))
    && (forall s :: s in r.settling ==> SettlementInv(events, r.won, s))
    && ReactionsInv(events, r.row, r.reactions)
    && (!running ==> r.settling == {} && r.reactions == {})
    && HistoryInv(events, r.settledBy)
  }

  ghost predicate Inv(s: System) {
    forall j :: j in s.jobs ==> RecordInv(s.jobs[j], s.running, s.minted)
  }

  // ------------------------------------------------------- growing a stream

  lemma PrefixOfSnoc(events: seq<JobEvent>, event: JobEvent, n: nat)
    requires n <= |events|
    ensures (events + [event])[..n] == events[..n]
  {
  }

  lemma OrdinalsGrow(events: seq<JobEvent>, event: JobEvent)
    requires AttemptsOrdinal(events) && (event.RetryScheduled? ==> event.attempt == Retries(events) + 1)
    ensures AttemptsOrdinal(events + [event])
  {
    var grown := events + [event];
    forall i | 0 <= i < |grown| && grown[i].RetryScheduled? ensures grown[i].attempt == Retries(grown[..i + 1]) {
      if i < |events| {
        PrefixOfSnoc(events, event, i + 1);
      } else {
        assert grown[..i + 1] == grown;
        RetriesSnoc(events, event);
      }
    }
  }

  lemma StreamGrows(events: seq<JobEvent>, event: JobEvent, minted: set<ClaimId>)
    requires StreamInv(events, minted)
    requires Applied(JOB, Folded(events), event).Live?
    requires event.Claimed? ==> event.claimId !in minted
    requires event.RetryScheduled? ==> event.attempt == Retries(events) + 1
    ensures StreamInv(events + [event], if event.Claimed? then minted + {event.claimId} else minted)
  {
    FoldedSnoc(events, event);
    OrdinalsGrow(events, event);
  }

  lemma HandlesSurvive(events: seq<JobEvent>, event: JobEvent, h: Handle)
    requires HandleInv(events, h)
    ensures HandleInv(events + [event], h)
  {
    PrefixOfSnoc(events, event, h.claimSeq);
  }

  lemma SettlementsSurvive(events: seq<JobEvent>, event: JobEvent, won: set<Handle>, won': set<Handle>, s: Settlement)
    requires SettlementInv(events, won, s) && won <= won'
    ensures SettlementInv(events + [event], won', s)
  {
    PrefixOfSnoc(events, event, s.base);
  }

  /** Appends keep the history; `settler` is the claim whose settlement appended, if one did. */
  lemma {:induction false} HistoryGrows(events: seq<JobEvent>, event: JobEvent, settledBy: map<nat, ClaimId>, settler: Option<ClaimId>)
    requires HistoryInv(events, settledBy)
    requires settler.Some? ==> IsOutcome(event) && HolderBefore(events, |events|) == settler
    requires settler.None? ==> !IsOutcome(event) || event == BUDGET_EXHAUSTED
    ensures HistoryInv(events + [event], if settler.Some? then settledBy[|events| + 1 := settler.value] else settledBy)
  {
    var later := if settler.Some? then settledBy[|events| + 1 := settler.value] else settledBy;
    forall q | q in later ensures SettledAt(events + [event], q, later[q]) {
      if q in settledBy && SettledAt(events, q, settledBy[q]) {
        SettledStays(events, event, q, settledBy[q]);
      } else {
        HolderBeforeSnoc(events, event, |events|);
      }
    }
  }

  lemma SettledStays(events: seq<JobEvent>, event: JobEvent, q: nat, claimId: ClaimId)
    requires SettledAt(events, q, claimId)
    ensures SettledAt(events + [event], q, claimId)
  {
    HolderBeforeSnoc(events, event, q - 1);
  }

  lemma HolderBeforeSnoc(events: seq<JobEvent>, event: JobEvent, n: nat)
    requires n <= |events|
    ensures HolderBefore(events + [event], n) == HolderBefore(events, n)
  {
    PrefixOfSnoc(events, event, n);
  }

  /** The parts of a record that only look at the past survive an append. */
  lemma RecordGrows(r: JobRecord, minted: set<ClaimId>, event: JobEvent, t: JobRecord)
    requires RecordInv(r, true, minted)
    requires t.log == r.log + [Stored(|r.log| + 1, event)]
    requires Applied(JOB, Folded(Events(r.log)), event).Live?
    requires event.Claimed? ==> event.claimId !in minted
    requires event.RetryScheduled? ==> event.attempt == Retries(Events(r.log)) + 1
    requires t.settling <= r.settling && r.won <= t.won
    ensures Dense(t.log) && Events(t.log) == Events(r.log) + [event]
    ensures StreamInv(Events(t.log), if event.Claimed? then minted + {event.claimId} else minted)
    ensures forall h :: h in r.won ==> HandleInv(Events(t.log), h)
    ensures forall s :: s in t.settling ==> SettlementInv(Events(t.log), t.won, s)
  {
    var events := Events(r.log);
    InsertDense(r.log, Stored(|r.log| + 1, event));
    StreamGrows(events, event, minted);
    forall h | h in r.won ensures HandleInv(events + [event], h) {
      HandlesSurvive(events, event, h);
    }
    forall s | s in t.settling ensures SettlementInv(events + [event], t.won, s) {
      SettlementsSurvive(events, event, r.won, t.won, s);
    }
  }

  // ------------------------------------------------------------ each action

  lemma EnqueueEstablishesInv(kind: string, payload: string, runAt: int, running: bool, minted: set<ClaimId>)
    requires IsInstant(runAt)
    ensures var enqueued := EnqueueTransaction([], kind, payload, runAt);
            && enqueued.Some?
            && RecordInv(JobRecord(enqueued.value.0, Some(enqueued.value.1), {}, {}, {}, map[]), running, minted)
  {
    var event := Enqueued(kind, payload, runAt);
    InsertDense([], Stored(1, event));
    FoldedSnoc([], event);
    assert [] + [event] == [event] && [event][..1] == [event];
    assert Events([Stored(1, event)]) == [event];
  }

  /** What a plan writes to the row is what folding its event gives. */
  lemma PlanFollowsEvolve(read: ClaimRead, worker: string, now: int, lease: int, maxClaims: nat, claimId: ClaimId)
    requires read.payload.Some?
    ensures var plan := PlanClaim(Some(read), worker, now, lease, maxClaims, claimId);
            !plan.Skip? ==>
              && Applied(JOB, read.payload.value, plan.event) == plan.payload && plan.payload.Live?
              && plan.sequence == read.version + 1
              && (plan.Claim? ==> read.payload.value.Live? && plan.won.attempt == read.payload.value.entity.attempt)
              && !plan.event.RetryScheduled?
              && (plan.Claim? ==> plan.event.Claimed?)
  {
  }

  /** A claim or abandonment is appended only from a row that shows the whole stream. */
  lemma LandedClaimSawTheHead(r: JobRecord, minted: set<ClaimId>, worker: string, now: int, lease: int, maxClaims: nat, claimId: ClaimId)
    requires RecordInv(r, true, minted)
    requires var plan := PlanClaim(ReadForClaim(r.row), worker, now, lease, maxClaims, claimId);
             !plan.Skip? && Insert(r.log, Stored(plan.sequence, plan.event)).Some?
    ensures var plan := PlanClaim(ReadForClaim(r.row), worker, now, lease, maxClaims, claimId);
            var events := Events(r.log);
            && r.row.value.view == View(|events|, Some(Folded(events)))
            && plan.sequence == |events| + 1
            && Insert(r.log, Stored(plan.sequence, plan.event)) == Some(r.log + [Stored(|r.log| + 1, plan.event)])
            && Folded(events + [plan.event]) == plan.payload
            && Applied(JOB, Folded(events), plan.event) == plan.payload
            && (plan.Claim? ==> plan.won.attempt == Retries(events + [plan.event]))
  {
    var plan := PlanClaim(ReadForClaim(r.row), worker, now, lease, maxClaims, claimId);
    var events := Events(r.log);
    PlanFollowsEvolve(ReadForClaim(r.row).value, worker, now, lease, maxClaims, claimId);
    InsertDense(r.log, Stored(plan.sequence, plan.event));
    assert events[..|events|] == events;
    FoldedSnoc(events, plan.event);
    if plan.Claim? {
      FoldedCounters(events);
      assert (events + [plan.event])[..|events|] == events;
    }
  }

  /** An append that advances the row in the same transaction keeps the invariant. */
  lemma {:induction false} AppendWithRowKeepsInv(
    r: JobRecord, minted: set<ClaimId>, event: JobEvent, lease: Option<int>, news: set<Handle>, t: JobRecord)
    requires RecordInv(r, true, minted)
    requires r.row.value.view.version == |r.log|
    requires Applied(JOB, Folded(Events(r.log)), event).Live?
    requires (event.Claimed? && event.claimId !in minted) || event == BUDGET_EXHAUSTED
    requires forall h :: h in news ==> HandleInv(Events(r.log) + [event], h)
    requires t == r.(log := r.log + [Stored(|r.log| + 1, event)],
                     row := Some(Row(View(|r.log| + 1, Some(Folded(Events(r.log) + [event]))), lease)),
                     won := r.won + news)
    ensures RecordInv(t, true, if event.Claimed? then minted + {event.claimId} else minted)
  {
    var events := Events(r.log);
    RecordGrows(r, minted, event, t);
    HistoryGrows(events, event, r.settledBy, None);
    CurrentRowHasNoReactions(events, r.row, r.reactions);
    FullRowInv(events + [event], r.settledBy, lease);
  }

  lemma FullRowInv(events: seq<JobEvent>, settledBy: map<nat, ClaimId>, lease: Option<int>)
    requires events != []
    ensures RowInv(events, settledBy, Row(View(|events|, Some(Folded(events))), lease))
  {
    assert events[..|events|] == events;
  }

  lemma CurrentRowHasNoReactions(events: seq<JobEvent>, row: Option<Row>, reactions: set<Reaction>)
    requires ReactionsInv(events, row, reactions) && row.Some? && row.value.view.version == |events|
    ensures reactions == {}
  {
  }

  function NewHandles(plan: ClaimDecision): set<Handle> {
    if plan.Claim? then {Handle(plan.won.claimSeq, plan.won.claimId, plan.won.attempt)} else {}
  }

  lemma ClaimingByPlan(r: JobRecord, worker: string, now: int, lease: int, maxClaims: nat, claimId: ClaimId)
    ensures var plan := PlanClaim(ReadForClaim(r.row), worker, now, lease, maxClaims, claimId);
            Claiming(r, worker, now, lease, maxClaims, claimId) ==
              if plan.Skip? || Insert(r.log, Stored(plan.sequence, plan.event)).None? then r
              else
                r.(log := Insert(r.log, Stored(plan.sequence, plan.event)).value,
                   row := Some(Row(View(plan.sequence, Some(plan.payload)),
                                   if plan.Claim? then Some(plan.leaseUntil) else None)),
                   won := r.won + NewHandles(plan))
  {
    assert r.won + {} == r.won;
  }

  lemma {:induction false} LandedClaimKeepsInv(r: JobRecord, minted: set<ClaimId>, plan: ClaimDecision, t: JobRecord)
    requires RecordInv(r, true, minted) && !plan.Skip? && r.row.value.view.version == |r.log|
    requires Applied(JOB, Folded(Events(r.log)), plan.event) == plan.payload && plan.payload.Live?
    requires Folded(Events(r.log) + [plan.event]) == plan.payload && plan.sequence == |r.log| + 1
    requires if plan.Claim? then
               && plan.event.Claimed? && plan.event.claimId == plan.won.claimId && plan.won.claimId !in minted
               && plan.won.claimSeq == |r.log| + 1 && plan.won.attempt == Retries(Events(r.log) + [plan.event])
             else plan.event == BUDGET_EXHAUSTED
    requires t == r.(log := r.log + [Stored(|r.log| + 1, plan.event)],
                     row := Some(Row(View(plan.sequence, Some(plan.payload)), if plan.Claim? then Some(plan.leaseUntil) else None)),
                     won := r.won + NewHandles(plan))
    ensures RecordInv(t, true, if plan.Claim? then minted + {plan.won.claimId} else minted)
  {
    var grown := Events(r.log) + [plan.event];
    assert grown[..|grown|] == grown;
    AppendWithRowKeepsInv(r, minted, plan.event, t.row.value.lease, NewHandles(plan), t);
  }

  lemma {:induction false} ClaimKeepsInv(r: JobRecord, minted: set<ClaimId>, worker: string, now: int, lease: int, maxClaims: nat, claimId: ClaimId)
    requires RecordInv(r, true, minted) && claimId !in minted
    ensures RecordInv(Claiming(r, worker, now, lease, maxClaims, claimId), true, minted + {claimId})
  {
    var t := Claiming(r, worker, now, lease, maxClaims, claimId);
    var plan := PlanClaim(ReadForClaim(r.row), worker, now, lease, maxClaims, claimId);
    ClaimingByPlan(r, worker, now, lease, maxClaims, claimId);
    if plan.Skip? || Insert(r.log, Stored(plan.sequence, plan.event)).None? {
      MintedMayGrow(r, true, minted, minted + {claimId});
    } else {
      LandedClaimSawTheHead(r, minted, worker, now, lease, maxClaims, claimId);
      LandedClaimKeepsInv(r, minted, plan, t);
      MintedMayGrow(t, true, if plan.Claim? then minted + {plan.won.claimId} else minted, minted + {claimId});
    }
  }

  lemma RenewKeepsInv(r: JobRecord, minted: set<ClaimId>, claimSeq: nat, newLease: int)
    requires RecordInv(r, true, minted)
    ensures RecordInv(Renewing(r, claimSeq, newLease), true, minted)
  {
  }

  lemma LoadKeepsInv(r: JobRecord, minted: set<ClaimId>, handle: Handle, command: JobCommand)
    requires RecordInv(r, true, minted)
    ensures RecordInv(Loading(r, handle, command), true, minted)
  {
    DenseLast(r.log);
    var events := Events(r.log);
    assert events[..|events|] == events;
    HeldIffLastClaimed(events);
  }

  /** A settlement whose append lands found the job exactly as it had loaded it. */
  lemma LandedSettlementSawTheHead(r: JobRecord, minted: set<ClaimId>, s: Settlement)
    requires RecordInv(r, true, minted) && s in r.settling
    requires SettleTransaction(r.log, s).1.Some?
    ensures var events := Events(r.log);
            && s.base == |events|
            && s.state == Folded(events)
            && HolderBefore(events, |events|) == Some(s.command.claimId)
            && SettleTransaction(r.log, s).1 == Some(r.log + [Stored(|r.log| + 1, Outcome(s.command))])
            && s.handle.claimSeq == |events| && s.handle.attempt == Retries(events)
  {
    var events := Events(r.log);
    LandingNeedsTheHead(r.log, r.won, s);
    SettledExactlyWhenHeld(s.state, s.command);
    assert events[..|events|] == events;
    HeldIffLastClaimed(events);
    assert HandleInv(events, s.handle);
  }

  lemma LandingNeedsTheHead(log: seq<Stored<JobEvent>>, won: set<Handle>, s: Settlement)
    requires Dense(log) && SettlementInv(Events(log), won, s) && SettleTransaction(log, s).1.Some?
    ensures s.base == |log| && s.state == Folded(Events(log))
    ensures SettleTransaction(log, s).1 == Some(log + [Stored(|log| + 1, Outcome(s.command))])
  {
    SettledExactlyWhenHeld(s.state, s.command);
    InsertDense(log, Stored(s.base + 1, Outcome(s.command)));
    assert Events(log)[..|log|] == Events(log);
  }

  lemma SettleKeepsInv(r: JobRecord, minted: set<ClaimId>, s: Settlement)
    requires RecordInv(r, true, minted)
    ensures RecordInv(Settling(r, s), true, minted)
  {
    var t := Settling(r, s);
    if s in r.settling && SettleTransaction(r.log, s).1.Some? {
      LandedSettlementSawTheHead(r, minted, s);
      var events := Events(r.log);
      var event := Outcome(s.command);
      // The head of the stream is a claim, so the row lags by nothing and no reaction is pending.
      HeldIffLastClaimed(events);
      assert events[..|events|] == events;
      assert r.reactions == {};
      FoldedSnoc(events, event);
      RecordGrows(r, minted, event, t);
      HistoryGrows(events, event, r.settledBy, Some(s.command.claimId));
      PrefixOfSnoc(events, event, |events|);
    }
  }

  lemma LoadViewKeepsInv(r: JobRecord, minted: set<ClaimId>, reaction: Reaction)
    requires RecordInv(r, true, minted)
    ensures RecordInv(LoadingView(r, reaction), true, minted)
  {
    if reaction in r.reactions {
      OnlyMember(r.reactions, reaction);
    }
  }

  lemma OnlyMember<T>(s: set<T>, x: T)
    requires |s| <= 1 && x in s
    ensures s == {x}
  {
    if y :| y in s && y != x {
      assert {x, y} <= s;
      SubsetIsNoLarger({x, y}, s);
    }
  }

  /** Reacting to the one event a row lacks makes it the fold of the whole stream. */
  lemma ReactionCompletesTheRow(events: seq<JobEvent>, settledBy: map<nat, ClaimId>, row: Row)
    requires RowInv(events, settledBy, row) && row.view.version + 1 == |events|
    ensures Reacted(JOB, Some(row.view), events[|events| - 1]) == Some(View(|events|, Some(Folded(events))))
    ensures RowInv(events, settledBy, row.(view := View(|events|, Some(Folded(events)))))
  {
    var last := |events| - 1;
    assert events == events[..last] + [events[last]];
    FoldedSnoc(events[..last], events[last]);
    assert events[..|events|] == events;
  }

  lemma SavingViewIs(r: JobRecord, reaction: Reaction, next: JobView)
    requires r.reactions == {reaction} && r.row.Some? && reaction.seen == Some(r.row.value.view)
    requires Reacted(JOB, reaction.seen, reaction.event) == Some(next)
    ensures SavingView(r, reaction) == r.(reactions := {}, row := Some(r.row.value.(view := next)))
  {
  }

  lemma SaveViewKeepsInv(r: JobRecord, minted: set<ClaimId>, reaction: Reaction)
    requires RecordInv(r, true, minted)
    ensures RecordInv(SavingView(r, reaction), true, minted)
  {
    if reaction in r.reactions && reaction.seen.Some? {
      OnlyMember(r.reactions, reaction);
      var events := Events(r.log);
      assert ReactionsInv(events, r.row, r.reactions);
      ReactionCompletesTheRow(events, r.settledBy, r.row.value);
      SavingViewIs(r, reaction, View(|events|, Some(Folded(events))));
    }
  }

  lemma LoseViewKeepsInv(r: JobRecord, minted: set<ClaimId>, reaction: Reaction)
    requires RecordInv(r, true, minted)
    ensures RecordInv(r.(reactions := r.reactions - {reaction}), true, minted)
  {
    SubsetIsNoLarger(r.reactions - {reaction}, r.reactions);
  }

  lemma CrashKeepsInv(r: JobRecord, running: bool, minted: set<ClaimId>)
    requires RecordInv(r, running, minted)
    ensures RecordInv(Crashed(r), false, minted)
  {
  }

  lemma ReplayKeepsInv(r: JobRecord, minted: set<ClaimId>)
    requires RecordInv(r, false, minted)
    ensures RecordInv(Replayed(r), false, minted)
    ensures RowCurrent(Replayed(r))
  {
    ReplayedIsWholeFold(r, minted);
    DenseLast(r.log);
    var events := Events(r.log);
    assert events[..|events|] == events;
  }

  lemma ReplayedIsWholeFold(r: JobRecord, minted: set<ClaimId>)
    requires RecordInv(r, false, minted)
    ensures Replayed(r).row.Some? && Replayed(r).row.value.view == View(|r.log|, Some(Folded(Events(r.log))))
  {
    var events := Events(r.log);
    HeldIffLastClaimed(events);
    DenseLast(r.log);
    DenseIsOrdered(r.log);
    assert events[..|events|] == events;
    var view := if r.row.None? then None else Some(r.row.value.view);
    if view.Some? {
      UpToDense(r.log, view.value.version);
      assert Events(r.log[..view.value.version]) == events[..view.value.version];
    }
    CatchingUpIsFullReplay(JOB, r.log, view);
  }

  lemma MintedMayGrow(r: JobRecord, running: bool, minted: set<ClaimId>, minted': set<ClaimId>)
    requires RecordInv(r, running, minted) && minted <= minted'
    ensures RecordInv(r, running, minted')
  {
  }

  lemma {:induction false} JobNextKeepsInv(r: JobRecord, running: bool, minted: set<ClaimId>, a: Action)
    requires RecordInv(r, running, minted) && Targeted(a)
    ensures RecordInv(JobNext(r, running, minted, a), running, if a.ClaimJob? then minted + {a.claimId} else minted)
  {
    if a.Enqueue? {
      DuplicateEnqueueIsRefused(r, running, minted, a.kind, a.payload, a.runAt);
    } else if a.ReplayRow? {
      if !running {
        ReplayKeepsInv(r, minted);
      }
    } else if a.ClaimJob? {
      ClaimActionKeepsInv(r, running, minted, a);
    } else if running {
      RunningKeepsInv(r, minted, a);
    }
  }

  lemma {:induction false} ClaimActionKeepsInv(r: JobRecord, running: bool, minted: set<ClaimId>, a: Action)
    requires RecordInv(r, running, minted) && a.ClaimJob?
    ensures RecordInv(JobNext(r, running, minted, a), running, minted + {a.claimId})
  {
    MintedMayGrow(r, running, minted, minted + {a.claimId});
    if running && a.claimId !in minted {
      ClaimKeepsInv(r, minted, a.worker, a.now, a.lease, a.maxClaims, a.claimId);
    }
  }

  lemma {:induction false} RunningKeepsInv(r: JobRecord, minted: set<ClaimId>, a: Action)
    requires RecordInv(r, true, minted) && !a.ClaimJob?
    ensures RecordInv(RunningNext(r, minted, a), true, minted)
  {
    match a
    case RenewJob(_, claimSeq, newLease) => RenewKeepsInv(r, minted, claimSeq, newLease);
    case LoadJob(_, handle, command) => LoadKeepsInv(r, minted, handle, command);
    case CommitSettlement(_, settlement) => SettleKeepsInv(r, minted, settlement);
    case LoadView(_, reaction) => LoadViewKeepsInv(r, minted, reaction);
    case SaveView(_, reaction) => SaveViewKeepsInv(r, minted, reaction);
    case LoseView(_, reaction) => LoseViewKeepsInv(r, minted, reaction);
    case _ =>
  }

  lemma DuplicateEnqueueIsRefused(r: JobRecord, running: bool, minted: set<ClaimId>, kind: string, payload: string, runAt: int)
    requires RecordInv(r, running, minted)
    ensures Enqueuing(r, kind, payload, runAt) == r
  {
    HeldIffLastClaimed(Events(r.log));
    InsertDense(r.log, Stored(1, Enqueued(kind, payload, runAt)));
  }

  /** Only an enqueue brings a job into being. */
  lemma UnbornJobsOnlyEnqueue(running: bool, minted: set<ClaimId>, a: Action)
    requires Targeted(a)
    ensures var t := JobNext(UNBORN, running, minted, a);
            t == UNBORN || (a.Enqueue? && IsInstant(a.runAt) && t == Enqueuing(UNBORN, a.kind, a.payload, a.runAt))
  {
  }

  /** What a step makes of one job's record. */
  lemma NextRecordIs(s: System, a: Action, j: JobId)
    requires j in Next(s, a).jobs
    ensures Targeted(a) ==>
              && Next(s, a).running == s.running
              && s.minted <= Next(s, a).minted
              && (a.job == j ==> Next(s, a).minted == if a.ClaimJob? then s.minted + {a.claimId} else s.minted)
              && Next(s, a).jobs[j] ==
                   (if a.job == j then JobNext(if j in s.jobs then s.jobs[j] else UNBORN, s.running, s.minted, a) else s.jobs[j])
              && (j !in s.jobs ==> a.job == j && Next(s, a).jobs[j] != UNBORN)
    ensures !Targeted(a) ==> j in s.jobs && Next(s, a).minted == s.minted
    ensures a.Crash? ==> Next(s, a).jobs[j] == Crashed(s.jobs[j]) && !Next(s, a).running
    ensures a.WipeRows? ==>
              && Next(s, a).running == s.running
              && Next(s, a).jobs[j] == if s.running then s.jobs[j] else s.jobs[j].(row := None)
    ensures a.Resume? ==>
              && Next(s, a).jobs[j] == s.jobs[j]
              && (Next(s, a).running == s.running || (Next(s, a).running && RowCurrent(s.jobs[j])))
  {
  }

  lemma {:induction false} StepKeepsRecordInv(s: System, a: Action, j: JobId)
    requires j in Next(s, a).jobs && (j in s.jobs ==> RecordInv(s.jobs[j], s.running, s.minted))
    ensures RecordInv(Next(s, a).jobs[j], Next(s, a).running, Next(s, a).minted)
  {
    NextRecordIs(s, a, j);
    if !Targeted(a) {
      if a.Crash? {
        CrashKeepsInv(s.jobs[j], s.running, s.minted);
      }
    } else if j in s.jobs {
      MintedMayGrow(s.jobs[j], s.running, s.minted, Next(s, a).minted);
      if a.job == j {
        JobNextKeepsInv(s.jobs[j], s.running, s.minted, a);
      }
    } else {
      UnbornJobsOnlyEnqueue(s.running, s.minted, a);
      EnqueueEstablishesInv(a.kind, a.payload, a.runAt, s.running, s.minted);
    }
  }

  lemma {:induction false} NextKeepsInv(s: System, a: Action)
    requires Inv(s)
    ensures Inv(Next(s, a))
  {
    forall j | j in Next(s, a).jobs ensures RecordInv(Next(s, a).jobs[j], Next(s, a).running, Next(s, a).minted) {
      StepKeepsRecordInv(s, a, j);
    }
  }

  lemma {:induction false} RunFromKeepsInv(s: System, actions: seq<Action>)
    requires Inv(s)
    ensures Inv(RunFrom(s, actions))
  {
    if actions != [] {
      RunFromKeepsInv(s, actions[..|actions| - 1]);
      NextKeepsInv(RunFrom(s, actions[..|actions| - 1]), actions[|actions| - 1]);
    }
  }

  /** Every interleaving of every number of workers keeps the invariant. */
  lemma {:induction false} RunKeepsInv(actions: seq<Action>)
    ensures Inv(Run(actions))
  {
    RunFromKeepsInv(EMPTY, actions);
  }
}
