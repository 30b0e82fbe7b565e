/** What the job protocol guarantees over every run. */
module JobTheorems {
  import opened Prelude
  import opened Outbox
  import opened EventTable
  import opened Lifecycles
  import opened Jobs
  import opened Projection
  import opened JobQueue
  import opened JobInvariants

  // ------------------------------------------------------------- settlement

  /**
   Every recorded outcome settled the claim that held the job when it was appended;
   no claim settles twice; every outcome other than an abandonment was recorded by a
   settlement; and a terminal event is the last of its stream.
   */
  lemma {:induction false} SettlementSafety(actions: seq<Action>, j: JobId)
    requires j in Run(actions).jobs
    ensures var r := Run(actions).jobs[j];
            var events := Events(r.log);
            && (forall q :: q in r.settledBy ==>
                  && 1 <= q <= |events| && IsOutcome(events[q - 1])
                  && HolderBefore(events, q - 1) == Some(r.settledBy[q]))
            && (forall p, q :: p in r.settledBy && q in r.settledBy && p != q ==> r.settledBy[p] != r.settledBy[q])
            && (forall i :: 0 <= i < |events| && IsOutcome(events[i]) && events[i] != BUDGET_EXHAUSTED ==> i + 1 in r.settledBy)
            && (forall i :: 0 <= i < |events| && IsTerminal(events[i]) ==> i == |events| - 1)
  {
    RunKeepsInv(actions);
    var s := Run(actions);
    var r := s.jobs[j];
    assert RecordInv(r, s.running, s.minted);
    var events := Events(r.log);
    forall q | q in r.settledBy
      ensures 2 <= q <= |events| && events[q - 2].Claimed? && events[q - 2].claimId == r.settledBy[q]
    {
      HeldIffLastClaimed(events[..q - 1]);
    }
    forall i | 0 <= i < |events| && IsTerminal(events[i]) ensures i == |events| - 1 {
      LiveStreamShape(events, i);
    }
  }

  /** Whether a settlement's commit lands, and what it writes, told by the claim holding the job. */
  ghost predicate LandsExactlyWhileHeld(log: JobLog, s: Settlement) {
    var events := Events(log);
    var result := SettleTransaction(log, s);
    && (result.1.Some? <==> HolderBefore(events, |events|) == Some(s.command.claimId))
    && result.0 == (if result.1.Some? then Recorded else FencedOff)
    && (result.1.Some? ==> result.1.value == log + [Stored(|log| + 1, Outcome(s.command))])
  }

  /**
   A settlement in flight lands exactly while its claim is the one holding the job, and
   otherwise is fenced with nothing written, however long ago it loaded.
   */
  lemma {:induction false} SettlementLandsExactly(actions: seq<Action>, j: JobId, s: Settlement)
    requires j in Run(actions).jobs && s in Run(actions).jobs[j].settling
    ensures LandsExactlyWhileHeld(Run(actions).jobs[j].log, s)
  {
    RunKeepsInv(actions);
    LandsByInv(Run(actions).jobs[j], Run(actions).running, Run(actions).minted, s);
  }

  lemma {:induction false} LandsByInv(r: JobRecord, running: bool, minted: set<ClaimId>, s: Settlement)
    requires RecordInv(r, running, minted) && s in r.settling
    ensures LandsExactlyWhileHeld(r.log, s)
  {
    LandsWhileHeld(r.log, r.won, s);
  }

  lemma {:induction false} LandsWhileHeld(log: JobLog, won: set<Handle>, s: Settlement)
    requires Dense(log) && Folded(Events(log)).Live? && ClaimIdsUnique(Events(log))
    requires SettlementInv(Events(log), won, s) && HandleInv(Events(log), s.handle)
    ensures LandsExactlyWhileHeld(log, s)
  {
    var events := Events(log);
    PrefixesOfLiveReplayAreLive(JOB, events, s.base);
    NonEmptyLiveIsLive(events[..s.base]);
    SettledExactlyWhenHeld(s.state, s.command);
    InsertDense(log, Stored(s.base + 1, Outcome(s.command)));
    assert events[..|events|] == events;
    HeldIffLastClaimed(events);
  }

  /**
   A queue row holds the fold of exactly the first `version` events. It lags the log
   by at most one event, and that event is a settlement; the only row update ever
   pending is the one for that event.
   */
  lemma {:induction false} RowIsPrefixFold(actions: seq<Action>, j: JobId)
    requires j in Run(actions).jobs && Run(actions).jobs[j].row.Some?
    ensures var r := Run(actions).jobs[j];
            var events := Events(r.log);
            var view := r.row.value.view;
            && view.version <= |events| <= view.version + 1
            && view.payload == Some(Folded(events[..view.version])) && Folded(events[..view.version]).Live?
            && (view.version < |events| ==> |events| in r.settledBy && ShowsClaimed(r.row.value))
            && (view.version == |events| ==> r.reactions == {})
            && (forall u :: u in r.reactions ==> r.reactions == {u} && u.event == events[|events| - 1])
  {
    RunKeepsInv(actions);
    var s := Run(actions);
    var r := s.jobs[j];
    assert RecordInv(r, s.running, s.minted);
    var events := Events(r.log);
    var v := r.row.value.view.version;
    PrefixesOfLiveReplayAreLive(JOB, events, v);
    NonEmptyLiveIsLive(events[..v]);
    forall u | u in r.reactions ensures r.reactions == {u} {
      OnlyMember(r.reactions, u);
    }
  }

  // ---------------------------------------------------------- how logs grow

  /** What one action appends to a job's stream, if it appends anything. */
  ghost predicate AppendedBy(r: JobRecord, a: Action, event: JobEvent) {
    var state := Folded(Events(r.log));
    && state.Live?
    && (event.Claimed? ==>
          && a.ClaimJob? && (state.entity.Pending? || state.entity.Held?)
          && state.entity.claims < a.maxClaims)
    && (IsOutcome(event) && event != BUDGET_EXHAUSTED ==>
          && a.CommitSettlement? && a.settlement in r.settling && event == Outcome(a.settlement.command)
          && a.settlement.handle.attempt == Retries(Events(r.log)) && CommandOf(a.settlement.handle, a.settlement.command))
    && !event.Enqueued?
  }

  lemma ClaimGrowsLog(r: JobRecord, minted: set<ClaimId>, a: Action)
    requires RecordInv(r, true, minted) && a.ClaimJob?
    ensures var t := Claiming(r, a.worker, a.now, a.lease, a.maxClaims, a.claimId);
            t.log == r.log || exists event :: AppendedBy(r, a, event) && t.log == r.log + [Stored(|r.log| + 1, event)]
  {
    var plan := PlanClaim(ReadForClaim(r.row), a.worker, a.now, a.lease, a.maxClaims, a.claimId);
    ClaimingByPlan(r, a.worker, a.now, a.lease, a.maxClaims, a.claimId);
    if !plan.Skip? && Insert(r.log, Stored(plan.sequence, plan.event)).Some? {
      LandedClaimSawTheHead(r, minted, a.worker, a.now, a.lease, a.maxClaims, a.claimId);
      assert AppendedBy(r, a, plan.event);
    }
  }

  lemma SettleGrowsLog(r: JobRecord, minted: set<ClaimId>, a: Action)
    requires RecordInv(r, true, minted) && a.CommitSettlement?
    ensures var t := Settling(r, a.settlement);
            t.log == r.log || exists event :: AppendedBy(r, a, event) && t.log == r.log + [Stored(|r.log| + 1, event)]
  {
    if a.settlement in r.settling && SettleTransaction(r.log, a.settlement).1.Some? {
      LandedSettlementSawTheHead(r, minted, a.settlement);
      assert AppendedBy(r, a, Outcome(a.settlement.command));
    }
  }

  lemma {:induction false} StepGrowsLogByAtMostOne(s: System, a: Action, j: JobId)
    requires Inv(s) && j in s.jobs
    ensures j in Next(s, a).jobs
    ensures var r, t := s.jobs[j], Next(s, a).jobs[j];
            || t.log == r.log
            || exists event :: AppendedBy(r, a, event)
                 && t.log == r.log + [Stored(|r.log| + 1, event)] && Events(t.log) == Events(r.log) + [event]
  {
    NextAt(s, a, j);
    if Targeted(a) && a.job == j {
      JobStepGrowsLog(s.jobs[j], s.running, s.minted, a);
    }
  }

  ghost predicate GrownByOne(r: JobRecord, a: Action, t: JobRecord) {
    || t.log == r.log
    || exists event :: AppendedBy(r, a, event) && t.log == r.log + [Stored(|r.log| + 1, event)] && Events(t.log) == Events(r.log) + [event]
  }

  /** Only an enqueue, a claim attempt and a settlement's commit can append. */
  lemma OnlyTheseAppend(r: JobRecord, running: bool, minted: set<ClaimId>, a: Action)
    ensures var t := JobNext(r, running, minted, a);
            || t.log == r.log
            || (a.Enqueue? && t == Enqueuing(r, a.kind, a.payload, a.runAt))
            || (running && a.ClaimJob? && t == Claiming(r, a.worker, a.now, a.lease, a.maxClaims, a.claimId))
            || (running && a.CommitSettlement? && t == Settling(r, a.settlement))
  {
  }

  lemma {:induction false} JobStepGrowsLog(r: JobRecord, running: bool, minted: set<ClaimId>, a: Action)
    requires RecordInv(r, running, minted) && Targeted(a)
    ensures GrownByOne(r, a, JobNext(r, running, minted, a))
  {
    OnlyTheseAppend(r, running, minted, a);
    if a.Enqueue? {
      DuplicateEnqueueIsRefused(r, running, minted, a.kind, a.payload, a.runAt);
    } else if running && a.ClaimJob? {
      ClaimGrowsLog(r, minted, a);
      AppendGrowsEvents(r, a, Claiming(r, a.worker, a.now, a.lease, a.maxClaims, a.claimId));
    } else if running && a.CommitSettlement? {
      SettleGrowsLog(r, minted, a);
      AppendGrowsEvents(r, a, Settling(r, a.settlement));
    }
  }

  lemma AppendGrowsEvents(r: JobRecord, a: Action, t: JobRecord)
    requires t.log == r.log || exists event :: AppendedBy(r, a, event) && t.log == r.log + [Stored(|r.log| + 1, event)]
    ensures GrownByOne(r, a, t)
  {
    if t.log != r.log {
      var event :| AppendedBy(r, a, event) && t.log == r.log + [Stored(|r.log| + 1, event)];
      assert Events(t.log) == Events(r.log) + [event];
    }
  }

  /** Nothing recorded is ever lost or rewritten, by any continuation of any run. */
  lemma {:induction false} LogsOnlyGrow(s: System, more: seq<Action>, j: JobId)
    requires Inv(s) && j in s.jobs
    ensures j in RunFrom(s, more).jobs
    ensures Events(s.jobs[j].log) <= Events(RunFrom(s, more).jobs[j].log)
  {
    if more != [] {
      var before := more[..|more| - 1];
      LogsOnlyGrow(s, before, j);
      RunFromKeepsInv(s, before);
      StepGrowsLogByAtMostOne(RunFrom(s, before), more[|more| - 1], j);
    }
  }

  // ---------------------------------------------------------------- budgets

  ghost predicate ClaimsWithin(actions: seq<Action>, maxClaims: nat) {
    forall k :: 0 <= k < |actions| && actions[k].ClaimJob? ==> actions[k].maxClaims <= maxClaims
  }

  lemma {:induction false} ClaimCountStaysWithin(actions: seq<Action>, maxClaims: nat, j: JobId)
    requires ClaimsWithin(actions, maxClaims) && j in Run(actions).jobs
    ensures ClaimsSinceDefer(Events(Run(actions).jobs[j].log)) <= maxClaims
  {
    if actions != [] {
      var before := actions[..|actions| - 1];
      var a := actions[|actions| - 1];
      var s := Run(before);
      RunKeepsInv(before);
      if j in s.jobs {
        ClaimCountStaysWithin(before, maxClaims, j);
        StepGrowsLogByAtMostOne(s, a, j);
        var r, t := s.jobs[j], Next(s, a).jobs[j];
        if t.log != r.log {
          var event :| AppendedBy(r, a, event) && Events(t.log) == Events(r.log) + [event];
          assert RecordInv(r, s.running, s.minted);
          FoldedCounters(Events(r.log));
          assert Events(t.log)[..|Events(r.log)|] == Events(r.log);
        }
      } else {
        FreshLogIsEnqueued(s, a, j);
      }
    }
  }

  lemma FreshLogIsEnqueued(s: System, a: Action, j: JobId)
    requires j !in s.jobs && j in Next(s, a).jobs
    ensures a.Enqueue?
    ensures Events(Next(s, a).jobs[j].log) == [Enqueued(a.kind, a.payload, a.runAt)]
    ensures Retries(Events(Next(s, a).jobs[j].log)) == 0 && ClaimsSinceDefer(Events(Next(s, a).jobs[j].log)) == 0
  {
    UnbornJobsOnlyEnqueue(s.running, s.minted, a);
    InsertDense([], Stored(1, Enqueued(a.kind, a.payload, a.runAt)));
  }

  /**
   The claim budget: when no worker asks for more than `maxClaims`, the folded
   `claims` is the number of claims since the last defer and never exceeds the
   budget, and a job that never deferred has at most 2 * maxClaims + 2 events.
   */
  lemma {:induction false} ClaimBudget(actions: seq<Action>, maxClaims: nat, j: JobId)
    requires ClaimsWithin(actions, maxClaims) && j in Run(actions).jobs
    ensures var events := Events(Run(actions).jobs[j].log);
            var state := Folded(events);
            && state.Live?
            && (state.entity.Pending? || state.entity.Held? ==>
                  state.entity.claims == ClaimsSinceDefer(events) <= maxClaims)
            && (NeverDeferred(events) ==> |events| <= 2 * maxClaims + 2)
  {
    RunKeepsInv(actions);
    ClaimCountStaysWithin(actions, maxClaims, j);
    var s := Run(actions);
    assert RecordInv(s.jobs[j], s.running, s.minted);
    var events := Events(s.jobs[j].log);
    FoldedCounters(events);
    if NeverDeferred(events) {
      StreamLengthFollowsClaims(events);
    }
  }

  /** The folded attempt counts the recorded retries, although `transition` never checks it. */
  lemma {:induction false} AttemptCountsRetries(actions: seq<Action>, j: JobId)
    requires j in Run(actions).jobs
    ensures var events := Events(Run(actions).jobs[j].log);
            var state := Folded(events);
            && state.Live?
            && (state.entity.Pending? || state.entity.Held? ==> state.entity.attempt == Retries(events))
            && (forall h :: h in Run(actions).jobs[j].won ==>
                  h.claimSeq <= |events| && h.attempt == Retries(events[..h.claimSeq]))
  {
    RunKeepsInv(actions);
    var s := Run(actions);
    assert RecordInv(s.jobs[j], s.running, s.minted);
    FoldedCounters(Events(s.jobs[j].log));
  }

  // ------------------------------------------------------------------ claims

  /**
   Whether a job with these events is due at `now`: a scheduled one from its instant on, a
   claimed one once its lease has run out or was lost, an ended one never.
   */
  ghost predicate IsDue(events: seq<JobEvent>, lease: Option<int>, now: int) {
    && events != []
    && (match events[|events| - 1]
        case Claimed(_, _, _) => lease.None? || lease.value < now
        case Succeeded => false
        case Dead(_, _) => false
        case _ => ScheduledAt(events) <= now)
  }

  /** What a claim attempt does to a record, told by its stream, its row's version and its lease. */
  ghost predicate ClaimDecided(r: JobRecord, now: int, maxClaims: nat, result: ClaimResult)
    requires r.row.Some? && r.row.value.view.version <= |r.log|
  {
    var events := Events(r.log);
    var seen := r.row.value.view.version;
    var due := IsDue(events[..seen], r.row.value.lease, now);
    && (result.outcome.Won? <==> seen == |events| && due && ClaimsSinceDefer(events) < maxClaims)
    && (result.outcome.GaveUp? <==> seen == |events| && due && ClaimsSinceDefer(events) >= maxClaims)
    && (result.outcome.Contended? <==> seen < |events| && due)
    && (result.outcome.Skipped? <==> !due)
    && (result.outcome.Contended? || result.outcome.Skipped? ==> result.log == r.log && result.row == r.row)
    && (result.outcome.GaveUp? ==>
          && result.log == r.log + [Stored(|events| + 1, Dead(Abandoned, "claim budget exhausted"))]
          && result.row == Some(Row(View(|events| + 1, Some(Live(Buried(Abandoned)))), None)))
  }

  /**
   When a claim attempt on a running queue wins, gives up, loses the compare-and-swap or is
   skipped. It wins exactly when the row shows the whole stream, the job is due and its
   claims since the last defer are within the budget; a job out of budget is abandoned then;
   a due row that lags is contended; and only a job that is not due is skipped.
   */
  lemma {:induction false} ClaimOutcomeExactly(
    actions: seq<Action>, j: JobId, worker: string, now: int, lease: int, maxClaims: nat, claimId: ClaimId)
    requires var s := Run(actions); s.running && j in s.jobs && lease > 0 && maxClaims > 0 && IsInstant(now + lease)
    ensures var r := Run(actions).jobs[j];
            && r.row.Some? && r.row.value.view.version <= |r.log|
            && ClaimDecided(r, now, maxClaims, ClaimTransaction(r.log, r.row, worker, now, lease, maxClaims, claimId))
  {
    RunKeepsInv(actions);
    var s := Run(actions);
    OutcomeByInv(s.jobs[j], s.minted, worker, now, lease, maxClaims, claimId);
  }

  lemma {:induction false} OutcomeByInv(
    r: JobRecord, minted: set<ClaimId>, worker: string, now: int, lease: int, maxClaims: nat, claimId: ClaimId)
    requires RecordInv(r, true, minted) && ValidClaimPolicy(now, lease, maxClaims)
    ensures r.row.Some? && r.row.value.view.version <= |r.log|
    ensures ClaimDecided(r, now, maxClaims, ClaimTransaction(r.log, r.row, worker, now, lease, maxClaims, claimId))
  {
    var seen := Events(r.log)[..r.row.value.view.version];
    RowShowsWhatItSaw(r, minted);
    RunnableIsDue(seen, r.row.value.lease, now);
    OutcomeByRow(r.log, r.row.value, worker, now, lease, maxClaims, claimId);
    assert Events(r.log)[..|r.log|] == Events(r.log);
  }

  /** A row's payload is the state read off the events it has seen. */
  lemma {:induction false} RowShowsWhatItSaw(r: JobRecord, minted: set<ClaimId>)
    requires RecordInv(r, true, minted)
    ensures var seen := Events(r.log)[..r.row.value.view.version];
            && seen != [] && seen[0].Enqueued?
            && r.row.value.view.payload == Some(Live(ReadOff(seen)))
  {
    var events := Events(r.log);
    var version := r.row.value.view.version;
    PrefixesOfLiveReplayAreLive(JOB, events, version);
    NonEmptyLiveIsLive(events[..version]);
    OrdinalPrefix(events, version);
    FoldedIsReadOff(events[..version]);
  }

  lemma RunnableIsDue(seen: seq<JobEvent>, lease: Option<int>, now: int)
    requires seen != [] && seen[0].Enqueued?
    ensures Runnable(ReadOff(seen), lease, now) <==> IsDue(seen, lease, now)
    ensures IsDue(seen, lease, now) ==> ReadOff(seen).claims == ClaimsSinceDefer(seen)
  {
  }

  lemma OutcomeByRow(log: JobLog, row: Row, worker: string, now: int, lease: int, maxClaims: nat, claimId: ClaimId)
    requires Dense(log) && row.view.version <= |log| && ValidClaimPolicy(now, lease, maxClaims)
    requires row.view.payload.Some? && row.view.payload.value.Live?
    ensures var result := ClaimTransaction(log, Some(row), worker, now, lease, maxClaims, claimId);
            var outcome := result.outcome;
            var state := row.view.payload.value.entity;
            var runnable := Runnable(state, row.lease, now);
            var current := row.view.version == |log|;
            && (outcome.Won? <==> current && runnable && state.claims < maxClaims)
            && (outcome.GaveUp? <==> current && runnable && state.claims >= maxClaims)
            && (outcome.Contended? <==> !current && runnable)
            && (outcome.Skipped? <==> !runnable)
            && (outcome.Contended? || outcome.Skipped? ==> result.log == log && result.row == Some(row))
            && (outcome.GaveUp? ==>
                  && result.log == log + [Stored(|log| + 1, BUDGET_EXHAUSTED)]
                  && result.row == Some(Row(View(|log| + 1, Some(Live(Buried(Abandoned)))), None)))
  {
    var plan := PlanClaim(ReadForClaim(Some(row)), worker, now, lease, maxClaims, claimId);
    if !plan.Skip? {
      InsertDense(log, Stored(plan.sequence, plan.event));
    }
  }

  /**
   A claim that wins found the job due: a pending job at or after the instant it was last
   scheduled for, a held one only past its lease. It hands out the payload that was enqueued.
   */
  lemma {:induction false} ClaimedOnlyWhenDue(
    actions: seq<Action>, j: JobId, worker: string, now: int, lease: int, maxClaims: nat, claimId: ClaimId)
    requires var s := Run(actions); s.running && j in s.jobs
    requires var r := Run(actions).jobs[j]; ClaimTransaction(r.log, r.row, worker, now, lease, maxClaims, claimId).outcome.Won?
    ensures var r := Run(actions).jobs[j];
            var events := Events(r.log);
            var won := ClaimTransaction(r.log, r.row, worker, now, lease, maxClaims, claimId).outcome.won;
            && events != [] && events[0].Enqueued? && won.args == events[0].payload
            && won.claimSeq == |events| + 1 && won.claimId == claimId && won.attempt == Retries(events)
            && !IsTerminal(events[|events| - 1])
            && (if events[|events| - 1].Claimed? then r.row.Some? && (r.row.value.lease.None? || r.row.value.lease.value < now)
                else ScheduledAt(events) <= now)
  {
    RunKeepsInv(actions);
    var s := Run(actions);
    DueByInv(s.jobs[j], s.minted, worker, now, lease, maxClaims, claimId);
  }

  lemma {:induction false} DueByInv(r: JobRecord, minted: set<ClaimId>, worker: string, now: int, lease: int, maxClaims: nat, claimId: ClaimId)
    requires RecordInv(r, true, minted)
    requires ClaimTransaction(r.log, r.row, worker, now, lease, maxClaims, claimId).outcome.Won?
    ensures var events := Events(r.log);
            var won := ClaimTransaction(r.log, r.row, worker, now, lease, maxClaims, claimId).outcome.won;
            && events != [] && events[0].Enqueued? && won.args == events[0].payload
            && won.claimSeq == |events| + 1 && won.claimId == claimId && won.attempt == Retries(events)
            && !IsTerminal(events[|events| - 1])
            && (if events[|events| - 1].Claimed? then r.row.Some? && (r.row.value.lease.None? || r.row.value.lease.value < now)
                else ScheduledAt(events) <= now)
  {
    LandedClaimSawTheHead(r, minted, worker, now, lease, maxClaims, claimId);
    FoldedIsReadOff(Events(r.log));
  }

  /** The claim a current row shows, and how long its lease runs at least. */
  ghost predicate HeldUntil(r: JobRecord, claimSeq: nat, holder: ClaimId, until: int) {
    && RowCurrent(r) && ShowsClaimed(r.row.value) && r.row.value.view.version == claimSeq
    && r.row.value.view.payload.value.entity.claimId == holder
    && r.row.value.lease.Some? && r.row.value.lease.value >= until
  }

  /**
   What is not the holder settling or shortening its own lease, nor a wipe of the rows that
   hold it: claims up to `until`, any renewal or settlement anyone attempts under another
   claim, and crashes and recoveries.
   */
  predicate SparesTheHolder(a: Action, j: JobId, claimSeq: nat, holder: ClaimId, until: int) {
    match a
    case ClaimJob(i, _, now, _, _, _) => i == j ==> now <= until
    case RenewJob(i, q, newLease) => i == j && q == claimSeq ==> newLease >= until
    case CommitSettlement(i, settlement) => i == j ==> settlement.command.claimId != holder
    case WipeRows => false
    case _ => true
  }

  predicate RenewsTheHolder(a: Action, j: JobId, claimSeq: nat) {
    a.RenewJob? && a.job == j && a.claimSeq == claimSeq
  }

  /**
   While a claim's lease runs, whatever every other worker tries, and through crashes and
   recoveries that find the rows as they were, nobody else wins or settles the job: until the holder settles, the log and what the row shows stand still,
   and the row is not touched at all unless the holder renews.
   */
  lemma {:induction false} LeaseExcludesOthers(
    actions: seq<Action>, j: JobId, claimSeq: nat, holder: ClaimId, until: int, more: seq<Action>)
    requires var s := Run(actions); j in s.jobs && HeldUntil(s.jobs[j], claimSeq, holder, until)
    requires forall k :: 0 <= k < |more| ==> SparesTheHolder(more[k], j, claimSeq, holder, until)
    ensures var s, t := Run(actions), RunFrom(Run(actions), more);
            && j in t.jobs && HeldUntil(t.jobs[j], claimSeq, holder, until)
            && t.jobs[j].log == s.jobs[j].log && t.jobs[j].row.value.view == s.jobs[j].row.value.view
            && t.jobs[j].won == s.jobs[j].won && t.jobs[j].settledBy == s.jobs[j].settledBy
            && ((forall k :: 0 <= k < |more| ==> !RenewsTheHolder(more[k], j, claimSeq)) ==> t.jobs[j].row == s.jobs[j].row)
  {
    var s := Run(actions);
    RunKeepsInv(actions);
    if more != [] {
      var before := more[..|more| - 1];
      LeaseExcludesOthers(actions, j, claimSeq, holder, until, before);
      RunFromKeepsInv(s, before);
      LeaseExcludesOneStep(RunFrom(s, before), j, claimSeq, holder, until, more[|more| - 1]);
    }
  }

  lemma {:induction false} LeaseExcludesOneStep(s: System, j: JobId, claimSeq: nat, holder: ClaimId, until: int, a: Action)
    requires Inv(s) && j in s.jobs && HeldUntil(s.jobs[j], claimSeq, holder, until)
    requires SparesTheHolder(a, j, claimSeq, holder, until)
    ensures var t := Next(s, a);
            && j in t.jobs && UndisturbedBy(s.jobs[j], a, j, claimSeq, holder, until, t.jobs[j])
  {
    NextAt(s, a, j);
    if Targeted(a) && a.job == j {
      if s.running {
        HolderIsUndisturbed(s.jobs[j], s.minted, j, claimSeq, holder, until, a);
      } else {
        CurrentRowIsSettled(s.jobs[j], false, s.minted);
        DownKeepsCurrentRecords(s.jobs[j], s.minted, a);
      }
    }
  }

  /** While the process is down, a job whose row is current is left as it is. */
  lemma DownKeepsCurrentRecords(r: JobRecord, minted: set<ClaimId>, a: Action)
    requires RowCurrent(r) && Holds(r.log, 1)
    ensures JobNext(r, false, minted, a) == r
  {
  }

  ghost predicate UndisturbedBy(r: JobRecord, a: Action, j: JobId, claimSeq: nat, holder: ClaimId, until: int, t: JobRecord) {
    && HeldUntil(r, claimSeq, holder, until) && HeldUntil(t, claimSeq, holder, until)
    && t.log == r.log && t.row.value.view == r.row.value.view && t.won == r.won && t.settledBy == r.settledBy
    && (!RenewsTheHolder(a, j, claimSeq) ==> t.row == r.row)
  }

  lemma {:induction false} HolderIsUndisturbed(
    r: JobRecord, minted: set<ClaimId>, j: JobId, claimSeq: nat, holder: ClaimId, until: int, a: Action)
    requires RecordInv(r, true, minted) && HeldUntil(r, claimSeq, holder, until)
    requires Targeted(a) && a.job == j && SparesTheHolder(a, j, claimSeq, holder, until)
    ensures UndisturbedBy(r, a, j, claimSeq, holder, until, JobNext(r, true, minted, a))
  {
    if a.CommitSettlement? {
      ForeignSettlementIsFenced(r, minted, holder, a.settlement);
    } else {
      CurrentRowIsSettled(r, true, minted);
      LeaseHoldsTheRecord(r, minted, j, claimSeq, holder, until, a);
    }
  }

  /** A settlement under any claim but the one the current row shows writes nothing. */
  lemma {:induction false} ForeignSettlementIsFenced(r: JobRecord, minted: set<ClaimId>, holder: ClaimId, s: Settlement)
    requires RecordInv(r, true, minted) && RowCurrent(r) && ShowsClaimed(r.row.value)
    requires r.row.value.view.payload.value.entity.claimId == holder && s.command.claimId != holder
    ensures Settling(r, s) == r.(settling := r.settling - {s})
  {
    if s in r.settling {
      DenseLast(r.log);
      assert Events(r.log)[..|r.log|] == Events(r.log);
      LandsByInv(r, true, minted, s);
    } else {
      assert r.settling - {s} == r.settling;
    }
  }

  /** A targeted action changes the job it targets and no other. */
  lemma NextAt(s: System, a: Action, j: JobId)
    requires j in s.jobs
    ensures j in Next(s, a).jobs
    ensures !Targeted(a) ==> Next(s, a).jobs[j].log == s.jobs[j].log
    ensures Targeted(a) ==>
              && Next(s, a).running == s.running
              && Next(s, a).jobs[j] ==
                   if a.job == j then JobNext(s.jobs[j], s.running, s.minted, a) else s.jobs[j]
    ensures a.Crash? ==> Next(s, a).jobs[j] == Crashed(s.jobs[j])
    ensures a.WipeRows? && s.running ==> Next(s, a) == s
    ensures a.Resume? ==> Next(s, a).jobs == s.jobs && (s.running ==> Next(s, a).running)
  {
  }

  lemma CurrentRowIsSettled(r: JobRecord, running: bool, minted: set<ClaimId>)
    requires RecordInv(r, running, minted) && RowCurrent(r)
    ensures r.reactions == {} && Holds(r.log, 1)
  {
    DenseLast(r.log);
    HeldIffLastClaimed(Events(r.log));
    assert r.log[0].sequence == 1;
  }

  lemma LeaseHoldsTheRecord(r: JobRecord, minted: set<ClaimId>, j: JobId, claimSeq: nat, holder: ClaimId, until: int, a: Action)
    requires HeldUntil(r, claimSeq, holder, until) && r.reactions == {} && Holds(r.log, 1)
    requires Targeted(a) && a.job == j && !a.CommitSettlement? && SparesTheHolder(a, j, claimSeq, holder, until)
    ensures UndisturbedBy(r, a, j, claimSeq, holder, until, JobNext(r, true, minted, a))
  {
    if a.ClaimJob? {
      ClaimingByPlan(r, a.worker, a.now, a.lease, a.maxClaims, a.claimId);
    }
  }

  /** A won claim leaves exactly its own lease on a current row that shows it. */
  lemma WonClaimHoldsItsLease(
    r: JobRecord, minted: set<ClaimId>, worker: string, now: int, lease: int, maxClaims: nat, claimId: ClaimId)
    requires RecordInv(r, true, minted)
    requires ClaimTransaction(r.log, r.row, worker, now, lease, maxClaims, claimId).outcome.Won?
    ensures var t := Claiming(r, worker, now, lease, maxClaims, claimId);
            && RowCurrent(t) && ShowsClaimed(t.row.value)
            && t.row.value.lease == Some(now + lease)
            && t.row.value.view.payload.value.entity.claimId == claimId
            && t.log == r.log + [Stored(|r.log| + 1, Claimed(worker, claimId, now + lease))]
            && t.won == r.won + {Handle(|t.log|, claimId, Retries(Events(r.log)))}
            && Handle(|t.log|, claimId, Retries(Events(r.log))) !in r.won
  {
    WonMeansClaimed(r, worker, now, lease, maxClaims, claimId);
    ClaimingByPlan(r, worker, now, lease, maxClaims, claimId);
    LandedClaimSawTheHead(r, minted, worker, now, lease, maxClaims, claimId);
    RetriesSnoc(Events(r.log), Claimed(worker, claimId, now + lease));
    assert forall h :: h in r.won ==> h.claimSeq <= |r.log|;
  }

  /** What winning says about the plan, whatever the record. */
  lemma WonMeansClaimed(r: JobRecord, worker: string, now: int, lease: int, maxClaims: nat, claimId: ClaimId)
    requires ClaimTransaction(r.log, r.row, worker, now, lease, maxClaims, claimId).outcome.Won?
    ensures var plan := PlanClaim(ReadForClaim(r.row), worker, now, lease, maxClaims, claimId);
            && plan.Claim? && Insert(r.log, Stored(plan.sequence, plan.event)).Some?
            && plan.event == Claimed(worker, claimId, now + lease) && plan.leaseUntil == now + lease
            && plan.payload.Live? && plan.payload.entity.Held? && plan.payload.entity.claimId == claimId
            && plan.won.claimSeq == plan.sequence && plan.won.claimId == claimId
  {
  }

  /**
   A renewal by a holder is held exactly while its claim is the row's version, and
   whatever happens it changes no event, version, payload or history.
   */
  lemma {:induction false} RenewalTouchesOnlyTheLease(r: JobRecord, minted: set<ClaimId>, h: Handle, newLease: int)
    requires RecordInv(r, true, minted) && h in r.won
    ensures var u := Renewing(r, h.claimSeq, newLease);
            var held := r.row.value.view.version == h.claimSeq;
            && (RenewedRow(r.row, h.claimSeq, newLease).Some? <==> held)
            && u == r.(row := Some(Row(r.row.value.view, if held then Some(newLease) else r.row.value.lease)))
  {
    if r.row.value.view.version == h.claimSeq {
      HeldAfterItsClaim(Events(r.log), h);
    }
  }

  lemma {:induction false} HeldAfterItsClaim(events: seq<JobEvent>, h: Handle)
    requires Folded(events).Live? && HandleInv(events, h)
    ensures var state := Folded(events[..h.claimSeq]);
            state.Live? && state.entity.Held? && state.entity.claimId == h.claimId
  {
    PrefixesOfLiveReplayAreLive(JOB, events, h.claimSeq);
    NonEmptyLiveIsLive(events[..h.claimSeq]);
    HeldIffLastClaimed(events[..h.claimSeq]);
  }

  // --------------------------------------------------------- first execution

  ghost predicate ClaimedBefore(events: seq<JobEvent>, n: int) {
    exists i :: 0 <= i < |events| && i < n && events[i].Claimed?
  }

  /**
   A claim at sequence 2 is the only one no earlier claim precedes: the test the
   worker makes is exact, and at most one claim of a job ever passes it.
   */
  lemma {:induction false} FirstExecutionIsExact(actions: seq<Action>, j: JobId, h: Handle)
    requires j in Run(actions).jobs && h in Run(actions).jobs[j].won
    ensures var r := Run(actions).jobs[j];
            && 2 <= h.claimSeq <= |r.log|
            && (h.claimSeq == 2 <==> !ClaimedBefore(Events(r.log), h.claimSeq - 1))
            && forall h' :: h' in r.won && h'.claimSeq == h.claimSeq ==> h' == h
  {
    RunKeepsInv(actions);
    var s := Run(actions);
    var r := s.jobs[j];
    assert RecordInv(r, s.running, s.minted);
    var events := Events(r.log);
    forall g | g in r.won ensures HandleInv(events, g) {}
    SecondEventIsTheFirstClaim(events, h);
    forall h' | h' in r.won && h'.claimSeq == h.claimSeq ensures h' == h {
      assert HandleInv(events, h');
    }
  }

  lemma SecondEventIsTheFirstClaim(events: seq<JobEvent>, h: Handle)
    requires Folded(events).Live? && HandleInv(events, h)
    ensures h.claimSeq == 2 <==> !ClaimedBefore(events, h.claimSeq - 1)
  {
    LiveStreamShape(events, 0);
    if h.claimSeq > 2 {
      ClaimOrTerminalIsSecond(events);
      LiveStreamShape(events, 1);
      assert events[1].Claimed?;
    }
  }

  /** A pending job can only be claimed or abandoned. */
  lemma ClaimOrTerminalIsSecond(events: seq<JobEvent>)
    requires Folded(events).Live? && |events| >= 2
    ensures events[1].Claimed? || IsTerminal(events[1])
  {
    LiveStreamShape(events, 0);
    LiveStreamShape(events, 1);
  }

  // ---------------------------------------------------------------- recovery

  /**
   Whatever a crash interrupted, replaying a job's row makes it the fold of the
   whole log, under the old lease if the row survived and reclaimable if it did not.
   */
  lemma {:induction false} RecoveryRestoresTheRow(actions: seq<Action>, j: JobId)
    requires j in Run(actions).jobs && !Run(actions).running
    ensures var s, t := Run(actions), Next(Run(actions), ReplayRow(j));
            var r, u := s.jobs[j], t.jobs[j];
            && u.log == r.log && RowCurrent(u)
            && u.row.value.view == View(|r.log|, Some(Folded(Events(r.log))))
            && u.row.value.lease == (if r.row.Some? then r.row.value.lease else None)
            && Next(t, ReplayRow(j)) == t
  {
    RunKeepsInv(actions);
    var s := Run(actions);
    var r := s.jobs[j];
    assert RecordInv(r, s.running, s.minted);
    ReplayKeepsInv(r, s.minted);
    ReplayedIsWholeFold(r, s.minted);
    var t := Next(s, ReplayRow(j));
    assert t.jobs[j := t.jobs[j]] == t.jobs;
  }
}
