/**
 What each operation on a job achieves when nothing stands in its way, told by the job's
 stream and row alone: that an enqueue lands, a holder can settle, a settlement is recorded
 as it was asked for and reaches the row, and a crashed queue comes back.
 */
module JobEffects {
  import opened Prelude
  import opened Outbox
  import opened EventTable
  import opened Lifecycles
  import opened Jobs
  import opened Projection
  import opened JobQueue
  import opened JobInvariants
  import opened JobTheorems

  // -------------------------------------------------------------- enqueuing

  /**
   An enqueue lands exactly for a new job id at a representable instant. It leaves a
   one-event stream and a row of its own, due from that instant on and never claimed or
   retried; otherwise nothing changes.
   */
  lemma {:induction false} EnqueueLandsExactly(actions: seq<Action>, j: JobId, kind: string, payload: string, runAt: int)
    ensures var s := Run(actions);
            var t := Next(s, Enqueue(j, kind, payload, runAt));
            if j !in s.jobs && IsInstant(runAt) then
              && t.running == s.running && t.minted == s.minted && t.jobs.Keys == s.jobs.Keys + {j}
              && (forall i :: i in s.jobs ==> t.jobs[i] == s.jobs[i])
              && t.jobs[j] == JobRecord([Stored(1, Enqueued(kind, payload, runAt))],
                                        Some(Row(View(1, Some(Live(Pending(kind, payload, runAt, 0, 0)))), None)),
                                        {}, {}, {}, map[])
            else t == s
  {
    var s := Run(actions);
    RunKeepsInv(actions);
    FreshRecord(kind, payload, runAt);
    if j in s.jobs {
      DuplicateEnqueueIsRefused(s.jobs[j], s.running, s.minted, kind, payload, runAt);
      assert s.jobs[j := s.jobs[j]] == s.jobs;
    }
  }

  lemma FreshRecord(kind: string, payload: string, runAt: int)
    ensures Enqueuing(UNBORN, kind, payload, runAt) ==
              if IsInstant(runAt) then
                JobRecord([Stored(1, Enqueued(kind, payload, runAt))],
                          Some(Row(View(1, Some(Live(Pending(kind, payload, runAt, 0, 0)))), None)),
                          {}, {}, {}, map[])
              else UNBORN
  {
    InsertDense([], Stored(1, Enqueued(kind, payload, runAt)));
  }

  // ------------------------------------------------------- claims and renewals

  /**
   A claim attempt with a fresh id on a running queue is its transaction, whatever that
   decides, provided its policy makes sense; otherwise it is turned away unseen.
   */
  lemma {:induction false} ClaimsAreTransactions(
    actions: seq<Action>, j: JobId, worker: string, now: int, lease: int, maxClaims: nat, claimId: ClaimId)
    requires var s := Run(actions); s.running && j in s.jobs && claimId !in s.minted
    ensures var r := Run(actions).jobs[j];
            var t := Next(Run(actions), ClaimJob(j, worker, now, lease, maxClaims, claimId));
            var result := ClaimTransaction(r.log, r.row, worker, now, lease, maxClaims, claimId);
            && j in t.jobs
            && (if lease > 0 && maxClaims > 0 && IsInstant(now + lease) then
                  && t.jobs[j].log == result.log && t.jobs[j].row == result.row
                  && t.jobs[j].won == (if result.outcome.Won? then r.won + {Handle(|r.log| + 1, claimId, Retries(Events(r.log)))} else r.won)
                else t.jobs[j] == r)
  {
    RunKeepsInv(actions);
    var s := Run(actions);
    NextAt(s, ClaimJob(j, worker, now, lease, maxClaims, claimId), j);
    if ClaimTransaction(s.jobs[j].log, s.jobs[j].row, worker, now, lease, maxClaims, claimId).outcome.Won? {
      DueByInv(s.jobs[j], s.minted, worker, now, lease, maxClaims, claimId);
    }
  }

  /** A renewal of a won claim on a running queue moves the lease exactly while the row is at that claim. */
  lemma {:induction false} RenewalsMoveTheLease(actions: seq<Action>, j: JobId, h: Handle, newLease: int)
    requires var s := Run(actions); s.running && j in s.jobs && h in s.jobs[j].won
    ensures var r := Run(actions).jobs[j];
            var t := Next(Run(actions), RenewJob(j, h.claimSeq, newLease));
            && r.row.Some? && j in t.jobs
            && t.jobs[j] ==
                 if r.row.value.view.version == h.claimSeq then r.(row := Some(Row(r.row.value.view, Some(newLease)))) else r
  {
    RunKeepsInv(actions);
    var s := Run(actions);
    RenewalIs(s, j, h.claimSeq, newLease);
    RenewalTouchesOnlyTheLease(s.jobs[j], s.minted, h, newLease);
  }

  lemma RenewalIs(s: System, j: JobId, claimSeq: nat, newLease: int)
    requires s.running && j in s.jobs
    ensures j in Next(s, RenewJob(j, claimSeq, newLease)).jobs
    ensures Next(s, RenewJob(j, claimSeq, newLease)).jobs[j] == Renewing(s.jobs[j], claimSeq, newLease)
  {
    NextAt(s, RenewJob(j, claimSeq, newLease), j);
  }

  // ---------------------------------------------------------------- settling

  /** What a settlement's command asks of the stream that records it. */
  ghost predicate RecordedAs(before: seq<JobEvent>, after: seq<JobEvent>, command: JobCommand) {
    && |after| == |before| + 1 && before <= after && Folded(after).Live?
    && var last := after[|before|];
       var state := Folded(after).entity;
       match command
       case Succeed(_) => state.Done?
       case RetrySchedule(_, runAt, attempt, error) =>
         && state.Pending? && ScheduledAt(after) == state.runAt == runAt
         && Retries(after) == Retries(before) + 1 == attempt
         && ClaimsSinceDefer(after) == ClaimsSinceDefer(before)
         && last.RetryScheduled? && last.error == error && last.attempt == attempt
       case Reschedule(_, runAt) =>
         && state.Pending? && ScheduledAt(after) == state.runAt == runAt
         && Retries(after) == Retries(before) && ClaimsSinceDefer(after) == 0
       case Kill(_, reason, error) => state == Buried(reason) && last.Dead? && last.error == error
  }

  /**
   In every run, a settlement that lands is recorded as its command asked: a retry at its
   instant with one more attempt and its error, a defer at its instant with a fresh claim
   budget, a success or a death with its reason and error.
   */
  lemma {:induction false} LandedSettlementRecords(actions: seq<Action>, j: JobId, s: Settlement)
    requires j in Run(actions).jobs && s in Run(actions).jobs[j].settling
    requires SettleTransaction(Run(actions).jobs[j].log, s).1.Some?
    ensures var log := Run(actions).jobs[j].log;
            RecordedAs(Events(log), Events(SettleTransaction(log, s).1.value), s.command)
  {
    RunKeepsInv(actions);
    var sys := Run(actions);
    RunningWhileSettling(sys, j);
    RecordsByInv(sys.jobs[j], sys.minted, s);
  }

  lemma RunningWhileSettling(s: System, j: JobId)
    requires Inv(s) && j in s.jobs && s.jobs[j].settling != {}
    ensures s.running && RecordInv(s.jobs[j], true, s.minted)
  {
    assert RecordInv(s.jobs[j], s.running, s.minted);
  }

  lemma {:induction false} RecordsByInv(r: JobRecord, minted: set<ClaimId>, s: Settlement)
    requires RecordInv(r, true, minted) && s in r.settling && SettleTransaction(r.log, s).1.Some?
    ensures RecordedAs(Events(r.log), Events(SettleTransaction(r.log, s).1.value), s.command)
    ensures s.handle.attempt == Retries(Events(r.log))
  {
    LandedSettlementSawTheHead(r, minted, s);
    HeldByClaim(Events(r.log), s.command.claimId);
    assert SettlementInv(Events(r.log), r.won, s);
    OutcomeRecords(Events(r.log), s.command);
    assert Events(r.log + [Stored(|r.log| + 1, Outcome(s.command))]) == Events(r.log) + [Outcome(s.command)];
  }

  lemma HeldByClaim(events: seq<JobEvent>, claimId: ClaimId)
    requires HolderBefore(events, |events|) == Some(claimId)
    ensures Folded(events).Live? && Folded(events).entity.Held? && Folded(events).entity.claimId == claimId
  {
    assert events[..|events|] == events;
  }

  lemma {:induction false} OutcomeRecords(before: seq<JobEvent>, command: JobCommand)
    requires Folded(before).Live? && Folded(before).entity.Held?
    requires command.RetrySchedule? ==> command.attempt == Retries(before) + 1
    ensures RecordedAs(before, before + [Outcome(command)], command)
  {
    var after := before + [Outcome(command)];
    assert after[..|before|] == before;
    FoldedSnoc(before, Outcome(command));
  }

  /** The settlement a handle's command becomes when it is loaded now. */
  function LoadedNow(r: JobRecord, h: Handle, command: JobCommand): Settlement {
    Settlement(h, command, |r.log|, Folded(Events(r.log)))
  }

  /** What one record becomes through two actions on it. */
  function Twice(r: JobRecord, minted: set<ClaimId>, first: Action, second: Action): JobRecord {
    JobNext(JobNext(r, true, minted, first), true, minted, second)
  }

  lemma PairOf(s: System, j: JobId, first: Action, second: Action)
    requires s.running && j in s.jobs && Targeted(first) && Targeted(second) && first.job == j == second.job && !first.ClaimJob?
    ensures j in RunFrom(s, [first, second]).jobs && RunFrom(s, [first, second]).jobs[j] == Twice(s.jobs[j], s.minted, first, second)
  {
    assert [first, second][..1] == [first] && [first][..0] == [];
    assert RunFrom(s, [first]) == Next(RunFrom(s, []), first);
    NextAt(s, first, j);
    NextAt(Next(s, first), second, j);
  }

  /** A landed settlement: recorded as asked, the row as it was, and one row update to do. */
  ghost predicate SettledOn(r: JobRecord, t: JobRecord, command: JobCommand) {
    RecordedAs(Events(r.log), Events(t.log), command) && t.row == r.row && |t.reactions| == 1
  }

  /**
   The worker whose claim holds the job can always settle it: loading and committing with
   nobody in between records its command, keeps what the row shows and its lease, and
   leaves exactly the one row update to do.
   */
  lemma {:induction false} HolderSettles(actions: seq<Action>, j: JobId, h: Handle, command: JobCommand)
    requires var s := Run(actions); s.running && j in s.jobs && h in s.jobs[j].won && CommandOf(h, command)
    requires var log := Run(actions).jobs[j].log; HolderBefore(Events(log), |log|) == Some(h.claimId)
    ensures var s := Run(actions);
            var t := RunFrom(s, [LoadJob(j, h, command), CommitSettlement(j, LoadedNow(s.jobs[j], h, command))]);
            j in t.jobs && SettledOn(s.jobs[j], t.jobs[j], command)
  {
    RunKeepsInv(actions);
    var s := Run(actions);
    SettlesFrom(s.jobs[j], s.minted, j, h, command);
    PairOf(s, j, LoadJob(j, h, command), CommitSettlement(j, LoadedNow(s.jobs[j], h, command)));
  }

  lemma {:induction false} SettlesFrom(r: JobRecord, minted: set<ClaimId>, j: JobId, h: Handle, command: JobCommand)
    requires RecordInv(r, true, minted) && h in r.won && CommandOf(h, command)
    requires HolderBefore(Events(r.log), |r.log|) == Some(h.claimId)
    ensures SettledOn(r, Twice(r, minted, LoadJob(j, h, command), CommitSettlement(j, LoadedNow(r, h, command))), command)
  {
    LoadThenSettle(r, minted, j, h, command);
    PairsAre(r, minted, j, LoadJob(j, h, command), CommitSettlement(j, LoadedNow(r, h, command)));
  }

  /** The two pairs of steps, as what they do to one record. */
  lemma PairsAre(r: JobRecord, minted: set<ClaimId>, j: JobId, first: Action, second: Action)
    ensures first.LoadJob? && second.CommitSettlement? ==>
              Twice(r, minted, first, second) == Settling(Loading(r, first.handle, first.command), second.settlement)
    ensures first.LoadView? && second.SaveView? ==>
              Twice(r, minted, first, second) == SavingView(LoadingView(r, first.reaction), second.reaction)
  {
  }

  lemma {:induction false} LoadThenSettle(r: JobRecord, minted: set<ClaimId>, j: JobId, h: Handle, command: JobCommand)
    requires RecordInv(r, true, minted) && h in r.won && CommandOf(h, command)
    requires HolderBefore(Events(r.log), |r.log|) == Some(h.claimId)
    ensures SettledOn(r, Settling(Loading(r, h, command), LoadedNow(r, h, command)), command)
  {
    var mid := Loading(r, h, command);
    var settlement := LoadedNow(r, h, command);
    LoadedMidway(r, minted, j, h, command);
    LandsByInv(mid, true, minted, settlement);
    RecordsByInv(mid, minted, settlement);
    HolderHasNoReactions(r, minted);
  }

  lemma {:induction false} LoadedMidway(r: JobRecord, minted: set<ClaimId>, j: JobId, h: Handle, command: JobCommand)
    requires RecordInv(r, true, minted) && h in r.won && CommandOf(h, command)
    ensures var mid := Loading(r, h, command);
            && RecordInv(mid, true, minted) && LoadedNow(r, h, command) in mid.settling
            && mid == r.(settling := mid.settling)
  {
    DenseLast(r.log);
    JobNextKeepsInv(r, true, minted, LoadJob(j, h, command));
  }

  /** While a claim heads the stream, the row shows it and no row update is pending. */
  lemma HolderHasNoReactions(r: JobRecord, minted: set<ClaimId>)
    requires RecordInv(r, true, minted) && HolderBefore(Events(r.log), |r.log|).Some?
    ensures r.reactions == {}
  {
    var events := Events(r.log);
    assert events[..|events|] == events;
    HeldIffLastClaimed(events);
    assert |events| in r.settledBy ==> SettledAt(events, |events|, r.settledBy[|events|]);
  }

  /** A row update done: the row shows the whole stream under the lease it had, and nothing is left to do. */
  function CaughtUpOn(r: JobRecord): JobRecord
    requires r.row.Some?
  {
    r.(reactions := {}, row := Some(Row(View(|r.log|, Some(Folded(Events(r.log)))), r.row.value.lease)))
  }

  /** The row update that a settlement leaves to do catches the row up when nobody comes in between. */
  lemma {:induction false} ReactionCatchesUp(actions: seq<Action>, j: JobId, u: Reaction)
    requires var s := Run(actions); s.running && j in s.jobs && u in s.jobs[j].reactions
    ensures Run(actions).jobs[j].row.Some?
    ensures var s := Run(actions);
            var t := RunFrom(s, [LoadView(j, u), SaveView(j, u.(seen := Some(s.jobs[j].row.value.view)))]);
            j in t.jobs && t.jobs[j] == CaughtUpOn(s.jobs[j])
  {
    RunKeepsInv(actions);
    var s := Run(actions);
    CatchesUpFrom(s.jobs[j], s.minted, j, u);
    PairOf(s, j, LoadView(j, u), SaveView(j, u.(seen := Some(s.jobs[j].row.value.view))));
  }

  lemma {:induction false} CatchesUpFrom(r: JobRecord, minted: set<ClaimId>, j: JobId, u: Reaction)
    requires RecordInv(r, true, minted) && u in r.reactions
    ensures Twice(r, minted, LoadView(j, u), SaveView(j, u.(seen := Some(r.row.value.view)))) == CaughtUpOn(r)
  {
    LoadThenSave(r, minted, u);
    PairsAre(r, minted, j, LoadView(j, u), SaveView(j, u.(seen := Some(r.row.value.view))));
  }

  lemma {:induction false} LoadThenSave(r: JobRecord, minted: set<ClaimId>, u: Reaction)
    requires RecordInv(r, true, minted) && u in r.reactions
    ensures SavingView(LoadingView(r, u), u.(seen := Some(r.row.value.view))) == CaughtUpOn(r)
  {
    var loaded := u.(seen := Some(r.row.value.view));
    OnlyMember(r.reactions, u);
    assert LoadingView(r, u) == r.(reactions := {loaded});
    ReactionCompletesTheRow(Events(r.log), r.settledBy, r.row.value);
    assert {loaded} - {loaded} == {};
  }

  // ---------------------------------------------------------------- recovery

  /** Replays and a resume, with any standalone enqueues in between. */
  predicate Recovers(a: Action) {
    a.ReplayRow? || a.Resume? || a.Enqueue?
  }

  /**
   A queue that is down comes back once every row was replayed: it runs again, and no
   stream has changed.
   */
  lemma {:induction false} ReplayedQueueResumes(actions: seq<Action>, replays: seq<Action>)
    requires !Run(actions).running
    requires forall k :: 0 <= k < |replays| ==> replays[k].ReplayRow? && replays[k].job in Run(actions).jobs
    requires forall j :: j in Run(actions).jobs ==> ReplayRow(j) in replays
    ensures var s := Run(actions);
            var t := RunFrom(s, replays + [Resume]);
            && t.running && t.jobs.Keys == s.jobs.Keys
            && forall j :: j in s.jobs ==> t.jobs[j].log == s.jobs[j].log && RowCurrent(t.jobs[j])
  {
    var s := Run(actions);
    RunKeepsInv(actions);
    assert (replays + [Resume])[..|replays|] == replays;
    ReplaysKeepKeys(s, replays);
    forall j | j in s.jobs ensures RunFrom(s, replays).jobs[j].log == s.jobs[j].log && RowCurrent(RunFrom(s, replays).jobs[j]) {
      assert ReplayRow(j) in replays;
      ReplaysReach(s, replays, j);
    }
  }

  lemma {:induction false} ReplaysKeepKeys(s: System, replays: seq<Action>)
    requires !s.running && forall k :: 0 <= k < |replays| ==> replays[k].ReplayRow? && replays[k].job in s.jobs
    ensures !RunFrom(s, replays).running && RunFrom(s, replays).jobs.Keys == s.jobs.Keys
  {
    if replays != [] {
      ReplaysKeepKeys(s, replays[..|replays| - 1]);
    }
  }

  lemma {:induction false} RecordAfterReplays(s: System, replays: seq<Action>, j: JobId)
    requires Inv(s) && !s.running && j in s.jobs
    requires forall k :: 0 <= k < |replays| ==> replays[k].ReplayRow? && replays[k].job in s.jobs
    ensures var t := RunFrom(s, replays); !t.running && j in t.jobs && RecordInv(t.jobs[j], false, t.minted)
  {
    RunFromKeepsInv(s, replays);
    ReplaysKeepKeys(s, replays);
  }

  lemma {:induction false} ReplaysReach(s: System, replays: seq<Action>, j: JobId)
    requires Inv(s) && !s.running && j in s.jobs
    requires forall k :: 0 <= k < |replays| ==> replays[k].ReplayRow? && replays[k].job in s.jobs
    ensures j in RunFrom(s, replays).jobs && ReplayedAs(s.jobs[j], RunFrom(s, replays).jobs[j], ReplayRow(j) in replays)
  {
    if replays != [] {
      var before := replays[..|replays| - 1];
      var a := replays[|replays| - 1];
      ReplaysReach(s, before, j);
      RecordAfterReplays(s, before, j);
      ReplayStep(RunFrom(s, before), a, j);
      assert ReplayRow(j) in replays <==> ReplayRow(j) in before || a == ReplayRow(j);
    }
  }

  ghost predicate ReplayedAs(r: JobRecord, t: JobRecord, replayed: bool) {
    t.log == r.log && (replayed ==> RowCurrent(t))
  }

  lemma {:induction false} ReplayStep(s: System, a: Action, j: JobId)
    requires !s.running && a.ReplayRow? && j in s.jobs && RecordInv(s.jobs[j], false, s.minted)
    ensures j in Next(s, a).jobs && ReplayedAs(s.jobs[j], Next(s, a).jobs[j], RowCurrent(s.jobs[j]) || a.job == j)
  {
    NextAt(s, a, j);
    ReplayMakesCurrent(s.jobs[j], s.minted);
  }

  lemma ReplayMakesCurrent(r: JobRecord, minted: set<ClaimId>)
    requires RecordInv(r, false, minted)
    ensures Replayed(r).log == r.log && RowCurrent(Replayed(r)) && (RowCurrent(r) ==> Replayed(r) == r)
    ensures r.row.None? ==> Replayed(r).row.value.lease == None
    ensures r.row.Some? ==> Replayed(r).row.value.lease == r.row.value.lease
  {
    DenseLast(r.log);
  }

  /**
   A job that was held when the rows were lost is not stuck: once the queue runs again it
   can be claimed at once, at any instant, as far as its budget goes.
   */
  lemma {:induction false} WipedHolderIsClaimable(
    actions: seq<Action>, j: JobId, more: seq<Action>, worker: string, now: int, lease: int, maxClaims: nat, claimId: ClaimId)
    requires var s := Run(actions); !s.running && j in s.jobs && s.jobs[j].log != [] && s.jobs[j].log[|s.jobs[j].log| - 1].event.Claimed?
    requires forall k :: 0 <= k < |more| ==> Recovers(more[k])
    requires RunFrom(Next(Run(actions), WipeRows), more).running && ValidClaimPolicy(now, lease, maxClaims)
    ensures var s := Run(actions);
            var t := RunFrom(Next(s, WipeRows), more);
            && j in t.jobs && t.jobs[j].log == s.jobs[j].log
            && var r := t.jobs[j];
               var outcome := ClaimTransaction(r.log, r.row, worker, now, lease, maxClaims, claimId).outcome;
               if ClaimsSinceDefer(Events(r.log)) < maxClaims then outcome.Won? else outcome.GaveUp?
  {
    var s := Run(actions);
    RunKeepsInv(actions);
    NextKeepsInv(s, WipeRows);
    LeaselessUntilClaimed(Next(s, WipeRows), j, more);
    RunFromKeepsInv(Next(s, WipeRows), more);
    var t := RunFrom(Next(s, WipeRows), more);
    LeaselessIsDue(t.jobs[j], t.minted, worker, now, lease, maxClaims, claimId);
  }

  lemma {:induction false} LeaselessIsDue(
    r: JobRecord, minted: set<ClaimId>, worker: string, now: int, lease: int, maxClaims: nat, claimId: ClaimId)
    requires RecordInv(r, true, minted) && RowCurrent(r) && r.row.value.lease.None?
    requires r.log != [] && r.log[|r.log| - 1].event.Claimed? && ValidClaimPolicy(now, lease, maxClaims)
    ensures var outcome := ClaimTransaction(r.log, r.row, worker, now, lease, maxClaims, claimId).outcome;
            if ClaimsSinceDefer(Events(r.log)) < maxClaims then outcome.Won? else outcome.GaveUp?
  {
    OutcomeByInv(r, minted, worker, now, lease, maxClaims, claimId);
    DenseLast(r.log);
    assert Events(r.log)[..|r.log|] == Events(r.log);
  }

  ghost predicate Leaseless(s: System, j: JobId) {
    && j in s.jobs
    && (s.jobs[j].row.Some? ==> s.jobs[j].row.value.lease.None?)
    && (s.running ==> RowCurrent(s.jobs[j]))
  }

  lemma {:induction false} LeaselessUntilClaimed(s: System, j: JobId, more: seq<Action>)
    requires Inv(s) && Leaseless(s, j) && forall k :: 0 <= k < |more| ==> Recovers(more[k])
    ensures var t := RunFrom(s, more); Leaseless(t, j) && t.jobs[j].log == s.jobs[j].log
  {
    if more != [] {
      var before := more[..|more| - 1];
      LeaselessUntilClaimed(s, j, before);
      RunFromKeepsInv(s, before);
      LeaselessStep(RunFrom(s, before), j, more[|more| - 1]);
    }
  }

  lemma {:induction false} LeaselessStep(s: System, j: JobId, a: Action)
    requires Inv(s) && Leaseless(s, j) && Recovers(a)
    ensures Leaseless(Next(s, a), j) && Next(s, a).jobs[j].log == s.jobs[j].log
  {
    NextAt(s, a, j);
    if a.Enqueue? && a.job == j {
      DuplicateEnqueueIsRefused(s.jobs[j], s.running, s.minted, a.kind, a.payload, a.runAt);
    } else if a.ReplayRow? && !s.running {
      ReplayMakesCurrent(s.jobs[j], s.minted);
    }
  }
}
