/**
 The transactional outbox of one command: jobs dispatched by a handler wait in a
 task-local scope until the event repository's commit carries their `Enqueued`
 events and seed rows. A commit prepares the buffer without clearing it, and
 drains what it prepared only after its transaction succeeded.
 */
module Outbox {
  import opened Prelude

  type JobId = nat

  /** Milliseconds of delay the durable instant arithmetic can represent. */
  const MAX_DELAY_MS: nat := 0x7fff_ffff_ffff_ffff

  /** `encoded` is the outcome of encoding the job; `None` when it does not encode. */
  datatype PendingPush = PendingPush(jobId: JobId, kind: string, encoded: Option<string>, delayMs: nat)

  datatype EnqueueRequest = EnqueueRequest(jobId: JobId, kind: string, payload: string, runAtMs: int)

  datatype JobStoreError = Encode | DelayOverflow | InvalidInstant

  function Request(push: PendingPush, nowMs: int): Result<EnqueueRequest, JobStoreError> {
    match push.encoded
    case None => Err(Encode)
    case Some(payload) =>
      if push.delayMs > MAX_DELAY_MS then Err(DelayOverflow)
      else Ok(EnqueueRequest(push.jobId, push.kind, payload, nowMs + push.delayMs))
  }

  /** The requests of a whole buffer, or the error of its first push that has none. */
  function Prepared(pending: seq<PendingPush>, nowMs: int): (prepared: Result<seq<EnqueueRequest>, JobStoreError>)
    ensures prepared.Ok? ==>
              && |prepared.value| == |pending|
              && forall i :: 0 <= i < |pending| ==> Request(pending[i], nowMs) == Ok(prepared.value[i])
  {
    if pending == [] then Ok([])
    else
      var last := |pending| - 1;
      match Prepared(pending[..last], nowMs)
      case Err(error) => Err(error)
      case Ok(requests) =>
        match Request(pending[last], nowMs)
        case Err(error) => Err(error)
        case Ok(request) => Ok(requests + [request])
  }

  /** A push that can be enqueued: its job encodes and its delay fits the clock. */
  predicate Encodes(push: PendingPush) {
    push.encoded.Some? && push.delayMs <= MAX_DELAY_MS
  }

  /** The first push that cannot be enqueued, and why. */
  ghost predicate FirstToFail(pending: seq<PendingPush>, k: nat, error: JobStoreError) {
    && k < |pending| && !Encodes(pending[k]) && (forall i :: 0 <= i < k ==> Encodes(pending[i]))
    && error == if pending[k].encoded.None? then Encode else DelayOverflow
  }

  /**
   A buffer is prepared exactly when every push of it can be enqueued: each becomes its own
   job with its kind, its encoded payload and its instant. Otherwise the first that cannot
   says why: its encoding, or else its delay.
   */
  lemma {:induction false} PreparedExactly(pending: seq<PendingPush>, nowMs: int)
    ensures var prepared := Prepared(pending, nowMs);
            && (prepared.Ok? <==> forall i :: 0 <= i < |pending| ==> Encodes(pending[i]))
            && (prepared.Ok? ==>
                  && |prepared.value| == |pending|
                  && forall i :: 0 <= i < |pending| ==>
                       prepared.value[i] ==
                         EnqueueRequest(pending[i].jobId, pending[i].kind, pending[i].encoded.value, nowMs + pending[i].delayMs))
            && (prepared.Err? ==> exists k :: FirstToFail(pending, k, prepared.error))
  {
    if Prepared(pending, nowMs).Ok? {
      forall i | 0 <= i < |pending| ensures Encodes(pending[i]) {
        assert Request(pending[i], nowMs).Ok?;
      }
    } else {
      var k := FailedPush(pending, nowMs);
    }
  }

  lemma {:induction false} FailedPush(pending: seq<PendingPush>, nowMs: int) returns (k: nat)
    requires Prepared(pending, nowMs).Err?
    ensures FirstToFail(pending, k, Prepared(pending, nowMs).error)
  {
    var last := |pending| - 1;
    var before := pending[..last];
    if Prepared(before, nowMs).Err? {
      k := FailedPush(before, nowMs);
    } else {
      k := last;
      forall i | 0 <= i < last ensures Encodes(pending[i]) {
        assert Request(before[i], nowMs).Ok?;
      }
    }
  }

  function RequestIds(requests: seq<EnqueueRequest>): (ids: seq<JobId>)
    ensures |ids| == |requests|
  {
    seq(|requests|, i requires 0 <= i < |requests| => requests[i].jobId)
  }

  function PushIds(pushes: seq<PendingPush>): (ids: seq<JobId>)
    ensures |ids| == |pushes|
  {
    seq(|pushes|, i requires 0 <= i < |pushes| => pushes[i].jobId)
  }

  /** The task-local buffer `PENDING_JOBS` of one `Store::send`. */
  class PendingScope {
    var pending: seq<PendingPush>

    constructor ()
      ensures pending == []
    {
      pending := [];
    }

    method Buffer(push: PendingPush)
      modifies this
      ensures pending == old(pending) + [push]
    {
      pending := pending + [push];
    }

    /** Encodes every buffered push and leaves the buffer as it is, also on failure. */
    method PreparePending(nowMs: int) returns (prepared: Result<seq<EnqueueRequest>, JobStoreError>)
      ensures prepared == Prepared(pending, nowMs)
    {
      var requests := [];
      var done := 0;
      while done < |pending|
        invariant 0 <= done <= |pending|
        invariant Prepared(pending[..done], nowMs) == Ok(requests)
      {
        assert pending[..done + 1][..done] == pending[..done];
        match Request(pending[done], nowMs) {
          case Err(error) =>
            PreparedStopsAtError(pending, nowMs, done + 1);
            return Err(error);
          case Ok(request) => requests := requests + [request];
        }
        done := done + 1;
      }
      assert pending[..done] == pending;
      return Ok(requests);
    }

    method MarkCommitted(count: nat)
      requires count <= |pending|
      modifies this
      ensures pending == old(pending)[count..]
    {
      pending := pending[count..];
    }
  }

  lemma {:induction false} PreparedStopsAtError(pending: seq<PendingPush>, nowMs: int, upTo: nat)
    requires upTo <= |pending|
    requires Prepared(pending[..upTo], nowMs).Err?
    ensures Prepared(pending, nowMs) == Prepared(pending[..upTo], nowMs)
  {
    if upTo == |pending| {
      assert pending[..upTo] == pending;
    } else {
      var last := |pending| - 1;
      assert pending[..last][..upTo] == pending[..upTo];
      PreparedStopsAtError(pending[..last], nowMs, upTo);
    }
  }
}

/**
 Every interleaving of buffering, preparing, committing and draining in one scope,
 including several batches in flight at once. `queue` lists the jobs whose
 `Enqueued` event exists, in commit order; the unique key refuses a second
 `Enqueued` for the same job, and with it the whole commit.
 */
module OutboxRuns {
  import opened Prelude
  import opened Outbox

  datatype Status = InFlight | Refused | Committed | Drained

  /** `at` is how many pushes the scope had seen when the batch was prepared. */
  datatype Batch = Batch(requests: seq<EnqueueRequest>, at: nat, status: Status)

  datatype Scope = Scope(pending: seq<PendingPush>, pushed: seq<PendingPush>,
                         queue: seq<JobId>, batches: map<nat, Batch>)

  datatype Action =
    | Buffer(push: PendingPush)
    | Prepare(batch: nat, nowMs: int)
    | Commit(batch: nat, eventsAccepted: bool)
    | MarkCommitted(batch: nat)

  const EMPTY := Scope([], [], [], map[])

  predicate Conflicts(queue: seq<JobId>, requests: seq<EnqueueRequest>) {
    exists i :: 0 <= i < |requests| && requests[i].jobId in queue
  }

  function Next(s: Scope, action: Action): Scope {
    match action
    case Buffer(push) =>
      // Job ids are minted fresh per dispatch.
      if push.jobId in PushIds(s.pushed) then s
      else s.(pending := s.pending + [push], pushed := s.pushed + [push])
    case Prepare(b, nowMs) =>
      if b in s.batches then s
      else
        var prepared := Prepared(s.pending, nowMs);
        if prepared.Err? then s
        else s.(batches := s.batches[b := Batch(prepared.value, |s.pushed|, InFlight)])
    case Commit(b, eventsAccepted) =>
      if b !in s.batches || s.batches[b].status != InFlight then s
      else
        var batch := s.batches[b];
        if !eventsAccepted || Conflicts(s.queue, batch.requests) then
          s.(batches := s.batches[b := batch.(status := Refused)])
        else
          s.(queue := s.queue + RequestIds(batch.requests),
             batches := s.batches[b := batch.(status := Committed)])
    case MarkCommitted(b) =>
      if b !in s.batches || s.batches[b].status != Committed then s
      else
        var count := |s.batches[b].requests|;
        s.(pending := if count <= |s.pending| then s.pending[count..] else [],
           batches := s.batches[b := s.batches[b].(status := Drained)])
  }

  function Run(actions: seq<Action>): Scope {
    if actions == [] then EMPTY else Next(Run(actions[..|actions| - 1]), actions[|actions| - 1])
  }

  ghost predicate Distinct(ids: seq<JobId>) {
    forall i, j :: 0 <= i < j < |ids| ==> ids[i] != ids[j]
  }

  /** Where the still-buffered pushes begin. */
  function DrainedCount(s: Scope): int {
    |s.pushed| - |s.pending|
  }

  ghost predicate BatchInv(s: Scope, batch: Batch) {
    var first := batch.at - |batch.requests|;
    && 0 <= first <= DrainedCount(s)
    && batch.at <= |s.pushed|
    && RequestIds(batch.requests) == PushIds(s.pushed)[first..batch.at]
    && (batch.status == Committed && batch.requests != [] ==>
          first == DrainedCount(s) && batch.at == |s.queue|)
  }

  ghost predicate Undrained(s: Scope, b: nat) {
    b in s.batches && s.batches[b].status == Committed && s.batches[b].requests != []
  }

  ghost predicate Inv(s: Scope) {
    && 0 <= DrainedCount(s) <= |s.queue| <= |s.pushed|
    && s.pending == s.pushed[DrainedCount(s)..]
    && Distinct(PushIds(s.pushed))
    && s.queue == PushIds(s.pushed)[..|s.queue|]
    && (forall b :: b in s.batches ==> BatchInv(s, s.batches[b]))
    && (forall b, c :: Undrained(s, b) && Undrained(s, c) ==> b == c)
    && ((forall b :: !Undrained(s, b)) ==> DrainedCount(s) == |s.queue|)
  }

  lemma BufferKeepsInv(s: Scope, push: PendingPush)
    requires Inv(s)
    ensures Inv(Next(s, Buffer(push)))
  {
    var t := Next(s, Buffer(push));
    if push.jobId !in PushIds(s.pushed) {
      assert PushIds(t.pushed) == PushIds(s.pushed) + [push.jobId];
      assert forall b :: Undrained(t, b) == Undrained(s, b);
      forall b | b in t.batches ensures BatchInv(t, t.batches[b]) {
        assert BatchInv(s, s.batches[b]);
      }
    }
  }

  lemma PrepareKeepsInv(s: Scope, b: nat, nowMs: int)
    requires Inv(s)
    ensures Inv(Next(s, Prepare(b, nowMs)))
  {
    var t := Next(s, Prepare(b, nowMs));
    if t != s {
      var first := DrainedCount(s);
      var ids := RequestIds(t.batches[b].requests);
      forall i | 0 <= i < |ids| ensures ids[i] == PushIds(s.pushed)[first + i] {
        assert Request(s.pending[i], nowMs).Ok?;
      }
      assert ids == PushIds(s.pushed)[first..|s.pushed|];
      forall c | c in t.batches ensures BatchInv(t, t.batches[c]) {
        assert c != b ==> BatchInv(s, s.batches[c]);
      }
      assert forall c :: Undrained(t, c) == Undrained(s, c);
    }
  }

  /** A commit that carries jobs can succeed only when nothing before them is undrained. */
  lemma AcceptedBatchIsNext(s: Scope, b: nat)
    requires Inv(s) && b in s.batches
    requires s.batches[b].requests != [] && !Conflicts(s.queue, s.batches[b].requests)
    ensures s.batches[b].at - |s.batches[b].requests| == DrainedCount(s) == |s.queue|
    ensures forall c :: !Undrained(s, c)
  {
    var batch := s.batches[b];
    assert BatchInv(s, batch);
    var first := batch.at - |batch.requests|;
    assert RequestIds(batch.requests)[0] == PushIds(s.pushed)[first];
    assert first >= |s.queue|;
    assert forall c :: c in s.batches ==> BatchInv(s, s.batches[c]);
  }

  /** A batch that ends without enqueuing anything changes nothing the others rely on. */
  lemma EndedBatchKeepsInv(s: Scope, b: nat, status: Status)
    requires Inv(s) && b in s.batches && !Undrained(s, b) && (status == Committed ==> s.batches[b].requests == [])
    ensures Inv(s.(batches := s.batches[b := s.batches[b].(status := status)]))
  {
    var t := s.(batches := s.batches[b := s.batches[b].(status := status)]);
    forall c ensures Undrained(t, c) == Undrained(s, c) {}
    forall c | c in t.batches ensures BatchInv(t, t.batches[c]) {
      assert BatchInv(s, s.batches[c]);
    }
  }

  lemma AcceptedKeepsInv(s: Scope, b: nat)
    requires Inv(s) && b in s.batches && s.batches[b].status == InFlight
    requires s.batches[b].requests != [] && !Conflicts(s.queue, s.batches[b].requests)
    ensures Inv(s.(queue := s.queue + RequestIds(s.batches[b].requests),
                   batches := s.batches[b := s.batches[b].(status := Committed)]))
  {
    var batch := s.batches[b];
    var t := s.(queue := s.queue + RequestIds(batch.requests), batches := s.batches[b := batch.(status := Committed)]);
    AcceptedBatchIsNext(s, b);
    assert BatchInv(s, batch);
    assert t.queue == PushIds(s.pushed)[..batch.at];
    forall c ensures Undrained(t, c) <==> c == b {
      assert !Undrained(s, c);
    }
    assert Undrained(t, b);
    forall c | c in t.batches ensures BatchInv(t, t.batches[c]) {
      assert BatchInv(s, s.batches[c]) && (c != b ==> !Undrained(t, c));
    }
  }

  lemma CommitKeepsInv(s: Scope, b: nat, eventsAccepted: bool)
    requires Inv(s)
    ensures Inv(Next(s, Commit(b, eventsAccepted)))
  {
    if b in s.batches && s.batches[b].status == InFlight {
      var batch := s.batches[b];
      if !eventsAccepted || Conflicts(s.queue, batch.requests) {
        EndedBatchKeepsInv(s, b, Refused);
      } else if batch.requests == [] {
        assert s.queue + RequestIds(batch.requests) == s.queue;
        EndedBatchKeepsInv(s, b, Committed);
      } else {
        AcceptedKeepsInv(s, b);
      }
    }
  }

  lemma DrainKeepsInv(s: Scope, b: nat)
    requires Inv(s) && Undrained(s, b)
    ensures Inv(Next(s, MarkCommitted(b)))
  {
    var t := Next(s, MarkCommitted(b));
    var batch := s.batches[b];
    assert BatchInv(s, batch);
    assert t.pending == t.pushed[DrainedCount(t)..];
    forall c ensures !Undrained(t, c) {
      assert Undrained(t, c) ==> Undrained(s, c);
    }
    forall c | c in t.batches ensures BatchInv(t, t.batches[c]) {
      assert BatchInv(s, s.batches[c]) && !Undrained(t, c);
    }
  }

  lemma MarkKeepsInv(s: Scope, b: nat)
    requires Inv(s)
    ensures Inv(Next(s, MarkCommitted(b)))
  {
    if Undrained(s, b) {
      DrainKeepsInv(s, b);
    } else if b in s.batches && s.batches[b].status == Committed {
      EndedBatchKeepsInv(s, b, Drained);
      assert s.pending[0..] == s.pending;
    }
  }

  lemma {:induction false} RunKeepsInv(actions: seq<Action>)
    ensures Inv(Run(actions))
  {
    if actions != [] {
      var before := actions[..|actions| - 1];
      RunKeepsInv(before);
      match actions[|actions| - 1]
      case Buffer(push) => BufferKeepsInv(Run(before), push);
      case Prepare(b, nowMs) => PrepareKeepsInv(Run(before), b, nowMs);
      case Commit(b, accepted) => CommitKeepsInv(Run(before), b, accepted);
      case MarkCommitted(b) => MarkKeepsInv(Run(before), b);
    }
  }

  /**
   No job is enqueued twice, none out of order, none that was not dispatched, and none is
   lost: whatever is not enqueued is still buffered, in order.
   */
  lemma {:induction false} EnqueuedOnceInOrder(actions: seq<Action>)
    ensures var s := Run(actions);
            && s.queue <= PushIds(s.pushed)
            && Distinct(s.queue)
            && |s.pending| <= |s.pushed| && s.pending == s.pushed[|s.pushed| - |s.pending|..]
            && forall i :: |s.queue| <= i < |s.pushed| ==> s.pushed[i] in s.pending
  {
    RunKeepsInv(actions);
    EnqueuedFromInv(Run(actions));
  }

  lemma EnqueuedFromInv(s: Scope)
    requires Inv(s)
    ensures s.queue <= PushIds(s.pushed) && Distinct(s.queue) && |s.pending| <= |s.pushed|
    ensures s.pending == s.pushed[|s.pushed| - |s.pending|..]
    ensures forall i :: |s.queue| <= i < |s.pushed| ==> s.pushed[i] in s.pending
  {
    forall i, j | 0 <= i < j < |s.queue| ensures s.queue[i] != s.queue[j] {
      assert s.queue[i] == PushIds(s.pushed)[i] && s.queue[j] == PushIds(s.pushed)[j];
    }
    forall i | |s.queue| <= i < |s.pushed| ensures s.pushed[i] in s.pending {
      assert s.pending[i - DrainedCount(s)] == s.pushed[i];
    }
  }

  /**
   A commit that succeeds leaves every job dispatched before its preparation
   enqueued, takes none dispatched after it, and its drain never overruns the buffer.
   */
  lemma {:induction false} SuccessfulCommitTakesEveryEarlierDispatch(actions: seq<Action>, b: nat)
    requires b in Run(actions).batches && Run(actions).batches[b].status == InFlight
    requires Run(actions + [Commit(b, true)]).batches[b].status == Committed
    ensures var s := Run(actions);
            var t := Run(actions + [Commit(b, true)]);
            var at := s.batches[b].at;
            && at <= |s.pushed| && |s.queue| <= |s.pushed|
            && t.queue == PushIds(s.pushed)[..if at < |s.queue| then |s.queue| else at]
            && |s.batches[b].requests| <= |t.pending|
  {
    var s := Run(actions);
    RunKeepsInv(actions);
    assert (actions + [Commit(b, true)])[..|actions|] == actions;
    assert BatchInv(s, s.batches[b]);
    if s.batches[b].requests != [] {
      AcceptedBatchIsNext(s, b);
      assert Run(actions + [Commit(b, true)]).queue == PushIds(s.pushed)[..s.batches[b].at];
    } else {
      assert Run(actions + [Commit(b, true)]).queue == s.queue;
    }
  }

  /**
   A commit is refused exactly when its events are, or when one of its jobs is already
   enqueued; and a refused commit enqueues nothing and loses nothing.
   */
  lemma {:induction false} RefusedCommitKeepsTheBuffer(actions: seq<Action>, b: nat, eventsAccepted: bool)
    requires b in Run(actions).batches && Run(actions).batches[b].status == InFlight
    ensures var s := Run(actions);
            var t := Run(actions + [Commit(b, eventsAccepted)]);
            && b in t.batches
            && (t.batches[b].status == Refused <==> !eventsAccepted || Conflicts(s.queue, s.batches[b].requests))
            && (t.batches[b].status == Refused ==>
                  && t.pending == s.pending && t.queue == s.queue
                  && forall i :: |s.queue| <= i < |s.pushed| ==> s.pushed[i] in t.pending)
  {
    var s := Run(actions);
    RunKeepsInv(actions);
    EnqueuedFromInv(s);
    assert (actions + [Commit(b, eventsAccepted)])[..|actions|] == actions;
  }

  /**
   A scope with nothing else in flight gets everything through: preparing, committing and
   draining leaves every dispatched job enqueued and the buffer empty, exactly when every
   buffered push can be enqueued.
   */
  lemma {:induction false} UncontendedCommitTakesAll(actions: seq<Action>, b: nat, nowMs: int)
    requires var s := Run(actions); b !in s.batches && forall c :: !Undrained(s, c)
    ensures var s := Run(actions);
            var t := Next(Next(Next(s, Prepare(b, nowMs)), Commit(b, true)), MarkCommitted(b));
            if forall i :: 0 <= i < |s.pending| ==> Encodes(s.pending[i])
            then t.queue == PushIds(s.pushed) && t.pending == [] && t.pushed == s.pushed
            else t == s
  {
    RunKeepsInv(actions);
    var s := Run(actions);
    PreparedExactly(s.pending, nowMs);
    if forall i :: 0 <= i < |s.pending| ==> Encodes(s.pending[i]) {
      PreparedIsNext(s, b, nowMs);
    }
  }

  lemma {:induction false} PreparedIsNext(s: Scope, b: nat, nowMs: int)
    requires Inv(s) && b !in s.batches && (forall c :: !Undrained(s, c)) && Prepared(s.pending, nowMs).Ok?
    ensures var t := Next(Next(Next(s, Prepare(b, nowMs)), Commit(b, true)), MarkCommitted(b));
            t.queue == PushIds(s.pushed) && t.pending == [] && t.pushed == s.pushed
  {
    var requests := Prepared(s.pending, nowMs).value;
    var ids := PushIds(s.pushed);
    PreparedExactly(s.pending, nowMs);
    assert RequestIds(requests) == ids[|s.queue|..];
    assert !Conflicts(s.queue, requests) by {
      forall i | 0 <= i < |requests| ensures requests[i].jobId !in s.queue {
        assert requests[i].jobId == ids[|s.queue| + i];
      }
    }
    assert s.queue + ids[|s.queue|..] == ids;
    assert s.pending[|s.pending|..] == [];
  }
}
