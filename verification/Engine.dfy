/**
 The durable engine as the object that owns the tables: event streams with their
 snapshots for one aggregate type, the job streams, and the `job_queue` rows. A
 method is a transaction: it works on copies and publishes them at its end, so an
 error leaves every table untouched.
 */
module Engine {
  import opened Prelude
  import opened Outbox
  import opened EventTable
  import opened Lifecycles
  import opened Jobs
  import opened JobQueue
  import opened EventStore
  import opened NativeCommits
  import opened Projection

  type AggregateId = string

  datatype CommitFailure<+S, +E, +X> =
    | Storage(error: EngineError)
    | BadInstant(jobId: JobId)
    | DuplicateQueueRow(jobId: JobId)
    | NotPrepared(cause: JobStoreError)
    | Handler(failure: Failure<S, E, X>)

  datatype JobTables = JobTables(logs: map<JobId, JobLog>, queue: map<JobId, Row>)

  function JobLogOf(logs: map<JobId, JobLog>, jobId: JobId): JobLog {
    if jobId in logs then logs[jobId] else []
  }

  function RowOf(queue: map<JobId, Row>, jobId: JobId): Option<Row> {
    if jobId in queue then Some(queue[jobId]) else None
  }

  // ---------------------------------------------------- the outbox of a commit

  /** One job of a commit: its `Enqueued` event and its seed row, which must both be new. */
  function EnqueueOne<S, E, X>(t: JobTables, request: EnqueueRequest): Result<JobTables, CommitFailure<S, E, X>> {
    if !IsInstant(request.runAtMs) then Err(BadInstant(request.jobId))
    else
      match Insert(JobLogOf(t.logs, request.jobId), Stored(1, Enqueued(request.kind, request.payload, request.runAtMs)))
      case None => Err(Storage(OptimisticLock))
      case Some(log) =>
        if request.jobId in t.queue then Err(DuplicateQueueRow(request.jobId))
        else Ok(JobTables(t.logs[request.jobId := log],
                          t.queue[request.jobId := SeedRow(request.kind, request.payload, request.runAtMs)]))
  }

  function EnqueueAll<S, E, X>(t: JobTables, requests: seq<EnqueueRequest>): Result<JobTables, CommitFailure<S, E, X>> {
    if requests == [] then Ok(t)
    else
      match EnqueueAll<S, E, X>(t, requests[..|requests| - 1])
      case Err(failure) => Err(failure)
      case Ok(partial) => EnqueueOne(partial, requests[|requests| - 1])
  }

  /** Events, snapshot and jobs of one commit, or the first failure among them. */
  function CommittedWithJobs<S, E, X>(
    st: Stream<S, E, X>, t: JobTables, request: CommitRequest<S, E, X>, jobs: seq<EnqueueRequest>)
    : Result<(Stream<S, E, X>, JobTables), CommitFailure<S, E, X>>
  {
    match Committed(st, request)
    case Err(error) => Err(Storage(error))
    case Ok(stream) =>
      match EnqueueAll<S, E, X>(t, jobs)
      case Err(failure) => Err(failure)
      case Ok(tables) => Ok((stream, tables))
  }

  lemma {:induction false} EnqueueAllStopsAtFailure<S, E, X>(t: JobTables, requests: seq<EnqueueRequest>, n: nat)
    requires n <= |requests| && EnqueueAll<S, E, X>(t, requests[..n]).Err?
    ensures EnqueueAll<S, E, X>(t, requests) == EnqueueAll<S, E, X>(t, requests[..n])
  {
    if n == |requests| {
      assert requests[..n] == requests;
    } else {
      var last := |requests| - 1;
      assert requests[..last][..n] == requests[..n];
      EnqueueAllStopsAtFailure<S, E, X>(t, requests[..last], n);
    }
  }

  /** The job's first event and seed row, as one request writes them. */
  ghost predicate IsEnqueued(t: JobTables, request: EnqueueRequest) {
    && request.jobId in t.logs && request.jobId in t.queue
    && Stored(1, Enqueued(request.kind, request.payload, request.runAtMs)) in t.logs[request.jobId]
    && t.queue[request.jobId] == SeedRow(request.kind, request.payload, request.runAtMs)
  }

  /** What a batch makes of the tables: every job of it new and enqueued, no other touched. */
  ghost predicate BatchEnqueued(t: JobTables, tables: JobTables, requests: seq<EnqueueRequest>) {
    && (forall i :: 0 <= i < |requests| ==> IsEnqueued(tables, requests[i]) && requests[i].jobId !in t.queue)
    && (forall i, k :: 0 <= i < k < |requests| ==> requests[i].jobId != requests[k].jobId)
    && (forall jobId :: jobId !in RequestIds(requests) ==>
          JobLogOf(tables.logs, jobId) == JobLogOf(t.logs, jobId) && RowOf(tables.queue, jobId) == RowOf(t.queue, jobId))
    && t.queue.Keys <= tables.queue.Keys
  }

  lemma {:induction false} AcceptedBatchEnqueuesEach<S, E, X>(t: JobTables, requests: seq<EnqueueRequest>)
    requires EnqueueAll<S, E, X>(t, requests).Ok?
    ensures BatchEnqueued(t, EnqueueAll<S, E, X>(t, requests).value, requests)
  {
    if requests != [] {
      var last := |requests| - 1;
      AcceptedBatchEnqueuesEach<S, E, X>(t, requests[..last]);
      var partial := EnqueueAll<S, E, X>(t, requests[..last]).value;
      OneMoreEnqueued<S, E, X>(partial, requests[last]);
      BatchGrows(t, partial, EnqueueAll<S, E, X>(t, requests).value, requests[..last], requests[last]);
      assert requests[..last] + [requests[last]] == requests;
    }
  }

  lemma {:induction false} BatchGrows(t: JobTables, partial: JobTables, tables: JobTables, requests: seq<EnqueueRequest>, request: EnqueueRequest)
    requires BatchEnqueued(t, partial, requests) && AddsOne(partial, tables, request)
    ensures BatchEnqueued(t, tables, requests + [request])
  {
    var grown := requests + [request];
    assert RequestIds(grown) == RequestIds(requests) + [request.jobId];
    forall i | 0 <= i < |requests| ensures requests[i].jobId != request.jobId && IsEnqueued(tables, requests[i]) {
      assert IsEnqueued(partial, requests[i]);
      assert RowOf(tables.queue, requests[i].jobId) == RowOf(partial.queue, requests[i].jobId);
      assert JobLogOf(tables.logs, requests[i].jobId) == JobLogOf(partial.logs, requests[i].jobId);
    }
    forall jobId | jobId !in RequestIds(grown)
      ensures JobLogOf(tables.logs, jobId) == JobLogOf(t.logs, jobId) && RowOf(tables.queue, jobId) == RowOf(t.queue, jobId)
    {
      assert RequestIds(grown)[|requests|] == request.jobId;
      assert forall i :: 0 <= i < |requests| ==> RequestIds(grown)[i] == RequestIds(requests)[i];
    }
  }

  ghost predicate AddsOne(t: JobTables, tables: JobTables, request: EnqueueRequest) {
    && IsEnqueued(tables, request) && request.jobId !in t.queue
    && tables.queue.Keys == t.queue.Keys + {request.jobId}
    && (forall jobId :: jobId in t.logs ==> jobId in tables.logs)
    && (forall jobId :: jobId != request.jobId ==>
          JobLogOf(tables.logs, jobId) == JobLogOf(t.logs, jobId) && RowOf(tables.queue, jobId) == RowOf(t.queue, jobId))
  }

  lemma OneMoreEnqueued<S, E, X>(t: JobTables, request: EnqueueRequest)
    requires EnqueueOne<S, E, X>(t, request).Ok?
    ensures AddsOne(t, EnqueueOne<S, E, X>(t, request).value, request)
  {
    var row := Stored(1, Enqueued(request.kind, request.payload, request.runAtMs));
    PlaceAddsTheRow(JobLogOf(t.logs, request.jobId), row);
    assert row in multiset(Place(JobLogOf(t.logs, request.jobId), row));
  }

  /** What a batch needs: representable instants, and job ids that are new and distinct. */
  ghost predicate Enqueueable(t: JobTables, requests: seq<EnqueueRequest>) {
    && (forall i :: 0 <= i < |requests| ==>
          && IsInstant(requests[i].runAtMs)
          && requests[i].jobId !in t.queue && !Holds(JobLogOf(t.logs, requests[i].jobId), 1))
    && (forall i, k :: 0 <= i < k < |requests| ==> requests[i].jobId != requests[k].jobId)
  }

  /** A batch of jobs of any length is accepted exactly when every one of them can be enqueued. */
  lemma {:induction false} BatchAcceptedExactly<S, E, X>(t: JobTables, requests: seq<EnqueueRequest>)
    ensures EnqueueAll<S, E, X>(t, requests).Ok? <==> Enqueueable(t, requests)
  {
    if requests != [] {
      var last := |requests| - 1;
      var before := requests[..last];
      BatchAcceptedExactly<S, E, X>(t, before);
      if EnqueueAll<S, E, X>(t, before).Ok? {
        AcceptedBatchEnqueuesEach<S, E, X>(t, before);
        OneMoreAccepted<S, E, X>(t, EnqueueAll<S, E, X>(t, before).value, before, requests[last]);
        assert before + [requests[last]] == requests;
      } else {
        assert !Enqueueable(t, requests);
      }
    }
  }

  lemma {:induction false} OneMoreAccepted<S, E, X>(t: JobTables, partial: JobTables, before: seq<EnqueueRequest>, request: EnqueueRequest)
    requires Enqueueable(t, before) && BatchEnqueued(t, partial, before)
    ensures EnqueueOne<S, E, X>(partial, request).Ok? <==> Enqueueable(t, before + [request])
  {
    var requests := before + [request];
    assert forall i :: 0 <= i < |before| ==> requests[i] == before[i];
    assert requests[|before|] == request;
    if request.jobId in RequestIds(before) {
      var i :| 0 <= i < |before| && RequestIds(before)[i] == request.jobId;
      assert IsEnqueued(partial, before[i]);
      assert requests[i].jobId == requests[|before|].jobId;
    } else {
      assert JobLogOf(partial.logs, request.jobId) == JobLogOf(t.logs, request.jobId) && RowOf(partial.queue, request.jobId) == RowOf(t.queue, request.jobId);
      forall i | 0 <= i < |before| ensures before[i].jobId != request.jobId {
        assert RequestIds(before)[i] == before[i].jobId;
      }
    }
  }

  // -------------------------------------------------------------- one command

  function Buffered<S, E, X>(decision: Result<Effect<E>, Failure<S, E, X>>): seq<PendingPush> {
    match decision
    case Ok(Dispatch(_, push)) => [push]
    case _ => []
  }

  /** What a send loaded: the version it will write after, and the aggregate that decides. */
  datatype Context<+S, +E, +X> = Context(version: nat, aggregate: Lifecycle<S, E, X>)

  function ContextOf<S, E, C, X>(def: EventSourced<S, E, C, X>, st: Stream<S, E, X>): Context<S, E, X> {
    Context(StreamVersion(st), Loaded(def, st))
  }

  function SendRequest<S, E, C, X>(
    def: EventSourced<S, E, C, X>, size: SnapshotSize, context: Context<S, E, X>, events: seq<E>, snapshotVersion: nat)
    : CommitRequest<S, E, X>
  {
    CommitRequest(None, Wrapped(events, context.version),
                  SnapshotTaken(def, size, context.version, context.aggregate, events, snapshotVersion))
  }

  /**
   What sending one command does to the tables, all of it or nothing: decided on what was
   loaded, committed to whatever stream and tables the commit finds.
   */
  function Sent<S, E, C, X>(
    def: EventSourced<S, E, C, X>, size: SnapshotSize, context: Context<S, E, X>, st: Stream<S, E, X>, t: JobTables,
    command: C, nowMs: int, snapshotVersion: nat)
    : Result<(Stream<S, E, X>, JobTables), CommitFailure<S, E, X>>
  {
    Flushed(def, size, context, st, t, Handled(def, context.aggregate, command, true),
            Buffered(Decide(def, context.aggregate, command)), nowMs, snapshotVersion)
  }

  /** What is left of a send once its command was handled and its dispatches buffered. */
  function Flushed<S, E, C, X>(
    def: EventSourced<S, E, C, X>, size: SnapshotSize, context: Context<S, E, X>, st: Stream<S, E, X>, t: JobTables,
    handled: Result<seq<E>, Failure<S, E, X>>, pending: seq<PendingPush>, nowMs: int, snapshotVersion: nat)
    : Result<(Stream<S, E, X>, JobTables), CommitFailure<S, E, X>>
  {
    match handled
    case Err(failure) => Err(Handler(failure))
    case Ok(events) =>
      match Prepared(pending, nowMs)
      case Err(cause) => Err(NotPrepared(cause))
      case Ok(jobs) => CommittedWithJobs(st, t, SendRequest(def, size, context, events, snapshotVersion), jobs)
  }

  /** What a dispatching send leaves behind. */
  ghost predicate DispatchCommitted<S, E, X>(
    version: nat, event: E, push: PendingPush, nowMs: int, t: JobTables, stream: Stream<S, E, X>, tables: JobTables)
  {
    && Stored(version + 1, event) in stream.rows
    && Request(push, nowMs).Ok? && IsEnqueued(tables, Request(push, nowMs).value) && push.jobId !in t.queue
    && forall jobId :: jobId != push.jobId ==>
         JobLogOf(tables.logs, jobId) == JobLogOf(t.logs, jobId) && RowOf(tables.queue, jobId) == RowOf(t.queue, jobId)
  }

  /**
   A command that dispatches commits its event exactly together with the job, whoever wrote
   between its load and its commit: after a successful send the event is right after the
   loaded version, the job's stream starts with its `Enqueued`, and its seed row is waiting.
   */
  lemma {:induction false} SentDispatchIsEnqueued<S, E, C, X>(
    def: EventSourced<S, E, C, X>, size: SnapshotSize, context: Context<S, E, X>, st: Stream<S, E, X>, t: JobTables,
    command: C, nowMs: int, snapshotVersion: nat)
    requires var decision := Decide(def, context.aggregate, command); decision.Ok? && decision.value.Dispatch?
    requires Sent(def, size, context, st, t, command, nowMs, snapshotVersion).Ok?
    ensures var Dispatch(event, push) := Decide(def, context.aggregate, command).value;
            var (stream, tables) := Sent(def, size, context, st, t, command, nowMs, snapshotVersion).value;
            DispatchCommitted(context.version, event, push, nowMs, t, stream, tables)
  {
    var Dispatch(event, push) := Decide(def, context.aggregate, command).value;
    var (stream, tables) := Sent(def, size, context, st, t, command, nowMs, snapshotVersion).value;
    assert Handled(def, context.aggregate, command, true) == Ok([event]);
    FlushedDispatch(def, size, context, st, t, event, push, nowMs, snapshotVersion);
  }

  lemma {:induction false} FlushedDispatch<S, E, C, X>(
    def: EventSourced<S, E, C, X>, size: SnapshotSize, context: Context<S, E, X>, st: Stream<S, E, X>, t: JobTables,
    event: E, push: PendingPush, nowMs: int, snapshotVersion: nat)
    requires Flushed(def, size, context, st, t, Ok([event]), [push], nowMs, snapshotVersion).Ok?
    ensures var (stream, tables) := Flushed(def, size, context, st, t, Ok([event]), [push], nowMs, snapshotVersion).value;
            DispatchCommitted(context.version, event, push, nowMs, t, stream, tables)
  {
    var jobs := Prepared([push], nowMs).value;
    assert [push][..0] == [] && jobs == [Request(push, nowMs).value];
    AcceptedBatchEnqueuesEach<S, E, X>(t, jobs);
    assert RequestIds(jobs) == [push.jobId];
    var row := Stored(context.version + 1, event);
    assert Wrapped([event], context.version) == [row];
    PlaceAddsTheRow(st.rows, row);
    assert row in multiset(Place(st.rows, row));
    assert InsertAll(st.rows, [row]) == Insert(st.rows, row);
  }

  /**
   With no other writer in between, a send is refused exactly when its handler refuses it, or
   when the job it dispatches cannot be enqueued. Otherwise its events are the next of the
   stream, whole as long as its snapshot is, and only the dispatched job is added.
   */
  lemma {:induction false} UnracedSendLandsExactly<S, E, C, X>(
    def: EventSourced<S, E, C, X>, size: SnapshotSize, st: Stream<S, E, X>, history: seq<E>, t: JobTables,
    command: C, nowMs: int, snapshotVersion: nat)
    requires StreamInv(def, st, history)
    ensures var handled := Handled(def, Replay(def, history), command, true);
            var decision := Decide(def, Replay(def, history), command);
            var sent := Sent(def, size, ContextOf(def, st), st, t, command, nowMs, snapshotVersion);
            && (handled.Err? ==> sent == Err(Handler(handled.error)))
            && (handled.Ok? ==>
                  && (sent.Ok? <==>
                        (decision.value.Dispatch? ==>
                           && Encodes(decision.value.push)
                           && Enqueueable(t, [RequestFor(decision.value.push, nowMs)])))
                  && (sent.Ok? && !CutShort(size, |history|, |handled.value|) ==>
                        StreamInv(def, sent.value.0, history + handled.value))
                  && (sent.Ok? && decision.value.Emit? ==> sent.value.1 == t))
  {
    VersionIsHistoryLength(def, st, history);
    LoadedIsFullReplay(def, st, history);
    var handled := Handled(def, Replay(def, history), command, true);
    var decision := Decide(def, Replay(def, history), command);
    if handled.Ok? {
      if !CutShort(size, |history|, |handled.value|) {
        WholeCommitKeepsStream(def, size, st, history, handled.value, snapshotVersion);
      }
      NextCommitIsAccepted(st, history, handled.value, SnapshotTaken(def, size, |history|, Replay(def, history), handled.value, snapshotVersion));
      OneRequest<S, E, X>(t, decision.value, nowMs);
    }
  }

  function RequestFor(push: PendingPush, nowMs: int): EnqueueRequest
    requires push.encoded.Some?
  {
    EnqueueRequest(push.jobId, push.kind, push.encoded.value, nowMs + push.delayMs)
  }

  lemma NextCommitIsAccepted<S, E, X>(st: Stream<S, E, X>, history: seq<E>, events: seq<E>, snapshot: SnapshotUpdate<S, E, X>)
    requires Surviving(st.rows, history) && (events == [] ==> snapshot.None?)
    ensures Committed(st, CommitRequest(None, Wrapped(events, |history|), snapshot)).Ok?
  {
    InsertNext(st.rows, history, Wrapped(events, |history|));
  }

  /** The jobs of one command: none, or the one it dispatches. */
  lemma {:induction false} OneRequest<S, E, X>(t: JobTables, effect: Effect<E>, nowMs: int)
    ensures var pending := Buffered<S, E, X>(Ok(effect));
            && (effect.Emit? ==> pending == [] && Prepared(pending, nowMs) == Ok([]) && EnqueueAll<S, E, X>(t, []) == Ok(t))
            && (effect.Dispatch? ==>
                  && pending == [effect.push]
                  && (Prepared(pending, nowMs).Ok? <==> Encodes(effect.push))
                  && (Encodes(effect.push) ==>
                        && Prepared(pending, nowMs) == Ok([RequestFor(effect.push, nowMs)])
                        && (EnqueueAll<S, E, X>(t, [RequestFor(effect.push, nowMs)]).Ok? <==> Enqueueable(t, [RequestFor(effect.push, nowMs)]))))
  {
    if effect.Dispatch? {
      PreparedExactly([effect.push], nowMs);
      if Encodes(effect.push) {
        assert Prepared([effect.push], nowMs).value == [RequestFor(effect.push, nowMs)];
        BatchAcceptedExactly<S, E, X>(t, [RequestFor(effect.push, nowMs)]);
      }
    }
  }

  /** The enqueue a commit carries is the job protocol's own: same log, same row, refused alike. */
  lemma CarriedEnqueueIsTheProtocols<S, E, X>(t: JobTables, s: System, request: EnqueueRequest)
    requires request.jobId !in t.logs && request.jobId !in t.queue && request.jobId !in s.jobs
    ensures var q := JobQueue.Next(s, Enqueue(request.jobId, request.kind, request.payload, request.runAtMs));
            var one := EnqueueOne<S, E, X>(t, request);
            && (one.Ok? <==> request.jobId in q.jobs)
            && (one.Ok? ==>
                  && one.value.logs == t.logs[request.jobId := q.jobs[request.jobId].log]
                  && q.jobs[request.jobId].row.Some?
                  && one.value.queue == t.queue[request.jobId := q.jobs[request.jobId].row.value])
  {
    InsertDense([], Stored(1, Enqueued(request.kind, request.payload, request.runAtMs)));
  }

  // ----------------------------------------------------------------- the engine

  class SqliteEngine<S, E, C, X> {
    const def: EventSourced<S, E, C, X>
    const size: SnapshotSize
    var streams: map<AggregateId, Stream<S, E, X>>
    var jobLogs: map<JobId, JobLog>
    var jobQueue: map<JobId, Row>

    constructor (def: EventSourced<S, E, C, X>, size: SnapshotSize)
      ensures this.def == def && this.size == size && streams == map[] && Tables() == JobTables(map[], map[])
    {
      this.def, this.size := def, size;
      streams, jobLogs, jobQueue := map[], map[], map[];
    }

    function StreamOf(id: AggregateId): Stream<S, E, X>
      reads this
    {
      if id in streams then streams[id] else Stream([], None)
    }

    function Tables(): JobTables
      reads this
    {
      JobTables(jobLogs, jobQueue)
    }

    method CommitSerialized(id: AggregateId, request: CommitRequest<S, E, X>, jobs: seq<EnqueueRequest>)
      returns (done: Result<(), CommitFailure<S, E, X>>)
      modifies this
      ensures match CommittedWithJobs(old(StreamOf(id)), old(Tables()), request, jobs)
              case Err(failure) => done == Err(failure) && unchanged(this)
              case Ok((stream, tables)) => done == Ok(()) && streams == old(streams)[id := stream] && Tables() == tables
    {
      if request.expected.Some? && !EventsFollow(request.events, request.expected.value) {
        return Err(Storage(OptimisticLock));
      }
      var stream := StreamOf(id);
      if request.expected.Some? && StreamVersion(stream) != request.expected.value {
        return Err(Storage(OptimisticLock));
      }
      var inserted := InsertSerializedEventsBatch(stream.rows, request.events);
      if inserted.None? {
        return Err(Storage(OptimisticLock));
      }
      stream := stream.(rows := inserted.value);
      if request.snapshot.Some? {
        if request.events == [] {
          return Err(Storage(EmptySnapshotUpdate));
        }
        var last := request.events[|request.events| - 1].sequence;
        stream := stream.(snapshot := Some(Snapshot(request.snapshot.value.0, last, request.snapshot.value.1)));
      }
      assert Committed(old(StreamOf(id)), request) == Ok(stream);
      var tables := Tables();
      var k := 0;
      while k < |jobs|
        invariant 0 <= k <= |jobs|
        invariant EnqueueAll<S, E, X>(old(Tables()), jobs[..k]) == Ok(tables)
        invariant unchanged(this)
      {
        assert jobs[..k + 1][..k] == jobs[..k];
        var one := EnqueueOne<S, E, X>(tables, jobs[k]);
        if one.Err? {
          EnqueueAllStopsAtFailure<S, E, X>(old(Tables()), jobs, k + 1);
          return Err(one.error);
        }
        tables := one.value;
        k := k + 1;
      }
      assert jobs[..k] == jobs;
      streams := streams[id := stream];
      jobLogs, jobQueue := tables.logs, tables.queue;
      return Ok(());
    }

    /** Claims a job's row, in one write-locked transaction. */
    method ClaimJob(jobId: JobId, worker: string, nowMs: int, leaseMs: int, maxClaims: nat, claimId: ClaimId)
      returns (outcome: ClaimOutcome)
      modifies `jobLogs, `jobQueue
      ensures var result := ClaimTransaction(JobLogOf(old(jobLogs), jobId), RowOf(old(jobQueue), jobId), worker, nowMs, leaseMs, maxClaims, claimId);
              && outcome == result.outcome
              && JobLogOf(jobLogs, jobId) == result.log && RowOf(jobQueue, jobId) == result.row
              && (outcome.Skipped? || outcome.Contended? ==> unchanged(this))
      ensures forall j :: j != jobId ==>
                JobLogOf(jobLogs, j) == JobLogOf(old(jobLogs), j) && RowOf(jobQueue, j) == RowOf(old(jobQueue), j)
    {
      match PlanClaim(ReadForClaim(RowOf(jobQueue, jobId)), worker, nowMs, leaseMs, maxClaims, claimId) {
        case Skip => return Skipped;
        case Claim(sequence, event, payload, leaseUntil, won) =>
          var appended := Insert(JobLogOf(jobLogs, jobId), Stored(sequence, event));
          if appended.None? {
            return Contended;
          }
          jobLogs := jobLogs[jobId := appended.value];
          WriteProjection(jobId, sequence, payload, Some(leaseUntil));
          return Won(won);
        case Abandon(sequence, event, payload) =>
          var appended := Insert(JobLogOf(jobLogs, jobId), Stored(sequence, event));
          if appended.None? {
            return Contended;
          }
          jobLogs := jobLogs[jobId := appended.value];
          WriteProjection(jobId, sequence, payload, None);
          return GaveUp;
      }
    }

    method WriteProjection(jobId: JobId, version: nat, payload: JobLifecycle, lease: Option<int>)
      modifies `jobQueue
      ensures jobQueue == old(jobQueue)[jobId := Row(View(version, Some(payload)), lease)]
    {
      jobQueue := jobQueue[jobId := Row(View(version, Some(payload)), lease)];
    }

    /** Extends a lease; true while the claim still holds its row. */
    method RenewJob(jobId: JobId, claimSeq: nat, newLease: int) returns (held: bool)
      modifies `jobQueue
      ensures var renewed := RenewedRow(RowOf(old(jobQueue), jobId), claimSeq, newLease);
              && held == renewed.Some?
              && jobQueue == if held then old(jobQueue)[jobId := renewed.value] else old(jobQueue)
    {
      held := jobId in jobQueue && jobQueue[jobId].view.version == claimSeq && ShowsClaimed(jobQueue[jobId]);
      if held {
        jobQueue := jobQueue[jobId := jobQueue[jobId].(lease := Some(newLease))];
      }
    }

    /** Enqueues a standalone job, refusing a job id already in use. */
    method EnqueueJob(jobId: JobId, kind: string, payload: string, runAtMs: int) returns (enqueued: bool)
      modifies `jobLogs, `jobQueue
      ensures match EnqueueTransaction(JobLogOf(old(jobLogs), jobId), kind, payload, runAtMs)
              case None => !enqueued && unchanged(this)
              case Some((log, row)) => enqueued && jobLogs == old(jobLogs)[jobId := log] && jobQueue == old(jobQueue)[jobId := row]
    {
      if !IsInstant(runAtMs) {
        return false;
      }
      var appended := Insert(JobLogOf(jobLogs, jobId), Stored(1, Enqueued(kind, payload, runAtMs)));
      if appended.None? {
        return false;
      }
      jobLogs := jobLogs[jobId := appended.value];
      WriteProjection(jobId, 1, Live(Pending(kind, payload, runAtMs, 0, 0)), None);
      return true;
    }

    method StoreSnapshot(id: AggregateId, aggregate: Lifecycle<S, E, X>, lastSequence: nat) returns (stored: Result<nat, EngineError>)
      modifies `streams
      ensures match SnapshotStored(old(StreamOf(id)), aggregate, lastSequence)
              case Err(error) => stored == Err(error) && unchanged(this)
              case Ok(stream) => stored == Ok(stream.snapshot.value.version) && streams == old(streams)[id := stream]
    {
      var stream := StreamOf(id);
      var current := StreamVersion(stream);
      if current == 0 {
        return Err(EmptySnapshotUpdate);
      }
      if lastSequence > current {
        return Err(SnapshotBeyondCurrentVersion(lastSequence, current));
      }
      var version := 1;
      if stream.snapshot.Some? {
        if stream.snapshot.value.lastSequence > lastSequence {
          return Err(OptimisticLock);
        }
        version := stream.snapshot.value.version + 1;
      }
      streams := streams[id := stream.(snapshot := Some(Snapshot(aggregate, lastSequence, version)))];
      return Ok(version);
    }

    /**
     Deletes the events snapshots cover, unless the entity retains history. What goes is what
     a snapshot has read; what every stream loads, and its version, stay.
     */
    method CompactEvents(retain: bool)
      modifies `streams
      ensures streams.Keys == old(streams).Keys
      ensures forall id :: id in streams ==> streams[id] == if retain then old(streams)[id] else Compacted(old(streams)[id])
      ensures forall id :: id in streams && StreamRows(old(streams)[id].rows) ==>
                && Loaded(def, streams[id]) == Loaded(def, old(streams)[id])
                && StreamVersion(streams[id]) == StreamVersion(old(streams)[id])
                && (!retain ==> forall i :: 0 <= i < |streams[id].rows| ==> streams[id].rows[i].sequence > SnapshotFloor(streams[id]))
    {
      if !retain {
        forall id | id in streams && StreamRows(streams[id].rows)
          ensures Loaded(def, Compacted(streams[id])) == Loaded(def, streams[id])
          ensures StreamVersion(Compacted(streams[id])) == StreamVersion(streams[id])
          ensures forall i :: 0 <= i < |Compacted(streams[id]).rows| ==> Compacted(streams[id]).rows[i].sequence > SnapshotFloor(streams[id])
        {
          CompactionIsInvisible(def, streams[id]);
        }
        streams := map id | id in streams :: Compacted(streams[id]);
      }
    }

    /** Flushes events, snapshot and buffered jobs in one commit, and drains the buffer only then. */
    method Persist(id: AggregateId, request: CommitRequest<S, E, X>, scope: PendingScope, nowMs: int)
      returns (done: Result<(), CommitFailure<S, E, X>>)
      modifies this, scope
      ensures match Prepared(old(scope.pending), nowMs)
              case Err(cause) => done == Err(NotPrepared(cause)) && unchanged(this) && unchanged(scope)
              case Ok(jobs) =>
                match CommittedWithJobs(old(StreamOf(id)), old(Tables()), request, jobs)
                case Err(failure) => done == Err(failure) && unchanged(this) && unchanged(scope)
                case Ok((stream, tables)) =>
                  && done == Ok(()) && streams == old(streams)[id := stream] && Tables() == tables
                  && scope.pending == []
    {
      var prepared := scope.PreparePending(nowMs);
      if prepared.Err? {
        return Err(NotPrepared(prepared.error));
      }
      done := CommitSerialized(id, request, prepared.value);
      if done.Ok? {
        scope.MarkCommitted(|prepared.value|);
      }
    }

    /** Loads the aggregate from its snapshot and the events after it. */
    method LoadAggregate(id: AggregateId) returns (aggregate: Aggregate<S, E, C, X>)
      ensures fresh(aggregate) && aggregate.def == def
      ensures aggregate.state == Loaded(def, StreamOf(id))
    {
      var stream := StreamOf(id);
      if stream.snapshot.None? {
        aggregate := new Aggregate(def);
        aggregate.Load(Events(stream.rows));
      } else {
        aggregate := new Aggregate.FromSnapshot(def, stream.snapshot.value.aggregate);
        aggregate.Load(Events(After(stream.rows, stream.snapshot.value.lastSequence)));
      }
    }

    /** Sends one command in its own pending scope, with no other writer in between. */
    method Send(id: AggregateId, command: C, nowMs: int, snapshotVersion: nat)
      returns (done: Result<(), CommitFailure<S, E, X>>)
      modifies this
      ensures match Sent(def, size, ContextOf(def, old(StreamOf(id))), old(StreamOf(id)), old(Tables()), command, nowMs, snapshotVersion)
              case Err(failure) => done == Err(failure) && unchanged(this)
              case Ok((stream, tables)) => done == Ok(()) && streams == old(streams)[id := stream] && Tables() == tables
    {
      var scope := new PendingScope();
      var context, sink := HandleIn(id, command, scope);
      done := Flush(id, context, sink, scope, nowMs, snapshotVersion);
    }

    /** The first half of a send: loads the aggregate and lets it decide, buffering what it dispatches. */
    method HandleIn(id: AggregateId, command: C, scope: PendingScope)
      returns (context: Context<S, E, X>, sink: Result<seq<E>, Failure<S, E, X>>)
      modifies scope
      ensures context == ContextOf(def, StreamOf(id))
      ensures sink == Handled(def, context.aggregate, command, true)
      ensures scope.pending == old(scope.pending) + Buffered(Decide(def, context.aggregate, command))
    {
      var aggregate := LoadAggregate(id);
      context := Context(StreamVersion(StreamOf(id)), aggregate.state);
      sink := aggregate.Handle(command, scope);
    }

    /** The second half: commits what was decided, against the tables as they are by then. */
    method Flush(
      id: AggregateId, context: Context<S, E, X>, sink: Result<seq<E>, Failure<S, E, X>>,
      scope: PendingScope, nowMs: int, snapshotVersion: nat)
      returns (done: Result<(), CommitFailure<S, E, X>>)
      modifies this, scope
      ensures match Flushed(def, size, context, old(StreamOf(id)), old(Tables()), sink, old(scope.pending), nowMs, snapshotVersion)
              case Err(failure) => done == Err(failure) && unchanged(this)
              case Ok((stream, tables)) => done == Ok(()) && streams == old(streams)[id := stream] && Tables() == tables
    {
      if sink.Err? {
        return Err(Handler(sink.error));
      }
      done := Persist(id, SendRequest(def, size, context, sink.value, snapshotVersion), scope, nowMs);
    }
  }
}
