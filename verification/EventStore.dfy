/**
 One aggregate's stream as the engine keeps it: surviving event rows, at most one
 snapshot, commits guarded by an expected version or by the unique key alone,
 snapshot stores, and compaction of the events a snapshot covers.
 */
module EventStore {
  import opened Prelude
  import opened EventTable
  import opened Lifecycles

  datatype EngineError =
    | OptimisticLock
    | EmptySnapshotUpdate
    | SnapshotBeyondCurrentVersion(proposed: nat, current: nat)

  /** `lastSequence` is how far the snapshotted aggregate had read. */
  datatype Snapshot<+S, +E, +X> = Snapshot(aggregate: Lifecycle<S, E, X>, lastSequence: nat, version: nat)

  datatype Stream<+S, +E, +X> = Stream(rows: seq<Stored<E>>, snapshot: Option<Snapshot<S, E, X>>)

  function SnapshotFloor<S, E, X>(st: Stream<S, E, X>): nat {
    if st.snapshot.None? then 0 else st.snapshot.value.lastSequence
  }

  /** The conflict oracle: compaction may take the events, but never the snapshot's reach. */
  function StreamVersion<S, E, X>(st: Stream<S, E, X>): nat {
    if LastSequence(st.rows) > SnapshotFloor(st) then LastSequence(st.rows) else SnapshotFloor(st)
  }

  /** `snapshot` carries an aggregate and its snapshot version; how much the aggregate folded is not recorded. */
  datatype CommitRequest<+S, +E, +X> =
    CommitRequest(expected: Option<nat>, events: seq<Stored<E>>, snapshot: Option<(Lifecycle<S, E, X>, nat)>)

  /** What one commit transaction does to its own stream; an error leaves it as it was. */
  function Committed<S, E, X>(st: Stream<S, E, X>, request: CommitRequest<S, E, X>): Result<Stream<S, E, X>, EngineError> {
    if request.expected.Some? && !EventsFollow(request.events, request.expected.value) then Err(OptimisticLock)
    else if request.expected.Some? && StreamVersion(st) != request.expected.value then Err(OptimisticLock)
    else
      match InsertAll(st.rows, request.events)
      case None => Err(OptimisticLock)
      case Some(rows) =>
        if request.snapshot.None? then Ok(Stream(rows, st.snapshot))
        else if request.events == [] then Err(EmptySnapshotUpdate)
        else
          var last := request.events[|request.events| - 1].sequence;
          Ok(Stream(rows, Some(Snapshot(request.snapshot.value.0, last, request.snapshot.value.1))))
  }

  /** Replaces the snapshot, never by one that has read less, and never beyond the stream. */
  function SnapshotStored<S, E, X>(st: Stream<S, E, X>, aggregate: Lifecycle<S, E, X>, lastSequence: nat): Result<Stream<S, E, X>, EngineError> {
    if StreamVersion(st) == 0 then Err(EmptySnapshotUpdate)
    else if lastSequence > StreamVersion(st) then Err(SnapshotBeyondCurrentVersion(lastSequence, StreamVersion(st)))
    else if st.snapshot.Some? && st.snapshot.value.lastSequence > lastSequence then Err(OptimisticLock)
    else
      var version := if st.snapshot.None? then 1 else st.snapshot.value.version + 1;
      Ok(st.(snapshot := Some(Snapshot(aggregate, lastSequence, version))))
  }

  /** Deletes the events the snapshot covers. */
  function Compacted<S, E, X>(st: Stream<S, E, X>): Stream<S, E, X> {
    st.(rows := After(st.rows, SnapshotFloor(st)))
  }

  /** Snapshot-backed loading: the snapshot, then whatever events it has not read. */
  function Loaded<S, E, C, X>(def: EventSourced<S, E, C, X>, st: Stream<S, E, X>): Lifecycle<S, E, X> {
    match st.snapshot
    case None => Replay(def, Events(st.rows))
    case Some(snapshot) => Fold(def, snapshot.aggregate, Events(After(st.rows, snapshot.lastSequence)))
  }

  // ------------------------------------------------------------------- runs

  /** A reader remembers the version and the state it loaded. */
  datatype Reader<+S, +E, +X> = Reader(version: nat, aggregate: Lifecycle<S, E, X>)

  /** `history` is every event ever committed, compacted or not. */
  datatype Store<+S, +E, +X> = Store(st: Stream<S, E, X>, history: seq<E>, readers: seq<Reader<S, E, X>>)

  datatype Action<+S, +E> =
    | Read
    | Commit(reader: nat, events: seq<Stored<E>>, snapshotVersion: Option<nat>)
    | StoreSnapshot(reader: nat)
    | Compact

  /** The commit a reader sends: its version, its events, and a snapshot of what it computed. */
  function RequestOf<S, E, C, X>(def: EventSourced<S, E, C, X>, reader: Reader<S, E, X>, events: seq<Stored<E>>, snapshotVersion: Option<nat>)
    : CommitRequest<S, E, X>
  {
    CommitRequest(Some(reader.version), events,
                  if snapshotVersion.None? then None else Some((Fold(def, reader.aggregate, Events(events)), snapshotVersion.value)))
  }

  function Next<S, E, C, X>(def: EventSourced<S, E, C, X>, s: Store<S, E, X>, a: Action<S, E>): Store<S, E, X> {
    match a
    case Read => s.(readers := s.readers + [Reader(StreamVersion(s.st), Loaded(def, s.st))])
    case Commit(r, events, snapshotVersion) =>
      if r >= |s.readers| then s
      else
        var done := Committed(s.st, RequestOf(def, s.readers[r], events, snapshotVersion));
        if done.Err? then s else s.(st := done.value, history := s.history + Events(events))
    case StoreSnapshot(r) =>
      if r >= |s.readers| then s
      else
        var done := SnapshotStored(s.st, s.readers[r].aggregate, s.readers[r].version);
        if done.Err? then s else s.(st := done.value)
    case Compact => s.(st := Compacted(s.st))
  }

  function Run<S, E, C, X>(def: EventSourced<S, E, C, X>, actions: seq<Action<S, E>>): Store<S, E, X> {
    if actions == [] then Store(Stream([], None), [], [])
    else Next(def, Run(def, actions[..|actions| - 1]), actions[|actions| - 1])
  }

  // -------------------------------------------------------------- invariant

  /** The rows are the last |rows| events of the history, at their original sequences. */
  ghost predicate Surviving<E>(rows: seq<Stored<E>>, history: seq<E>) {
    && |rows| <= |history|
    && forall i :: 0 <= i < |rows| ==>
         rows[i] == Stored(|history| - |rows| + i + 1, history[|history| - |rows| + i])
  }

  ghost predicate StreamInv<S, E, C, X>(def: EventSourced<S, E, C, X>, st: Stream<S, E, X>, history: seq<E>) {
    && Surviving(st.rows, history)
    // What compaction took, the snapshot has read.
    && |history| - |st.rows| <= SnapshotFloor(st) <= |history|
    && (st.snapshot.Some? ==> st.snapshot.value.aggregate == Replay(def, history[..st.snapshot.value.lastSequence]))
  }

  ghost predicate ReaderInv<S, E, C, X>(def: EventSourced<S, E, C, X>, reader: Reader<S, E, X>, history: seq<E>) {
    reader.version <= |history| && reader.aggregate == Replay(def, history[..reader.version])
  }

  ghost predicate Inv<S, E, C, X>(def: EventSourced<S, E, C, X>, s: Store<S, E, X>) {
    && StreamInv(def, s.st, s.history)
    && forall r :: 0 <= r < |s.readers| ==> ReaderInv(def, s.readers[r], s.history)
  }

  lemma VersionIsHistoryLength<S, E, C, X>(def: EventSourced<S, E, C, X>, st: Stream<S, E, X>, history: seq<E>)
    requires StreamInv(def, st, history)
    ensures StreamVersion(st) == |history|
  {
  }

  /** Keeping what a snapshot has not read keeps a suffix of the history. */
  lemma {:induction false} AfterSurviving<E>(rows: seq<Stored<E>>, history: seq<E>, floor: nat)
    requires Surviving(rows, history) && |history| - |rows| <= floor <= |history|
    ensures After(rows, floor) == rows[floor - (|history| - |rows|)..]
    ensures Surviving(After(rows, floor), history)
    ensures Events(After(rows, floor)) == history[floor..]
    decreases |rows|
  {
    if rows == [] {
      assert history[floor..] == [];
    } else {
      assert rows[0].sequence == |history| - |rows| + 1;
      if floor == |history| - |rows| {
        AllAfter(rows, floor);
        assert Events(rows) == history[floor..];
      } else {
        AfterSurviving(rows[1..], history, floor);
        assert rows[1..][floor - (|history| - |rows[1..]|)..] == rows[floor - (|history| - |rows|)..];
      }
    }
  }

  /** Whatever was compacted, loading gives the fold of everything ever committed. */
  lemma LoadedIsFullReplay<S, E, C, X>(def: EventSourced<S, E, C, X>, st: Stream<S, E, X>, history: seq<E>)
    requires StreamInv(def, st, history)
    ensures Loaded(def, st) == Replay(def, history)
  {
    if st.snapshot.Some? {
      SurvivingTail(st.rows, history, SnapshotFloor(st));
      FoldSplit(def, history, SnapshotFloor(st));
    } else {
      NothingCompacted(st.rows, history);
    }
  }

  lemma SurvivingTail<E>(rows: seq<Stored<E>>, history: seq<E>, floor: nat)
    requires Surviving(rows, history) && |history| - |rows| <= floor <= |history|
    ensures Events(After(rows, floor)) == history[floor..]
  {
    AfterSurviving(rows, history, floor);
  }

  lemma NothingCompacted<E>(rows: seq<Stored<E>>, history: seq<E>)
    requires Surviving(rows, history) && |rows| == |history|
    ensures Events(rows) == history
  {
  }

  lemma FoldSplit<S, E, C, X>(def: EventSourced<S, E, C, X>, history: seq<E>, n: nat)
    requires n <= |history|
    ensures Fold(def, Replay(def, history[..n]), history[n..]) == Replay(def, history)
  {
    assert history == history[..n] + history[n..];
    FoldConcat(def, Uninitialized, history[..n], history[n..]);
  }

  lemma OneMoreSurvives<E>(rows: seq<Stored<E>>, history: seq<E>, row: Stored<E>)
    requires Surviving(rows, history) && row.sequence == |history| + 1
    ensures Insert(rows, row) == Some(rows + [row]) && Surviving(rows + [row], history + [row.event])
  {
  }

  lemma {:induction false} InsertNext<E>(rows: seq<Stored<E>>, history: seq<E>, batch: seq<Stored<E>>)
    requires Surviving(rows, history) && EventsFollow(batch, |history|)
    ensures InsertAll(rows, batch) == Some(rows + batch)
    ensures Surviving(rows + batch, history + Events(batch))
    decreases |batch|
  {
    if batch == [] {
      assert rows + batch == rows && history + Events(batch) == history;
    } else {
      OneMoreSurvives(rows, history, batch[0]);
      InsertNext(rows + [batch[0]], history + [batch[0].event], batch[1..]);
      assert rows + [batch[0]] + batch[1..] == rows + batch;
      assert history + [batch[0].event] + Events(batch[1..]) == history + Events(batch);
    }
  }

  /** A commit at an expected version lands exactly when the version is current and the events follow it. */
  lemma {:induction false} ExpectedVersionIsExact<S, E, C, X>(
    def: EventSourced<S, E, C, X>, st: Stream<S, E, X>, history: seq<E>, request: CommitRequest<S, E, X>)
    requires StreamInv(def, st, history) && request.expected.Some?
    ensures Committed(st, request).Ok? <==>
              && request.expected.value == |history| && EventsFollow(request.events, |history|)
              && (request.snapshot.Some? ==> request.events != [])
    ensures request.expected.value < |history| ==> Committed(st, request) == Err(OptimisticLock)
    ensures Committed(st, request).Ok? ==> Committed(st, request).value.rows == st.rows + request.events
  {
    VersionIsHistoryLength(def, st, history);
    if request.expected.value == |history| && EventsFollow(request.events, |history|) {
      InsertNext(st.rows, history, request.events);
    }
  }

  lemma {:induction false} CommitKeepsStream<S, E, C, X>(
    def: EventSourced<S, E, C, X>, st: Stream<S, E, X>, history: seq<E>,
    reader: Reader<S, E, X>, events: seq<Stored<E>>, snapshotVersion: Option<nat>)
    requires StreamInv(def, st, history) && ReaderInv(def, reader, history)
    requires Committed(st, RequestOf(def, reader, events, snapshotVersion)).Ok?
    ensures StreamInv(def, Committed(st, RequestOf(def, reader, events, snapshotVersion)).value, history + Events(events))
  {
    var request := RequestOf(def, reader, events, snapshotVersion);
    ExpectedVersionIsExact(def, st, history, request);
    InsertNext(st.rows, history, events);
    var grown := history + Events(events);
    FoldConcat(def, Uninitialized, history, Events(events));
    assert history[..|history|] == history && grown[..|grown|] == grown;
    if snapshotVersion.None? && st.snapshot.Some? {
      assert grown[..SnapshotFloor(st)] == history[..SnapshotFloor(st)];
    }
  }

  /**
   A snapshot is stored exactly when the stream has events, it claims no more than the
   stream's version, and no stored one has read further; each refusal says which. What is
   stored is that aggregate, at that reach, under the next snapshot version; the events stay.
   */
  lemma {:induction false} SnapshotStoredExactly<S, E, C, X>(
    def: EventSourced<S, E, C, X>, st: Stream<S, E, X>, history: seq<E>, aggregate: Lifecycle<S, E, X>, lastSequence: nat)
    requires StreamInv(def, st, history)
    ensures SnapshotStored(st, aggregate, lastSequence) ==
              if history == [] then Err(EmptySnapshotUpdate)
              else if lastSequence > |history| then Err(SnapshotBeyondCurrentVersion(lastSequence, |history|))
              else
                match st.snapshot
                case None => Ok(Stream(st.rows, Some(Snapshot(aggregate, lastSequence, 1))))
                case Some(stored) =>
                  if lastSequence < stored.lastSequence then Err(OptimisticLock)
                  else Ok(Stream(st.rows, Some(Snapshot(aggregate, lastSequence, stored.version + 1))))
  {
    VersionIsHistoryLength(def, st, history);
  }

  lemma ReaderSurvives<S, E, C, X>(def: EventSourced<S, E, C, X>, reader: Reader<S, E, X>, history: seq<E>, more: seq<E>)
    requires ReaderInv(def, reader, history)
    ensures ReaderInv(def, reader, history + more)
  {
    assert (history + more)[..reader.version] == history[..reader.version];
  }

  lemma CompactKeepsStream<S, E, C, X>(def: EventSourced<S, E, C, X>, st: Stream<S, E, X>, history: seq<E>)
    requires StreamInv(def, st, history)
    ensures StreamInv(def, Compacted(st), history)
    ensures Loaded(def, Compacted(st)) == Loaded(def, st)
    ensures StreamVersion(Compacted(st)) == StreamVersion(st)
  {
    AfterSurviving(st.rows, history, SnapshotFloor(st));
    LoadedIsFullReplay(def, st, history);
    LoadedIsFullReplay(def, Compacted(st), history);
  }

  lemma {:induction false} NextKeepsInv<S, E, C, X>(def: EventSourced<S, E, C, X>, s: Store<S, E, X>, a: Action<S, E>)
    requires Inv(def, s)
    ensures Inv(def, Next(def, s, a))
  {
    match a
    case Read =>
      LoadedIsFullReplay(def, s.st, s.history);
      assert s.history[..|s.history|] == s.history;
    case Commit(r, events, snapshotVersion) =>
      if r < |s.readers| && Committed(s.st, RequestOf(def, s.readers[r], events, snapshotVersion)).Ok? {
        CommitKeepsStream(def, s.st, s.history, s.readers[r], events, snapshotVersion);
        forall i | 0 <= i < |s.readers| ensures ReaderInv(def, s.readers[i], s.history + Events(events)) {
          ReaderSurvives(def, s.readers[i], s.history, Events(events));
        }
      }
    case StoreSnapshot(r) =>
    case Compact => CompactKeepsStream(def, s.st, s.history);
  }

  lemma {:induction false} RunKeepsInv<S, E, C, X>(def: EventSourced<S, E, C, X>, actions: seq<Action<S, E>>)
    ensures Inv(def, Run(def, actions))
  {
    if actions != [] {
      RunKeepsInv(def, actions[..|actions| - 1]);
      NextKeepsInv(def, Run(def, actions[..|actions| - 1]), actions[|actions| - 1]);
    }
  }

  // ---------------------------------------------------------------- theorems

  /**
   Over every run of expected-version commits, snapshot stores and compactions: the
   stream version counts every event ever committed, and loading what survives gives the
   fold of the full history.
   */
  lemma {:induction false} DerivedStateAgreesWithHistory<S, E, C, X>(def: EventSourced<S, E, C, X>, actions: seq<Action<S, E>>)
    ensures var s := Run(def, actions);
            && StreamVersion(s.st) == |s.history|
            && Loaded(def, s.st) == Replay(def, s.history)
  {
    RunKeepsInv(def, actions);
    var s := Run(def, actions);
    VersionIsHistoryLength(def, s.st, s.history);
    LoadedIsFullReplay(def, s.st, s.history);
  }

  /** No step shortens or rewrites the history, and so none lowers the version. */
  lemma {:induction false} HistoryOnlyGrows<S, E, C, X>(def: EventSourced<S, E, C, X>, actions: seq<Action<S, E>>, upTo: nat)
    requires upTo <= |actions|
    ensures Run(def, actions[..upTo]).history <= Run(def, actions).history
    ensures StreamVersion(Run(def, actions[..upTo]).st) <= StreamVersion(Run(def, actions).st)
  {
    DerivedStateAgreesWithHistory(def, actions);
    DerivedStateAgreesWithHistory(def, actions[..upTo]);
    if upTo == |actions| {
      assert actions[..upTo] == actions;
    } else {
      var before := actions[..|actions| - 1];
      assert before[..upTo] == actions[..upTo];
      HistoryOnlyGrows(def, before, upTo);
    }
  }

  /**
   A writer is served exactly when nothing was committed since it read: any older reader
   gets `OptimisticLock` whatever was compacted in between, and nothing is written.
   */
  lemma {:induction false} StaleWriterIsAlwaysRefused<S, E, C, X>(
    def: EventSourced<S, E, C, X>, actions: seq<Action<S, E>>, r: nat, events: seq<Stored<E>>, snapshotVersion: Option<nat>)
    requires r < |Run(def, actions).readers|
    ensures var s := Run(def, actions);
            var reader := s.readers[r];
            var done := Committed(s.st, RequestOf(def, reader, events, snapshotVersion));
            && reader.version <= |s.history|
            && (done.Ok? <==>
                  && reader.version == |s.history| && EventsFollow(events, reader.version)
                  && (snapshotVersion.Some? ==> events != []))
            && (reader.version < |s.history| ==>
                  && done == Err(OptimisticLock)
                  && Next(def, s, Commit(r, events, snapshotVersion)) == s)
  {
    RunKeepsInv(def, actions);
    var s := Run(def, actions);
    assert ReaderInv(def, s.readers[r], s.history);
    ExpectedVersionIsExact(def, s.st, s.history, RequestOf(def, s.readers[r], events, snapshotVersion));
  }

  /**
   A read is of the whole history; and a reader nobody overtook commits any consecutive
   events, with the snapshot it asks for.
   */
  lemma {:induction false} CurrentReadersAreServed<S, E, C, X>(
    def: EventSourced<S, E, C, X>, actions: seq<Action<S, E>>, r: nat, events: seq<Stored<E>>, snapshotVersion: Option<nat>)
    ensures var s := Run(def, actions);
            Next(def, s, Read) == s.(readers := s.readers + [Reader(|s.history|, Replay(def, s.history))])
    ensures var s := Run(def, actions);
            var t := Next(def, s, Commit(r, events, snapshotVersion));
            r < |s.readers| && s.readers[r].version == |s.history| && events != [] && EventsFollow(events, |s.history|) ==>
              && t.history == s.history + Events(events) && t.st.rows == s.st.rows + events
              && t.st.snapshot == match snapshotVersion
                                  case None => s.st.snapshot
                                  case Some(v) => Some(Snapshot(Replay(def, t.history), |t.history|, v))
  {
    RunKeepsInv(def, actions);
    var s := Run(def, actions);
    ReadIsWhole(def, s.st, s.history);
    if r < |s.readers| && s.readers[r].version == |s.history| && events != [] && EventsFollow(events, |s.history|) {
      ServesReader(def, s, r, events, snapshotVersion);
    }
  }

  lemma {:induction false} ServesReader<S, E, C, X>(
    def: EventSourced<S, E, C, X>, s: Store<S, E, X>, r: nat, events: seq<Stored<E>>, snapshotVersion: Option<nat>)
    requires StreamInv(def, s.st, s.history) && r < |s.readers| && ReaderInv(def, s.readers[r], s.history)
    requires s.readers[r].version == |s.history| && events != [] && EventsFollow(events, |s.history|)
    ensures var t := Next(def, s, Commit(r, events, snapshotVersion));
            && t.history == s.history + Events(events) && t.st.rows == s.st.rows + events
            && t.st.snapshot == match snapshotVersion
                                case None => s.st.snapshot
                                case Some(v) => Some(Snapshot(Replay(def, t.history), |t.history|, v))
  {
    CurrentReaderCommits(def, s.st, s.history, s.readers[r], events, snapshotVersion);
  }

  lemma ReadIsWhole<S, E, C, X>(def: EventSourced<S, E, C, X>, st: Stream<S, E, X>, history: seq<E>)
    requires StreamInv(def, st, history)
    ensures StreamVersion(st) == |history| && Loaded(def, st) == Replay(def, history)
  {
    VersionIsHistoryLength(def, st, history);
    LoadedIsFullReplay(def, st, history);
  }

  /** A snapshot that reaches no less than the stored one is stored, and compaction leaves no row the snapshot covers. */
  lemma {:induction false} SnapshotsAndCompactionTakeEffect<S, E, C, X>(def: EventSourced<S, E, C, X>, actions: seq<Action<S, E>>, r: nat)
    ensures var s := Run(def, actions);
            var t := Next(def, s, StoreSnapshot(r));
            r < |s.readers| && s.history != [] && SnapshotFloor(s.st) <= s.readers[r].version ==>
              && t.history == s.history && t.st.rows == s.st.rows && t.st.snapshot.Some?
              && t.st.snapshot.value.lastSequence == s.readers[r].version
    ensures var s := Run(def, actions);
            var t := Next(def, s, Compact);
            && t.history == s.history && t.st.snapshot == s.st.snapshot
            && forall k :: 0 <= k < |t.st.rows| ==> t.st.rows[k].sequence > SnapshotFloor(s.st)
  {
    RunKeepsInv(def, actions);
    var s := Run(def, actions);
    CompactedRows(s.st.rows, s.history, SnapshotFloor(s.st));
    if r < |s.readers| {
      assert ReaderInv(def, s.readers[r], s.history);
      SnapshotStoredExactly(def, s.st, s.history, s.readers[r].aggregate, s.readers[r].version);
    }
  }

  lemma CompactedRows<E>(rows: seq<Stored<E>>, history: seq<E>, floor: nat)
    requires Surviving(rows, history) && |history| - |rows| <= floor <= |history|
    ensures forall k :: 0 <= k < |After(rows, floor)| ==> After(rows, floor)[k].sequence > floor
  {
    AfterSurviving(rows, history, floor);
  }

  lemma {:induction false} CurrentReaderCommits<S, E, C, X>(
    def: EventSourced<S, E, C, X>, st: Stream<S, E, X>, history: seq<E>, reader: Reader<S, E, X>, events: seq<Stored<E>>, snapshotVersion: Option<nat>)
    requires StreamInv(def, st, history) && ReaderInv(def, reader, history) && reader.version == |history|
    requires events != [] && EventsFollow(events, |history|)
    ensures Committed(st, RequestOf(def, reader, events, snapshotVersion)) ==
              Ok(Stream(st.rows + events,
                        match snapshotVersion
                        case None => st.snapshot
                        case Some(v) => Some(Snapshot(Replay(def, history + Events(events)), |history| + |events|, v))))
  {
    var request := RequestOf(def, reader, events, snapshotVersion);
    ExpectedVersionIsExact(def, st, history, request);
    FoldConcat(def, Uninitialized, history, Events(events));
    assert history[..|history|] == history;
  }
}
