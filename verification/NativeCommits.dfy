/**
 Commits that state no expected version and rely on the unique key alone, as the event
 repository's `persist` sends them, with or without a snapshot, on streams that may be
 compacted underneath their writers.
 */
module NativeCommits {
  import opened Prelude
  import opened EventTable
  import opened Lifecycles
  import opened EventStore

  type SnapshotUpdate<S, E, X> = Option<(Lifecycle<S, E, X>, nat)>

  // ------------------------------------------------- what a snapshot has folded

  /** An entity's `SNAPSHOT_SIZE`: a snapshot is due at every multiple of it. */
  type SnapshotSize = n: nat | 1 <= n witness 1

  /**
   How many of `count` new events after `version` their commit's snapshot folds. Zero means
   that no snapshot is due. The repository records the last event as covered either way.
   */
  function Covered(size: SnapshotSize, version: nat, count: nat): (covered: nat)
    ensures covered <= count
  {
    var past := (version + count) % size;
    if past < count then count - past else 0
  }

  predicate Due(size: SnapshotSize, version: nat) {
    version % size == 0
  }

  /** The folded events end at the last sequence of the commit where a snapshot is due, if there is one. */
  lemma CoveredUpToTheLastDue(size: SnapshotSize, version: nat, count: nat)
    ensures var covered := Covered(size, version, count);
            && (covered > 0 ==> Due(size, version + covered))
            && forall n :: version + covered < n <= version + count ==> !Due(size, n)
  {
    var covered := Covered(size, version, count);
    var last := version + count;
    RoundedDown(last, size);
    forall n | version + covered < n <= last ensures !Due(size, n) {
      NotRound(last - last % size, size, n);
    }
  }

  lemma RoundedDown(x: nat, size: SnapshotSize)
    ensures x % size <= x && (x - x % size) % size == 0
  {
    Remainder(x - x % size, size, x / size, 0);
  }

  lemma NotRound(round: nat, size: SnapshotSize, x: nat)
    requires round % size == 0 && round < x < round + size
    ensures x % size != 0
  {
    Remainder(x, size, round / size, x - round);
  }

  lemma Remainder(x: nat, size: SnapshotSize, q: nat, r: nat)
    requires x == q * size + r && r < size
    ensures x % size == r
  {
    var q', r' := x / size, x % size;
    assert x == q' * size + r';
    assert (q - q') * size == r' - r;
    if q != q' {
      BigMultiple(q - q', size);
    }
  }

  lemma BigMultiple(k: int, size: SnapshotSize)
    requires k != 0
    ensures k * size >= size || k * size + size <= 0
  {
  }

  /** A snapshot is taken, but some events of its commit come after what it folded. */
  predicate CutShort(size: SnapshotSize, version: nat, count: nat) {
    0 < Covered(size, version, count) < count
  }

  /** Snapshots at every event, and commits of one event, are never cut short. */
  lemma SmallCommitsAreWhole(size: SnapshotSize, version: nat, count: nat)
    requires size == 1 || count <= 1
    ensures !CutShort(size, version, count)
  {
  }

  /** The snapshot a commit carries: the loaded aggregate after the events it folds. */
  function SnapshotTaken<S, E, C, X>(
    def: EventSourced<S, E, C, X>, size: SnapshotSize, version: nat, aggregate: Lifecycle<S, E, X>, events: seq<E>, snapshotVersion: nat)
    : SnapshotUpdate<S, E, X>
  {
    var covered := Covered(size, version, |events|);
    if covered == 0 then None else Some((Fold(def, aggregate, events[..covered]), snapshotVersion))
  }

  // ------------------------------------------------------ inserting elsewhere

  /** Rows with increasing sequences, all below the surviving ones, go in front of them. */
  lemma {:induction false} InsertBelow<E>(low: seq<Stored<E>>, rows: seq<Stored<E>>, floor: nat, batch: seq<Stored<E>>)
    requires forall i :: 0 <= i < |rows| ==> rows[i].sequence > floor
    requires Ordered(low + batch) && forall i :: 0 <= i < |low + batch| ==> (low + batch)[i].sequence <= floor
    ensures InsertAll(low + rows, batch) == Some(low + batch + rows)
    decreases |batch|
  {
    if batch == [] {
      assert low + batch + rows == low + rows;
    } else {
      var first := batch[0];
      assert (low + batch)[|low|] == first;
      forall i | 0 <= i < |low| ensures low[i].sequence < first.sequence {
        assert (low + batch)[i] == low[i];
      }
      PlaceBefore(low, rows, first);
      assert low + [first] + batch[1..] == low + batch;
      InsertBelow(low + [first], rows, floor, batch[1..]);
    }
  }

  lemma {:induction false} PlaceBefore<E>(low: seq<Stored<E>>, rows: seq<Stored<E>>, row: Stored<E>)
    requires forall i :: 0 <= i < |low| ==> low[i].sequence < row.sequence
    requires forall i :: 0 <= i < |rows| ==> row.sequence < rows[i].sequence
    ensures Insert(low + rows, row) == Some(low + [row] + rows)
    decreases |rows|
  {
    if rows == [] {
      assert low + rows == low && low + [row] + rows == low + [row];
    } else {
      var last := |rows| - 1;
      assert (low + rows)[..|low + rows| - 1] == low + rows[..last];
      PlaceBefore(low, rows[..last], row);
      assert low + [row] + rows[..last] + [rows[last]] == low + [row] + rows;
    }
  }

  /** One taken sequence refuses the whole batch. */
  lemma {:induction false} TakenSequenceRefuses<E>(rows: seq<Stored<E>>, batch: seq<Stored<E>>, k: nat, at: nat)
    requires k < |batch| && at < |rows| && rows[at].sequence == batch[k].sequence
    ensures InsertAll(rows, batch).None?
    decreases |batch|
  {
    if k > 0 && Insert(rows, batch[0]).Some? {
      var placed := Place(rows, batch[0]);
      PlaceAddsTheRow(rows, batch[0]);
      assert rows[at] in multiset(rows);
      assert rows[at] in multiset(placed);
      var there :| 0 <= there < |placed| && placed[there] == rows[at];
      TakenSequenceRefuses(placed, batch[1..], k - 1, there);
    }
  }

  /** What survives above a floor is no longer than the distance to the last sequence. */
  lemma {:induction false} TailFits<E>(rows: seq<Stored<E>>, floor: nat)
    requires StreamRows(rows)
    ensures |After(rows, floor)| <= if LastSequence(rows) > floor then LastSequence(rows) - floor else 0
    ensures StreamRows(After(rows, floor)) && (After(rows, floor) != [] ==> LastSequence(After(rows, floor)) == LastSequence(rows))
    ensures forall i :: 0 <= i < |After(rows, floor)| ==> After(rows, floor)[i].sequence > floor
  {
    TailIsOrdered(rows, floor);
    if After(rows, floor) != [] {
      OrderedLength(After(rows, floor), floor);
    }
  }

  lemma {:induction false} TailIsOrdered<E>(rows: seq<Stored<E>>, floor: nat)
    requires StreamRows(rows)
    ensures StreamRows(After(rows, floor)) && (After(rows, floor) != [] ==> LastSequence(After(rows, floor)) == LastSequence(rows))
    ensures forall i :: 0 <= i < |After(rows, floor)| ==> After(rows, floor)[i].sequence > floor
    decreases |rows|
  {
    if rows != [] {
      if rows[0].sequence > floor {
        AllAfter(rows, floor);
      } else {
        assert |rows| > 1 ==> LastSequence(rows[1..]) == LastSequence(rows);
        TailIsOrdered(rows[1..], floor);
      }
    }
  }

  lemma {:induction false} LastSurvives<E>(rows: seq<Stored<E>>, floor: nat)
    requires rows != [] && LastSequence(rows) > floor
    ensures After(rows, floor) != []
  {
    if rows[0].sequence <= floor {
      assert LastSequence(rows[1..]) == LastSequence(rows);
      LastSurvives(rows[1..], floor);
    }
  }

  lemma {:induction false} AfterTwice<E>(rows: seq<Stored<E>>, floor: nat)
    ensures After(After(rows, floor), floor) == After(rows, floor)
  {
    if rows != [] {
      AfterTwice(rows[1..], floor);
    }
  }

  /** Compaction changes neither what a stream loads nor its version, whatever its snapshot holds. */
  lemma CompactionIsInvisible<S, E, C, X>(def: EventSourced<S, E, C, X>, st: Stream<S, E, X>)
    requires StreamRows(st.rows)
    ensures Loaded(def, Compacted(st)) == Loaded(def, st) && StreamVersion(Compacted(st)) == StreamVersion(st)
    ensures forall i :: 0 <= i < |Compacted(st).rows| ==> Compacted(st).rows[i].sequence > SnapshotFloor(st)
  {
    var floor := SnapshotFloor(st);
    AfterTwice(st.rows, floor);
    TailFits(st.rows, floor);
    if st.snapshot.None? {
      AllAfter(st.rows, 0);
    }
    if st.rows != [] && LastSequence(st.rows) > floor {
      LastSurvives(st.rows, floor);
    }
  }

  // ------------------------------------------------------------ stale writers

  lemma {:induction false} DeletedSequencesAreFree<E>(rows: seq<Stored<E>>, history: seq<E>, version: nat, events: seq<Stored<E>>)
    requires Surviving(rows, history) && EventsFollow(events, version)
    requires rows == [] || version + |events| <= |history| - |rows|
    ensures InsertAll(rows, events) == Some(events + rows)
  {
    assert [] + events == events && [] + rows == rows;
    InsertBelow([], rows, version + |events|, events);
  }

  lemma {:induction false} SurvivingSequenceRefuses<E>(rows: seq<Stored<E>>, history: seq<E>, version: nat, events: seq<Stored<E>>)
    requires Surviving(rows, history) && EventsFollow(events, version)
    requires rows != [] && events != [] && version < |history| < version + |events| + |rows|
    ensures InsertAll(rows, events).None?
  {
    var floor := |history| - |rows|;
    var taken := if version >= floor then 0 else floor - version;
    assert events[taken].sequence == version + taken + 1;
    assert rows[version + taken - floor].sequence == events[taken].sequence;
    TakenSequenceRefuses(rows, events, taken, version + taken - floor);
  }

  /**
   From a writer that is behind, with or without a snapshot, consecutive events are
   accepted exactly when compaction has deleted every sequence they need: all rows, or all
   rows up to their last. They then go in front of the rows that survive.
   */
  lemma {:induction false} StaleCommitAcceptedExactly<S, E, X>(
    st: Stream<S, E, X>, history: seq<E>, version: nat, events: seq<Stored<E>>, snapshot: SnapshotUpdate<S, E, X>)
    requires Surviving(st.rows, history) && version < |history| && events != [] && EventsFollow(events, version)
    ensures var done := Committed(st, CommitRequest(None, events, snapshot));
            && (done.Ok? <==> st.rows == [] || version + |events| <= |history| - |st.rows|)
            && (done.Ok? ==>
                  done.value == Stream(events + st.rows,
                                       if snapshot.None? then st.snapshot
                                       else Some(Snapshot(snapshot.value.0, version + |events|, snapshot.value.1))))
  {
    if st.rows == [] || version + |events| <= |history| - |st.rows| {
      DeletedSequencesAreFree(st.rows, history, version, events);
    } else {
      SurvivingSequenceRefuses(st.rows, history, version, events);
    }
  }

  /**
   Without a snapshot such a commit loses its own events: every one at a sequence the
   history had already reached is never loaded.
   */
  lemma {:induction false} StaleCommitLosesItsOwnEvents<S, E, C, X>(
    def: EventSourced<S, E, C, X>, st: Stream<S, E, X>, history: seq<E>, version: nat, events: seq<Stored<E>>)
    requires StreamInv(def, st, history) && version < |history| && events != [] && EventsFollow(events, version)
    requires Committed(st, CommitRequest(None, events, None)).Ok?
    ensures var after := Committed(st, CommitRequest(None, events, None)).value;
            && Loaded(def, after) == Fold(def, Replay(def, history), Events(After(events, |history|)))
            && StreamVersion(after) == if st.rows == [] && version + |events| > |history| then version + |events| else |history|
  {
    StaleCommitAcceptedExactly(st, history, version, events, None);
    if st.rows == [] {
      assert events + st.rows == events && history[..|history|] == history;
    } else {
      LoadedIsFullReplay(def, st, history);
      SkipLow(events, st.rows, SnapshotFloor(st));
      SkipLow(events, [], |history|);
      assert events + [] == events;
    }
  }

  /**
   With the snapshot it computed, such a commit loses other writers' events instead:
   everything committed since it read, up to where rows survive, is gone from the load, and
   the stream's version falls back to its own when none survive. Of its own events, those
   the snapshot did not fold are gone too.
   */
  lemma {:induction false} StaleSnapshotLosesOthersEvents<S, E, C, X>(
    def: EventSourced<S, E, C, X>, st: Stream<S, E, X>, history: seq<E>, version: nat, events: seq<Stored<E>>, covered: nat, snapshotVersion: nat)
    requires StreamInv(def, st, history) && version < |history| && covered <= |events| != 0 && EventsFollow(events, version)
    requires var taken := Fold(def, Replay(def, history[..version]), Events(events)[..covered]);
             Committed(st, CommitRequest(None, events, Some((taken, snapshotVersion)))).Ok?
    ensures var taken := Fold(def, Replay(def, history[..version]), Events(events)[..covered]);
            var after := Committed(st, CommitRequest(None, events, Some((taken, snapshotVersion)))).value;
            && Loaded(def, after) == Replay(def, history[..version] + Events(events)[..covered] + Events(st.rows))
            && StreamVersion(after) == if st.rows == [] then version + |events| else |history|
  {
    var taken := Fold(def, Replay(def, history[..version]), Events(events)[..covered]);
    StaleCommitAcceptedExactly(st, history, version, events, Some((taken, snapshotVersion)));
    OnlySurvivorsFollow(st.rows, history, version, events);
    FoldThree(def, history[..version], Events(events)[..covered], Events(st.rows));
  }

  lemma {:induction false} OnlySurvivorsFollow<E>(rows: seq<Stored<E>>, history: seq<E>, version: nat, events: seq<Stored<E>>)
    requires Surviving(rows, history) && version < |history| && events != [] && EventsFollow(events, version)
    requires rows == [] || version + |events| <= |history| - |rows|
    ensures After(events + rows, version + |events|) == rows
    ensures LastSequence(events + rows) == if rows == [] then version + |events| else |history|
  {
    SkipLow(events, rows, version + |events|);
    AllAfter(rows, version + |events|);
  }

  lemma FoldThree<S, E, C, X>(def: EventSourced<S, E, C, X>, first: seq<E>, second: seq<E>, third: seq<E>)
    ensures Replay(def, first + second + third) == Fold(def, Fold(def, Replay(def, first), second), third)
  {
    FoldConcat(def, Uninitialized, first, second);
    FoldConcat(def, Uninitialized, first + second, third);
  }

  /** The smallest lost write: two events snapshotted and compacted, then a writer that read before the second. */
  lemma LostWriteExample<S, E, C, X>(def: EventSourced<S, E, C, X>, first: E, second: E, lost: E)
    ensures var st := Stream([], Some(Snapshot(Replay(def, [first, second]), 2, 1)));
            var after := Committed(st, CommitRequest(None, [Stored(2, lost)], None));
            && after.Ok? && after.value.rows == [Stored(2, lost)]
            && Loaded(def, after.value) == Replay(def, [first, second])
  {
    var history := [first, second];
    var st := Stream([], Some(Snapshot(Replay(def, history), 2, 1)));
    assert history[..2] == history;
    assert StreamInv(def, st, history);
    var events := [Stored(2, lost)];
    StaleCommitAcceptedExactly(st, history, 1, events, None);
    StaleCommitLosesItsOwnEvents(def, st, history, 1, events);
    SkipLow(events, [], 2);
    assert events + [] == events && events + st.rows == events;
  }

  /** The smallest lost history: three events under a compacting snapshot, and a stale writer that brings its own. */
  lemma LostHistoryExample<S, E, C, X>(def: EventSourced<S, E, C, X>, first: E, second: E, third: E, other: E)
    ensures var st := Stream([], Some(Snapshot(Replay(def, [first, second, third]), 3, 1)));
            var taken := Fold(def, Replay(def, [first]), [other]);
            var after := Committed(st, CommitRequest(None, [Stored(2, other)], Some((taken, 2))));
            && after.Ok? && StreamVersion(st) == 3 && StreamVersion(after.value) == 2
            && Loaded(def, after.value) == Replay(def, [first, other])
  {
    var history := [first, second, third];
    var st := Stream([], Some(Snapshot(Replay(def, history), 3, 1)));
    assert history[..3] == history && history[..1] == [first];
    assert StreamInv(def, st, history);
    var events := [Stored(2, other)];
    assert Events(events) == [other];
    var taken := Fold(def, Replay(def, [first]), [other]);
    StaleCommitAcceptedExactly(st, history, 1, events, Some((taken, 2)));
    assert Events(events)[..1] == [other];
    StaleSnapshotLosesOthersEvents(def, st, history, 1, events, 1, 2);
    assert [first] + [other] + Events(st.rows) == [first, other];
  }

  // ------------------------------------------------- snapshots cut short

  /**
   No race is needed to lose events. A commit at the current version is accepted and moves
   the version past all its events, but later loads see only those its snapshot folded:
   the whole history when that is all of them, and, for an entity whose state tells event
   lists apart, only then.
   */
  lemma {:induction false} CommitLoadsWhatItFolded<S, E(!new), C, X>(
    def: EventSourced<S, E, C, X>, st: Stream<S, E, X>, history: seq<E>, events: seq<E>, covered: nat, snapshotVersion: nat)
    requires StreamInv(def, st, history) && covered <= |events| != 0
    ensures var taken := Fold(def, Replay(def, history), events[..covered]);
            var done := Committed(st, CommitRequest(None, Wrapped(events, |history|), Some((taken, snapshotVersion))));
            && done.Ok? && StreamVersion(done.value) == |history| + |events|
            && Loaded(def, done.value) == Replay(def, history + events[..covered])
            && (covered == |events| ==> Loaded(def, done.value) == Replay(def, history + events))
            && (Separates(def) && Loaded(def, done.value) == Replay(def, history + events) ==> covered == |events|)
  {
    var taken := Fold(def, Replay(def, history), events[..covered]);
    NextBatchIsCovered(st, history, events, (taken, snapshotVersion));
    FoldConcat(def, Uninitialized, history, events[..covered]);
    assert covered == |events| ==> events[..covered] == events;
    assert |history + events[..covered]| == |history| + covered && |history + events| == |history| + |events|;
  }

  /** A snapshot recorded at a commit's last event leaves no row for a load to add. */
  lemma {:induction false} NextBatchIsCovered<S, E, X>(
    st: Stream<S, E, X>, history: seq<E>, events: seq<E>, snapshot: (Lifecycle<S, E, X>, nat))
    requires Surviving(st.rows, history) && events != []
    ensures var done := Committed(st, CommitRequest(None, Wrapped(events, |history|), Some(snapshot)));
            && done.Ok? && done.value.snapshot == Some(Snapshot(snapshot.0, |history| + |events|, snapshot.1))
            && After(done.value.rows, |history| + |events|) == []
            && StreamVersion(done.value) == |history| + |events|
  {
    var batch := Wrapped(events, |history|);
    InsertNext(st.rows, history, batch);
    var rows := st.rows + batch;
    SkipLow(rows, [], |history| + |events|);
    assert rows + [] == rows;
  }

  /** At the current version, a commit that is not cut short agrees with the history it extends. */
  lemma {:induction false} WholeCommitKeepsStream<S, E, C, X>(
    def: EventSourced<S, E, C, X>, size: SnapshotSize, st: Stream<S, E, X>, history: seq<E>, events: seq<E>, snapshotVersion: nat)
    requires StreamInv(def, st, history) && !CutShort(size, |history|, |events|)
    ensures var snapshot := SnapshotTaken(def, size, |history|, Replay(def, history), events, snapshotVersion);
            var done := Committed(st, CommitRequest(None, Wrapped(events, |history|), snapshot));
            && done.Ok? && StreamInv(def, done.value, history + events)
            && done.value.snapshot ==
                 if Covered(size, |history|, |events|) == 0 then st.snapshot
                 else Some(Snapshot(Replay(def, history + events), |history| + |events|, snapshotVersion))
  {
    var taken := if Covered(size, |history|, |events|) == 0 then None else Some(snapshotVersion);
    var reader := Reader(|history|, Replay(def, history));
    assert events[..|events|] == events && history[..|history|] == history;
    VersionIsHistoryLength(def, st, history);
    ExpectedVersionIsExact(def, st, history, RequestOf(def, reader, Wrapped(events, |history|), taken));
    CommitKeepsStream(def, st, history, reader, Wrapped(events, |history|), taken);
    FoldConcat(def, Uninitialized, history, events);
  }

  /** The smallest such loss: a snapshot every two events, and a first commit of three. */
  lemma CutShortExample<S, E(!new), C, X>(def: EventSourced<S, E, C, X>, first: E, second: E, third: E)
    ensures var events := [first, second, third];
            var snapshot := SnapshotTaken(def, 2, 0, Uninitialized, events, 1);
            var done := Committed(Stream([], None), CommitRequest(None, Wrapped(events, 0), snapshot));
            && done.Ok? && StreamVersion(done.value) == 3
            && Loaded(def, done.value) == Replay(def, [first, second])
  {
    var events := [first, second, third];
    assert Covered(2, 0, 3) == 2 && events[..2] == [first, second];
    var none: seq<E> := [];
    var st: Stream<S, E, X> := Stream([], None);
    assert none[..0] == none && StreamInv(def, st, none) && Replay(def, none) == Uninitialized;
    CommitLoadsWhatItFolded(def, st, none, events, 2, 1);
    assert none + [first, second] == [first, second];
  }
}

/**
 Every run of native commits, with snapshots and compaction: exactly when the stream still
 agrees with what was committed to it.
 */
module NativeRuns {
  import opened Prelude
  import opened EventTable
  import opened Lifecycles
  import opened EventStore
  import opened NativeCommits

  /** `seen` is the history variable of what the reader's aggregate was folded from. */
  datatype Writer<+S, +E, +X> = Writer(version: nat, aggregate: Lifecycle<S, E, X>, seen: seq<E>)

  /** `history` is every event whose commit was accepted, in order; `folded` what the snapshot was folded from. */
  datatype Native<+S, +E, +X> = Native(st: Stream<S, E, X>, folded: seq<E>, history: seq<E>, writers: seq<Writer<S, E, X>>)

  /**
   A commit carries its own snapshot size: releases may change it, and one beyond the
   commit's last sequence is a commit that takes no snapshot.
   */
  datatype Step<+E> =
    | NativeRead
    | NativeCommit(writer: nat, events: seq<E>, size: SnapshotSize, snapshotVersion: nat)
    | NativeSnapshot(writer: nat)
    | NativeCompact

  /** The events a load of the stream is folded from. */
  function Held<S, E, X>(s: Native<S, E, X>): seq<E> {
    s.folded + Events(After(s.st.rows, SnapshotFloor(s.st)))
  }

  function NativeRequest<S, E, C, X>(def: EventSourced<S, E, C, X>, size: SnapshotSize, w: Writer<S, E, X>, events: seq<E>, snapshotVersion: nat)
    : CommitRequest<S, E, X>
  {
    CommitRequest(None, Wrapped(events, w.version), SnapshotTaken(def, size, w.version, w.aggregate, events, snapshotVersion))
  }

  /** What the snapshot is folded from once that commit is in. */
  function FoldedBy<S, E, X>(size: SnapshotSize, w: Writer<S, E, X>, events: seq<E>, before: seq<E>): seq<E> {
    var covered := Covered(size, w.version, |events|);
    if covered == 0 then before else w.seen + events[..covered]
  }

  function Next<S, E, C, X>(def: EventSourced<S, E, C, X>, s: Native<S, E, X>, a: Step<E>): Native<S, E, X> {
    match a
    case NativeRead => s.(writers := s.writers + [Writer(StreamVersion(s.st), Loaded(def, s.st), Held(s))])
    case NativeCommit(i, events, size, snapshotVersion) =>
      if i >= |s.writers| then s
      else
        var w := s.writers[i];
        var done := Committed(s.st, NativeRequest(def, size, w, events, snapshotVersion));
        if done.Err? then s
        else s.(st := done.value, history := s.history + events, folded := FoldedBy(size, w, events, s.folded))
    case NativeSnapshot(i) =>
      if i >= |s.writers| then s
      else
        var w := s.writers[i];
        var done := SnapshotStored(s.st, w.aggregate, w.version);
        if done.Err? then s else s.(st := done.value, folded := w.seen)
    case NativeCompact => s.(st := Compacted(s.st))
  }

  function Run<S, E, C, X>(def: EventSourced<S, E, C, X>, steps: seq<Step<E>>): Native<S, E, X> {
    if steps == [] then Native(Stream([], None), [], [], [])
    else Next(def, Run(def, steps[..|steps| - 1]), steps[|steps| - 1])
  }

  /** A commit that is accepted although its writer does not hold the current version. */
  predicate Overtakes<S, E, C, X>(def: EventSourced<S, E, C, X>, s: Native<S, E, X>, a: Step<E>) {
    && a.NativeCommit? && a.writer < |s.writers| && a.events != []
    && s.writers[a.writer].version != StreamVersion(s.st)
    && Committed(s.st, NativeRequest(def, a.size, s.writers[a.writer], a.events, a.snapshotVersion)).Ok?
  }

  /** Every accepted commit of the run came from a writer at the current version. */
  predicate NeverOvertaken<S, E, C, X>(def: EventSourced<S, E, C, X>, steps: seq<Step<E>>) {
    steps != [] ==>
      && NeverOvertaken(def, steps[..|steps| - 1])
      && !Overtakes(def, Run(def, steps[..|steps| - 1]), steps[|steps| - 1])
  }

  // ----------------------------------------------- invariant of arbitrary runs

  ghost predicate SnapshotInv<S, E, C, X>(def: EventSourced<S, E, C, X>, snapshot: Option<Snapshot<S, E, X>>, folded: seq<E>) {
    if snapshot.None? then folded == []
    else snapshot.value.aggregate == Replay(def, folded) && |folded| <= snapshot.value.lastSequence
  }

  ghost predicate WriterInv<S, E, C, X>(def: EventSourced<S, E, C, X>, s: Native<S, E, X>, w: Writer<S, E, X>) {
    && w.aggregate == Replay(def, w.seen) && |w.seen| <= w.version <= |s.history|
    && (w.version == |s.history| ==> StreamVersion(s.st) == |s.history|)
  }

  ghost predicate Inv<S, E, C, X>(def: EventSourced<S, E, C, X>, s: Native<S, E, X>) {
    && StreamRows(s.st.rows) && SnapshotInv(def, s.st.snapshot, s.folded)
    && StreamVersion(s.st) <= |s.history|
    && forall i :: 0 <= i < |s.writers| ==> WriterInv(def, s, s.writers[i])
  }

  /** Inserting rows above zero keeps the order and moves the last sequence to the greater of the two. */
  lemma {:induction false} InsertAllKeepsRows<E>(rows: seq<Stored<E>>, batch: seq<Stored<E>>)
    requires StreamRows(rows) && StreamRows(batch) && InsertAll(rows, batch).Some?
    ensures StreamRows(InsertAll(rows, batch).value)
    ensures LastSequence(InsertAll(rows, batch).value) ==
              if LastSequence(batch) > LastSequence(rows) then LastSequence(batch) else LastSequence(rows)
    decreases |batch|
  {
    if batch != [] {
      PlaceKeepsRows(rows, batch[0]);
      assert LastSequence(batch) >= batch[0].sequence;
      assert |batch| > 1 ==> LastSequence(batch[1..]) == LastSequence(batch);
      InsertAllKeepsRows(Place(rows, batch[0]), batch[1..]);
    }
  }

  lemma {:induction false} PlaceKeepsRows<E>(rows: seq<Stored<E>>, row: Stored<E>)
    requires StreamRows(rows) && !Holds(rows, row.sequence) && row.sequence >= 1
    ensures StreamRows(Place(rows, row))
    ensures LastSequence(Place(rows, row)) == if row.sequence > LastSequence(rows) then row.sequence else LastSequence(rows)
  {
    PlaceKeepsOrder(rows, row);
    PlaceAddsTheRow(rows, row);
    var placed := Place(rows, row);
    forall i | 0 <= i < |placed| ensures placed[i].sequence >= 1 {
      assert placed[i] in multiset(placed);
      assert placed[i] in rows || placed[i] == row;
    }
  }

  /** What a load is folded from, and that it is never longer than the version. */
  lemma HeldIsLoaded<S, E, C, X>(def: EventSourced<S, E, C, X>, s: Native<S, E, X>)
    requires StreamRows(s.st.rows) && SnapshotInv(def, s.st.snapshot, s.folded)
    ensures Loaded(def, s.st) == Replay(def, Held(s)) && |Held(s)| <= StreamVersion(s.st)
  {
    var tail := Events(After(s.st.rows, SnapshotFloor(s.st)));
    TailFits(s.st.rows, SnapshotFloor(s.st));
    FoldConcat(def, Uninitialized, s.folded, tail);
    if s.st.snapshot.None? {
      AllAfter(s.st.rows, 0);
      assert s.folded + tail == tail;
    }
  }

  lemma WrappedRows<E>(events: seq<E>, version: nat)
    ensures StreamRows(Wrapped(events, version))
    ensures events != [] ==> LastSequence(Wrapped(events, version)) == version + |events|
  {
  }

  /** Where an accepted commit leaves the version: gaining on the history by nothing, and losing ground when it overtakes. */
  lemma {:induction false} CommitMovesTheVersion<S, E, C, X>(
    def: EventSourced<S, E, C, X>, size: SnapshotSize, s: Native<S, E, X>, i: nat, events: seq<E>, snapshotVersion: nat)
    requires Inv(def, s) && i < |s.writers| && events != []
    requires Committed(s.st, NativeRequest(def, size, s.writers[i], events, snapshotVersion)).Ok?
    ensures var after := Committed(s.st, NativeRequest(def, size, s.writers[i], events, snapshotVersion)).value;
            && StreamRows(after.rows)
            && (if s.writers[i].version == StreamVersion(s.st) then StreamVersion(after) == StreamVersion(s.st) + |events|
                else StreamVersion(after) < |s.history| + |events|)
  {
    var w := s.writers[i];
    assert WriterInv(def, s, w);
    WrappedRows(events, w.version);
    InsertAllKeepsRows(s.st.rows, Wrapped(events, w.version));
  }

  lemma {:induction false} CommitKeepsInv<S, E, C, X>(
    def: EventSourced<S, E, C, X>, size: SnapshotSize, s: Native<S, E, X>, i: nat, events: seq<E>, snapshotVersion: nat)
    requires Inv(def, s)
    ensures Inv(def, Next(def, s, NativeCommit(i, events, size, snapshotVersion)))
  {
    var t := Next(def, s, NativeCommit(i, events, size, snapshotVersion));
    if i < |s.writers| && Committed(s.st, NativeRequest(def, size, s.writers[i], events, snapshotVersion)).Ok? {
      var w := s.writers[i];
      assert WriterInv(def, s, w);
      if events == [] {
        assert s.history + events == s.history;
        assert t == s;
      } else {
        CommitMovesTheVersion(def, size, s, i, events, snapshotVersion);
        FoldConcat(def, Uninitialized, w.seen, events[..Covered(size, w.version, |events|)]);
        forall k | 0 <= k < |t.writers| ensures WriterInv(def, t, t.writers[k]) {
          assert WriterInv(def, s, s.writers[k]);
        }
      }
    }
  }

  lemma {:induction false} SnapshotKeepsInv<S, E, C, X>(def: EventSourced<S, E, C, X>, s: Native<S, E, X>, i: nat)
    requires Inv(def, s)
    ensures Inv(def, Next(def, s, NativeSnapshot(i)))
    ensures StreamVersion(Next(def, s, NativeSnapshot(i)).st) == StreamVersion(s.st)
  {
    var t := Next(def, s, NativeSnapshot(i));
    if t != s {
      assert WriterInv(def, s, s.writers[i]);
      forall k | 0 <= k < |t.writers| ensures WriterInv(def, t, t.writers[k]) {
        assert WriterInv(def, s, s.writers[k]);
      }
    }
  }

  lemma {:induction false} CompactKeepsInv<S, E, C, X>(def: EventSourced<S, E, C, X>, s: Native<S, E, X>)
    requires Inv(def, s)
    ensures Inv(def, Next(def, s, NativeCompact))
    ensures StreamVersion(Next(def, s, NativeCompact).st) == StreamVersion(s.st)
  {
    var t := Next(def, s, NativeCompact);
    TailFits(s.st.rows, SnapshotFloor(s.st));
    CompactionIsInvisible(def, s.st);
    forall k | 0 <= k < |t.writers| ensures WriterInv(def, t, t.writers[k]) {
      assert WriterInv(def, s, s.writers[k]);
    }
  }

  lemma {:induction false} ReadKeepsInv<S, E, C, X>(def: EventSourced<S, E, C, X>, s: Native<S, E, X>)
    requires Inv(def, s)
    ensures Inv(def, Next(def, s, NativeRead))
  {
    var t := Next(def, s, NativeRead);
    HeldIsLoaded(def, s);
    forall k | 0 <= k < |t.writers| ensures WriterInv(def, t, t.writers[k]) {
      if k < |s.writers| {
        assert WriterInv(def, s, s.writers[k]);
      }
    }
  }

  lemma {:induction false} StepKeepsInv<S, E, C, X>(def: EventSourced<S, E, C, X>, s: Native<S, E, X>, a: Step<E>)
    requires Inv(def, s)
    ensures Inv(def, Next(def, s, a))
  {
    match a
    case NativeRead => ReadKeepsInv(def, s);
    case NativeCommit(i, events, size, snapshotVersion) => CommitKeepsInv(def, size, s, i, events, snapshotVersion);
    case NativeSnapshot(i) => SnapshotKeepsInv(def, s, i);
    case NativeCompact => CompactKeepsInv(def, s);
  }

  lemma {:induction false} RunKeepsInv<S, E, C, X>(def: EventSourced<S, E, C, X>, steps: seq<Step<E>>)
    ensures Inv(def, Run(def, steps))
  {
    if steps != [] {
      RunKeepsInv(def, steps[..|steps| - 1]);
      StepKeepsInv(def, Run(def, steps[..|steps| - 1]), steps[|steps| - 1]);
    }
  }

  /** Only an overtaking commit lets the version fall behind the history, and nothing makes it up. */
  lemma {:induction false} StepMovesTheVersion<S, E, C, X>(def: EventSourced<S, E, C, X>, s: Native<S, E, X>, a: Step<E>)
    requires Inv(def, s)
    ensures var t := Next(def, s, a);
            StreamVersion(t.st) == |t.history| <==> StreamVersion(s.st) == |s.history| && !Overtakes(def, s, a)
  {
    match a
    case NativeRead =>
    case NativeCommit(i, events, size, snapshotVersion) =>
      if i < |s.writers| && Committed(s.st, NativeRequest(def, size, s.writers[i], events, snapshotVersion)).Ok? {
        if events == [] {
          assert s.history + events == s.history;
        } else {
          CommitMovesTheVersion(def, size, s, i, events, snapshotVersion);
        }
      }
    case NativeSnapshot(i) => SnapshotKeepsInv(def, s, i);
    case NativeCompact => CompactKeepsInv(def, s);
  }

  /**
   In every run, the version counts every accepted event exactly when no accepted commit
   came from a writer that did not hold the current version.
   */
  lemma {:induction false} VersionCountsExactly<S, E, C, X>(def: EventSourced<S, E, C, X>, steps: seq<Step<E>>)
    ensures var s := Run(def, steps);
            StreamVersion(s.st) <= |s.history| && (StreamVersion(s.st) == |s.history| <==> NeverOvertaken(def, steps))
  {
    RunKeepsInv(def, steps);
    if steps != [] {
      var before := steps[..|steps| - 1];
      VersionCountsExactly(def, before);
      RunKeepsInv(def, before);
      StepMovesTheVersion(def, Run(def, before), steps[|steps| - 1]);
    }
  }

  // -------------------------------------------------- what each step achieves

  /**
   Reading takes what a load gives at the version it has; a writer at the current version is
   always accepted, and its events are then the last of the history.
   */
  lemma {:induction false} CurrentWritersAreServed<S, E, C, X>(
    def: EventSourced<S, E, C, X>, steps: seq<Step<E>>, i: nat, events: seq<E>, size: SnapshotSize, snapshotVersion: nat)
    ensures var s := Run(def, steps);
            var t := Next(def, s, NativeRead);
            && |t.writers| == |s.writers| + 1 && s.writers <= t.writers && t.st == s.st && t.history == s.history
            && t.writers[|s.writers|].version == StreamVersion(s.st) && t.writers[|s.writers|].aggregate == Loaded(def, s.st)
    ensures var s := Run(def, steps);
            var t := Next(def, s, NativeCommit(i, events, size, snapshotVersion));
            i < |s.writers| && s.writers[i].version == StreamVersion(s.st) && events != [] ==>
              t.history == s.history + events && StreamVersion(t.st) == StreamVersion(s.st) + |events|
  {
    RunKeepsInv(def, steps);
    var s := Run(def, steps);
    if i < |s.writers| && s.writers[i].version == StreamVersion(s.st) && events != [] {
      AboveTheEnd(s.st.rows, s.writers[i].version, events);
      CommitMovesTheVersion(def, size, s, i, events, snapshotVersion);
    }
  }

  lemma {:induction false} AboveTheEnd<E>(rows: seq<Stored<E>>, version: nat, events: seq<E>)
    requires StreamRows(rows) && LastSequence(rows) <= version
    ensures InsertAll(rows, Wrapped(events, version)) == Some(rows + Wrapped(events, version))
  {
    var batch := Wrapped(events, version);
    assert Ordered(rows + batch);
    assert rows + [] == rows && rows + batch + [] == rows + batch;
    InsertBelow(rows, [], version + |events|, batch);
  }

  /**
   A snapshot a writer stores replaces one that reaches no further, up to the stream's
   version; and compaction leaves no row a snapshot covers.
   */
  lemma {:induction false} SnapshotsAndCompactionTakeEffect<S, E, C, X>(def: EventSourced<S, E, C, X>, steps: seq<Step<E>>, i: nat)
    ensures var s := Run(def, steps);
            var t := Next(def, s, NativeSnapshot(i));
            i < |s.writers| && 0 < StreamVersion(s.st) && SnapshotFloor(s.st) <= s.writers[i].version <= StreamVersion(s.st) ==>
              && t.history == s.history && t.st.rows == s.st.rows && t.st.snapshot.Some?
              && t.st.snapshot.value.lastSequence == s.writers[i].version && t.st.snapshot.value.aggregate == s.writers[i].aggregate
    ensures var s := Run(def, steps);
            var t := Next(def, s, NativeCompact);
            && t.history == s.history && t.st.snapshot == s.st.snapshot && Loaded(def, t.st) == Loaded(def, s.st)
            && forall k :: 0 <= k < |t.st.rows| ==> t.st.rows[k].sequence > SnapshotFloor(s.st)
  {
    RunKeepsInv(def, steps);
    CompactionIsInvisible(def, Run(def, steps).st);
  }

  // ----------------------------------------------- runs that lose nothing

  /** An accepted commit whose snapshot does not fold all of its events. */
  predicate Cuts<S, E, C, X>(def: EventSourced<S, E, C, X>, s: Native<S, E, X>, a: Step<E>) {
    && a.NativeCommit? && a.writer < |s.writers|
    && CutShort(a.size, s.writers[a.writer].version, |a.events|)
    && Committed(s.st, NativeRequest(def, a.size, s.writers[a.writer], a.events, a.snapshotVersion)).Ok?
  }

  /** No accepted commit of the run took a snapshot past which it has events of its own. */
  predicate NeverCutShort<S, E, C, X>(def: EventSourced<S, E, C, X>, steps: seq<Step<E>>) {
    steps != [] ==>
      && NeverCutShort(def, steps[..|steps| - 1])
      && !Cuts(def, Run(def, steps[..|steps| - 1]), steps[|steps| - 1])
  }

  /** Snapshots at every event, or commands of one event, are enough for that. */
  lemma {:induction false} SmallCommandsAreNeverCut<S, E, C, X>(def: EventSourced<S, E, C, X>, steps: seq<Step<E>>)
    requires forall k :: 0 <= k < |steps| && steps[k].NativeCommit? ==> steps[k].size == 1 || |steps[k].events| <= 1
    ensures NeverCutShort(def, steps)
  {
    if steps != [] {
      SmallCommandsAreNeverCut(def, steps[..|steps| - 1]);
      var a := steps[|steps| - 1];
      var s := Run(def, steps[..|steps| - 1]);
      if a.NativeCommit? && a.writer < |s.writers| {
        SmallCommitsAreWhole(a.size, s.writers[a.writer].version, |a.events|);
      }
    }
  }

  /** Snapshot, writers and rows are all prefixes and suffixes of one history. */
  ghost predicate Agrees<S, E, C, X>(def: EventSourced<S, E, C, X>, s: Native<S, E, X>) {
    && StreamInv(def, s.st, s.history)
    && forall i :: 0 <= i < |s.writers| ==> ReaderInv(def, Reader(s.writers[i].version, s.writers[i].aggregate), s.history)
  }

  lemma {:induction false} StepKeepsAgreement<S, E, C, X>(def: EventSourced<S, E, C, X>, s: Native<S, E, X>, a: Step<E>)
    requires Agrees(def, s) && !Overtakes(def, s, a) && !Cuts(def, s, a)
    ensures Agrees(def, Next(def, s, a))
  {
    match a
    case NativeRead =>
      VersionIsHistoryLength(def, s.st, s.history);
      LoadedIsFullReplay(def, s.st, s.history);
      assert s.history[..|s.history|] == s.history;
    case NativeCommit(i, events, size, snapshotVersion) =>
      if i < |s.writers| && Committed(s.st, NativeRequest(def, size, s.writers[i], events, snapshotVersion)).Ok? {
        CommitKeepsAgreement(def, size, s, i, events, snapshotVersion);
      }
    case NativeSnapshot(i) =>
      if i < |s.writers| {
        var w := s.writers[i];
        assert ReaderInv(def, Reader(w.version, w.aggregate), s.history);
      }
    case NativeCompact => CompactKeepsStream(def, s.st, s.history);
  }

  lemma {:induction false} CommitKeepsAgreement<S, E, C, X>(
    def: EventSourced<S, E, C, X>, size: SnapshotSize, s: Native<S, E, X>, i: nat, events: seq<E>, snapshotVersion: nat)
    requires var a := NativeCommit(i, events, size, snapshotVersion);
             Agrees(def, s) && i < |s.writers| && !Overtakes(def, s, a) && !Cuts(def, s, a)
    requires Committed(s.st, NativeRequest(def, size, s.writers[i], events, snapshotVersion)).Ok?
    ensures Agrees(def, Next(def, s, NativeCommit(i, events, size, snapshotVersion)))
  {
    var t := Next(def, s, NativeCommit(i, events, size, snapshotVersion));
    var w := s.writers[i];
    if events == [] {
      assert s.history + events == s.history && t.st == s.st;
    } else {
      VersionIsHistoryLength(def, s.st, s.history);
      assert ReaderInv(def, Reader(w.version, w.aggregate), s.history) && s.history[..|s.history|] == s.history;
      WholeCommitKeepsStream(def, size, s.st, s.history, events, snapshotVersion);
    }
    forall k | 0 <= k < |t.writers| ensures ReaderInv(def, Reader(t.writers[k].version, t.writers[k].aggregate), t.history) {
      ReaderSurvives(def, Reader(s.writers[k].version, s.writers[k].aggregate), s.history, events);
    }
  }

  lemma {:induction false} RunsThatLoseNothingAgree<S, E, C, X>(def: EventSourced<S, E, C, X>, steps: seq<Step<E>>)
    requires NeverOvertaken(def, steps) && NeverCutShort(def, steps)
    ensures Agrees(def, Run(def, steps))
  {
    if steps != [] {
      RunsThatLoseNothingAgree(def, steps[..|steps| - 1]);
      StepKeepsAgreement(def, Run(def, steps[..|steps| - 1]), steps[|steps| - 1]);
    }
  }

  // ------------------------------------- what is lost stays lost

  /**
   The version fell behind the history, or the snapshot was folded from fewer events than it
   claims, and so was every aggregate that could replace it.
   */
  ghost predicate Short<S, E, X>(s: Native<S, E, X>) {
    || StreamVersion(s.st) < |s.history|
    || (&& |s.folded| < SnapshotFloor(s.st)
        && forall i :: 0 <= i < |s.writers| ==> ShortWriter(s.writers[i], SnapshotFloor(s.st)))
  }

  ghost predicate ShortWriter<S, E, X>(w: Writer<S, E, X>, floor: nat) {
    w.version >= floor ==> |w.seen| < w.version
  }

  lemma ShortLoads<S, E, C, X>(def: EventSourced<S, E, C, X>, s: Native<S, E, X>)
    requires Inv(def, s) && Short(s)
    ensures |Held(s)| < |s.history|
  {
    HeldIsLoaded(def, s);
    TailFits(s.st.rows, SnapshotFloor(s.st));
  }

  lemma {:induction false} CutLeavesShort<S, E, C, X>(def: EventSourced<S, E, C, X>, s: Native<S, E, X>, a: Step<E>)
    requires Inv(def, s) && Cuts(def, s, a)
    ensures Short(Next(def, s, a))
  {
    CommitFromShortWriter(def, a.size, s, a.writer, a.events, a.snapshotVersion);
  }

  /** A snapshot that leaves out an event, of its commit or of what its writer had seen, leaves the stream short. */
  lemma {:induction false} CommitFromShortWriter<S, E, C, X>(
    def: EventSourced<S, E, C, X>, size: SnapshotSize, s: Native<S, E, X>, i: nat, events: seq<E>, snapshotVersion: nat)
    requires Inv(def, s) && i < |s.writers| && Covered(size, s.writers[i].version, |events|) > 0
    requires |s.writers[i].seen| < s.writers[i].version || CutShort(size, s.writers[i].version, |events|)
    requires Committed(s.st, NativeRequest(def, size, s.writers[i], events, snapshotVersion)).Ok?
    ensures Short(Next(def, s, NativeCommit(i, events, size, snapshotVersion)))
  {
    var t := Next(def, s, NativeCommit(i, events, size, snapshotVersion));
    var w := s.writers[i];
    assert WriterInv(def, s, w);
    CommitMovesTheVersion(def, size, s, i, events, snapshotVersion);
    if StreamVersion(t.st) == |t.history| {
      assert |t.folded| < SnapshotFloor(t.st) == w.version + |events|;
      forall k | 0 <= k < |t.writers| ensures ShortWriter(t.writers[k], SnapshotFloor(t.st)) {
        assert WriterInv(def, s, s.writers[k]);
      }
    }
  }

  lemma {:induction false} StaysShort<S, E, C, X>(def: EventSourced<S, E, C, X>, s: Native<S, E, X>, a: Step<E>)
    requires Inv(def, s) && Short(s)
    ensures Short(Next(def, s, a))
  {
    var t := Next(def, s, a);
    StepMovesTheVersion(def, s, a);
    StepKeepsInv(def, s, a);
    if StreamVersion(t.st) == |t.history| {
      match a
      case NativeRead => ReadStaysShort(def, s);
      case NativeCommit(i, events, size, snapshotVersion) =>
        if i < |s.writers| && Committed(s.st, NativeRequest(def, size, s.writers[i], events, snapshotVersion)).Ok? {
          CommitStaysShort(def, size, s, i, events, snapshotVersion);
        }
      case NativeSnapshot(i) =>
        if t != s {
          assert ShortWriter(s.writers[i], SnapshotFloor(s.st));
          forall k | 0 <= k < |t.writers| ensures ShortWriter(t.writers[k], SnapshotFloor(t.st)) {
            assert ShortWriter(s.writers[k], SnapshotFloor(s.st));
          }
        }
      case NativeCompact =>
    }
  }

  lemma {:induction false} ReadStaysShort<S, E, C, X>(def: EventSourced<S, E, C, X>, s: Native<S, E, X>)
    requires Inv(def, s) && Short(s) && StreamVersion(s.st) == |s.history|
    ensures forall i :: 0 <= i < |s.writers| ==> ShortWriter(s.writers[i], SnapshotFloor(s.st))
    ensures ShortWriter(Writer(StreamVersion(s.st), Loaded(def, s.st), Held(s)), SnapshotFloor(s.st))
  {
    ShortLoads(def, s);
  }

  lemma {:induction false} CommitStaysShort<S, E, C, X>(
    def: EventSourced<S, E, C, X>, size: SnapshotSize, s: Native<S, E, X>, i: nat, events: seq<E>, snapshotVersion: nat)
    requires Inv(def, s) && Short(s) && StreamVersion(s.st) == |s.history| && i < |s.writers|
    requires !Overtakes(def, s, NativeCommit(i, events, size, snapshotVersion))
    requires Committed(s.st, NativeRequest(def, size, s.writers[i], events, snapshotVersion)).Ok?
    ensures Short(Next(def, s, NativeCommit(i, events, size, snapshotVersion)))
  {
    var w := s.writers[i];
    assert ShortWriter(w, SnapshotFloor(s.st));
    if events == [] {
      assert s.history + events == s.history;
    } else if Covered(size, w.version, |events|) > 0 {
      CommitFromShortWriter(def, size, s, i, events, snapshotVersion);
    }
  }

  lemma {:induction false} LossesStay<S, E, C, X>(def: EventSourced<S, E, C, X>, steps: seq<Step<E>>)
    requires !NeverOvertaken(def, steps) || !NeverCutShort(def, steps)
    ensures Short(Run(def, steps))
  {
    var before := steps[..|steps| - 1];
    var a := steps[|steps| - 1];
    var s := Run(def, before);
    RunKeepsInv(def, before);
    if !NeverOvertaken(def, before) || !NeverCutShort(def, before) {
      LossesStay(def, before);
      StaysShort(def, s, a);
    } else if Cuts(def, s, a) {
      CutLeavesShort(def, s, a);
    } else {
      VersionCountsExactly(def, steps);
    }
  }

  // ---------------------------------------------------------------- theorems

  /**
   Over every run of native commits, snapshots and compactions: if no accepted commit came
   from a writer that did not hold the current version, and none took a snapshot cut short,
   loading gives the fold of everything committed; and for an entity whose state tells event
   lists apart, only then.
   */
  lemma {:induction false} LoadAgreesExactly<S, E(!new), C, X>(def: EventSourced<S, E, C, X>, steps: seq<Step<E>>)
    ensures NeverOvertaken(def, steps) && NeverCutShort(def, steps) ==>
              Loaded(def, Run(def, steps).st) == Replay(def, Run(def, steps).history)
    ensures Separates(def) && Loaded(def, Run(def, steps).st) == Replay(def, Run(def, steps).history) ==>
              NeverOvertaken(def, steps) && NeverCutShort(def, steps)
  {
    var s := Run(def, steps);
    if NeverOvertaken(def, steps) && NeverCutShort(def, steps) {
      RunsThatLoseNothingAgree(def, steps);
      LoadedIsFullReplay(def, s.st, s.history);
    } else {
      LossesStay(def, steps);
      RunKeepsInv(def, steps);
      HeldIsLoaded(def, s);
      ShortLoads(def, s);
    }
  }

  ghost predicate NoCompaction<E>(steps: seq<Step<E>>) {
    forall k :: 0 <= k < |steps| ==> !steps[k].NativeCompact?
  }

  /** Every committed event is still there, and nobody has read further. */
  ghost predicate Retained<S, E, X>(s: Native<S, E, X>) {
    && Surviving(s.st.rows, s.history) && |s.st.rows| == |s.history| && SnapshotFloor(s.st) <= |s.history|
    && forall i :: 0 <= i < |s.writers| ==> s.writers[i].version <= |s.history|
  }

  /**
   On a stream that is never compacted, whatever snapshots it takes, the unique key alone
   is a version check: no run is ever overtaken, and a writer's events are accepted exactly
   when nothing was committed since it read.
   */
  lemma {:induction false} RetainedStreamsRefuseStaleWriters<S, E, C, X>(
    def: EventSourced<S, E, C, X>, size: SnapshotSize, steps: seq<Step<E>>, i: nat, events: seq<E>, snapshotVersion: nat)
    requires NoCompaction(steps)
    ensures NeverOvertaken(def, steps)
    ensures var s := Run(def, steps);
            i < |s.writers| && events != [] ==>
              (Committed(s.st, NativeRequest(def, size, s.writers[i], events, snapshotVersion)).Ok? <==> s.writers[i].version == |s.history|)
  {
    RetainedRowsAreTheHistory(def, steps);
    var s := Run(def, steps);
    if i < |s.writers| && events != [] {
      RetainedCommitAcceptedExactly(def, size, s, i, events, snapshotVersion);
    }
  }

  lemma {:induction false} RetainedCommitAcceptedExactly<S, E, C, X>(
    def: EventSourced<S, E, C, X>, size: SnapshotSize, s: Native<S, E, X>, i: nat, events: seq<E>, snapshotVersion: nat)
    requires Retained(s) && i < |s.writers| && events != []
    ensures Committed(s.st, NativeRequest(def, size, s.writers[i], events, snapshotVersion)).Ok? <==> s.writers[i].version == |s.history|
    ensures !Overtakes(def, s, NativeCommit(i, events, size, snapshotVersion))
    ensures Retained(Next(def, s, NativeCommit(i, events, size, snapshotVersion)))
  {
    var w := s.writers[i];
    var request := NativeRequest(def, size, w, events, snapshotVersion);
    if w.version < |s.history| {
      StaleCommitAcceptedExactly(s.st, s.history, w.version, request.events, request.snapshot);
    } else {
      InsertNext(s.st.rows, s.history, request.events);
    }
  }

  lemma {:induction false} RetainedRowsAreTheHistory<S, E, C, X>(def: EventSourced<S, E, C, X>, steps: seq<Step<E>>)
    requires NoCompaction(steps)
    ensures NeverOvertaken(def, steps) && Retained(Run(def, steps))
  {
    if steps != [] {
      var before := steps[..|steps| - 1];
      RetainedRowsAreTheHistory(def, before);
      StepKeepsRetained(def, Run(def, before), steps[|steps| - 1]);
    }
  }

  lemma {:induction false} StepKeepsRetained<S, E, C, X>(def: EventSourced<S, E, C, X>, s: Native<S, E, X>, a: Step<E>)
    requires Retained(s) && !a.NativeCompact?
    ensures !Overtakes(def, s, a) && Retained(Next(def, s, a))
  {
    if a.NativeCommit? && a.writer < |s.writers| {
      if a.events == [] {
        assert s.history + a.events == s.history;
      } else {
        RetainedCommitAcceptedExactly(def, a.size, s, a.writer, a.events, a.snapshotVersion);
      }
    }
  }

  /** So on such a stream loads agree with history exactly when no snapshot was cut short. */
  lemma {:induction false} RetainedLoadsAgreeExactly<S, E(!new), C, X>(def: EventSourced<S, E, C, X>, steps: seq<Step<E>>)
    requires NoCompaction(steps)
    ensures var s := Run(def, steps);
            && (NeverCutShort(def, steps) ==> Loaded(def, s.st) == Replay(def, s.history))
            && (Separates(def) && Loaded(def, s.st) == Replay(def, s.history) ==> NeverCutShort(def, steps))
  {
    RetainedRowsAreTheHistory(def, steps);
    LoadAgreesExactly(def, steps);
  }
}
