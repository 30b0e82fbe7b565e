/**
 Schema recovery at startup: the version registry, and `build` as the sequence of
 durable steps it is, interruptible by a crash between any two of them.
 */
module SchemaRegistry {
  import opened Prelude

  datatype VersionUpdated = VersionUpdated(name: string, version: nat)

  /** The last version recorded under a name. */
  function VersionOf(events: seq<VersionUpdated>, name: string): Option<nat> {
    if events == [] then None
    else
      var last := events[|events| - 1];
      if last.name == name then Some(last.version) else VersionOf(events[..|events| - 1], name)
  }

  /** The events one `Register` appends; repeating the recorded version appends none. */
  function Registered(events: seq<VersionUpdated>, name: string, version: nat): seq<VersionUpdated> {
    if VersionOf(events, name) == Some(version) then events else events + [VersionUpdated(name, version)]
  }

  lemma RegisteringSetsOneVersion(events: seq<VersionUpdated>, name: string, version: nat, other: string)
    ensures VersionOf(Registered(events, name, version), other) == if other == name then Some(version) else VersionOf(events, other)
    ensures Registered(Registered(events, name, version), name, version) == Registered(events, name, version)
  {
    assert (events + [VersionUpdated(name, version)])[..|events|] == events;
  }

  /** Rebuilds the registry by replaying its stream. */
  method LoadRegistry(events: seq<VersionUpdated>) returns (versions: map<string, nat>)
    ensures forall name :: VersionOf(events, name) == if name in versions then Some(versions[name]) else None
  {
    versions := map[];
    var k := 0;
    while k < |events|
      invariant 0 <= k <= |events|
      invariant forall name :: VersionOf(events[..k], name) == if name in versions then Some(versions[name]) else None
    {
      assert events[..k + 1][..k] == events[..k];
      versions := versions[events[k].name := events[k].version];
      k := k + 1;
    }
    assert events[..k] == events;
  }
}

module SchemaRecovery {
  import opened Prelude
  import opened EventTable
  import opened Lifecycles
  import opened Projection
  import opened SchemaRegistry

  /** Rows carry the format they were written in; code of another version cannot decode them. */
  datatype StoredView<+S, +E, +X> = StoredView(format: nat, version: nat, lifecycle: Lifecycle<S, E, X>)

  datatype StoredSnapshot<+S, +E, +X> = StoredSnapshot(format: nat, lastSequence: nat, aggregate: Lifecycle<S, E, X>)

  datatype Database<S, E, X> = Database(
    events: map<ViewId, seq<Stored<E>>>,
    views: map<ViewId, StoredView<S, E, X>>,
    snapshots: map<ViewId, StoredSnapshot<S, E, X>>,
    registry: seq<VersionUpdated>)

  /** Where `build` is; the running code's version is in memory only. */
  datatype Phase =
    | Down
    | Reconciled(code: nat, changed: bool)
    | Recovering(code: nat, todo: set<ViewId>)
    | Recovered(code: nat)
    | Up(code: nat)

  /** The entity: its behaviour in each code version, its registry name, whether it compacts and has views. */
  datatype Entity<!S, !E, !C, !X> =
    Entity(defs: nat -> EventSourced<S, E, C, X>, name: string, compacts: bool, projected: bool)

  datatype State<S, E, X> = State(db: Database<S, E, X>, phase: Phase)

  /** `React` may name any event of the stream: the reactor neither orders nor completes what it is given. */
  datatype Action<E> =
    | Start(version: nat)
    | BeginRecovery
    | ReplayOne(id: ViewId)
    | Record
    | Crash
    | RegisterOther(name: string, version: nat)
    | Append(id: ViewId, event: E)
    | React(id: ViewId, at: nat)
    | TakeSnapshot(id: ViewId)

  function Rows<S, E, X>(db: Database<S, E, X>, id: ViewId): seq<Stored<E>> {
    if id in db.events then db.events[id] else []
  }

  /** A view as code of version `code` reads it. */
  function Decoded<S, E, X>(db: Database<S, E, X>, code: nat, id: ViewId): Option<View<S, E, X>> {
    if id !in db.views then None
    else Some(View(db.views[id].version, if db.views[id].format == code then Some(db.views[id].lifecycle) else None))
  }

  function Encoded<S, E, X>(code: nat, view: View<S, E, X>): StoredView<S, E, X>
    requires view.payload.Some?
  {
    StoredView(code, view.version, view.payload.value)
  }

  function RecordedVersion<S, E, C, X>(en: Entity<S, E, C, X>, db: Database<S, E, X>): Option<nat> {
    VersionOf(db.registry, en.name)
  }

  /** A version change on an aggregate whose events may be compacted away cannot be recovered. */
  predicate Unrecoverable<S, E, C, X>(en: Entity<S, E, C, X>, db: Database<S, E, X>, version: nat) {
    en.compacts && RecordedVersion(en, db).Some? && RecordedVersion(en, db) != Some(version)
  }

  function Started<S, E, C, X>(en: Entity<S, E, C, X>, s: State<S, E, X>, version: nat): State<S, E, X> {
    if !s.phase.Down? || Unrecoverable(en, s.db, version) then s
    else if RecordedVersion(en, s.db) == Some(version) then s.(phase := Reconciled(version, false))
    else State(s.db.(snapshots := map[]), Reconciled(version, true))
  }

  function RecoveryBegun<S, E, C, X>(en: Entity<S, E, C, X>, s: State<S, E, X>): State<S, E, X> {
    if !s.phase.Reconciled? then s
    else if !en.projected then s.(phase := Recovered(s.phase.code))
    else
      var db := if s.phase.changed then s.db.(views := map[]) else s.db;
      State(db, Recovering(s.phase.code, Stale(db, s.phase.code)))
  }

  /** The views this code has to replay. */
  function Stale<S, E, X>(db: Database<S, E, X>, code: nat): set<ViewId> {
    set id | id in db.events && Behind(db.events[id], Decoded(db, code, id))
  }

  function Replayed<S, E, C, X>(en: Entity<S, E, C, X>, s: State<S, E, X>, id: ViewId): State<S, E, X> {
    if !s.phase.Recovering? || id !in s.phase.todo then s
    else
      var code := s.phase.code;
      var view := CaughtUp(en.defs(code), Rows(s.db, id), Decoded(s.db, code, id));
      State(s.db.(views := s.db.views[id := Encoded(code, view)]), Recovering(code, s.phase.todo - {id}))
  }

  /** Recovery is over when nothing is left to replay; only then is the version recorded. */
  function RecordedNow<S, E, C, X>(en: Entity<S, E, C, X>, s: State<S, E, X>): State<S, E, X> {
    if s.phase.Recovered? || (s.phase.Recovering? && s.phase.todo == {}) then
      State(s.db.(registry := Registered(s.db.registry, en.name, s.phase.code)), Up(s.phase.code))
    else s
  }

  /** How many events a view counts. */
  function Seen<S, E, X>(db: Database<S, E, X>, id: ViewId): nat {
    if id in db.views then db.views[id].version else 0
  }

  function ReactedTo<S, E, C, X>(en: Entity<S, E, C, X>, db: Database<S, E, X>, code: nat, id: ViewId, at: nat): Database<S, E, X> {
    if at >= |Rows(db, id)| then db
    else
      match Reacted(en.defs(code), Decoded(db, code, id), Rows(db, id)[at].event)
      case Some(View(version, Some(lifecycle))) => db.(views := db.views[id := StoredView(code, version, lifecycle)])
      case _ => db
  }

  function Grown<S, E, X>(db: Database<S, E, X>, id: ViewId, event: E): Database<S, E, X> {
    db.(events := db.events[id := Rows(db, id) + [Stored(LastSequence(Rows(db, id)) + 1, event)]])
  }

  function Next<S, E, C, X>(en: Entity<S, E, C, X>, s: State<S, E, X>, a: Action<E>): State<S, E, X> {
    match a
    case Start(version) => Started(en, s, version)
    case BeginRecovery => RecoveryBegun(en, s)
    case ReplayOne(id) => Replayed(en, s, id)
    case Record => RecordedNow(en, s)
    case Crash => s.(phase := Down)
    case RegisterOther(name, version) =>
      if name == en.name then s else s.(db := s.db.(registry := Registered(s.db.registry, name, version)))
    case Append(id, event) =>
      if !s.phase.Up? then s
      else s.(db := Grown(s.db, id, event))
    case React(id, at) => if s.phase.Up? && en.projected then s.(db := ReactedTo(en, s.db, s.phase.code, id, at)) else s
    case TakeSnapshot(id) =>
      if !s.phase.Up? || Rows(s.db, id) == [] then s
      else
        var rows := Rows(s.db, id);
        // A snapshot that has read less than the stored one is refused.
        if id in s.db.snapshots && s.db.snapshots[id].lastSequence > LastSequence(rows) then s
        else
          var taken := StoredSnapshot(s.phase.code, LastSequence(rows), Replay(en.defs(s.phase.code), Events(rows)));
          s.(db := s.db.(snapshots := s.db.snapshots[id := taken]))
  }

  function RunFrom<S, E, C, X>(en: Entity<S, E, C, X>, s: State<S, E, X>, actions: seq<Action<E>>): State<S, E, X> {
    if actions == [] then s
    else Next(en, RunFrom(en, s, actions[..|actions| - 1]), actions[|actions| - 1])
  }

  /**
   Every reaction of the run is to the event right after its view's version: none is saved
   out of order or after a lost one. Trailing losses are allowed.
   */
  predicate ReactsInOrder<S, E, C, X>(en: Entity<S, E, C, X>, s: State<S, E, X>, actions: seq<Action<E>>) {
    actions != [] ==>
      && ReactsInOrder(en, s, actions[..|actions| - 1])
      && InOrder(RunFrom(en, s, actions[..|actions| - 1]), actions[|actions| - 1])
  }

  predicate InOrder<S, E, X>(s: State<S, E, X>, a: Action<E>) {
    a.React? && a.at < |Rows(s.db, a.id)| ==> Rows(s.db, a.id)[a.at].sequence == Seen(s.db, a.id) + 1
  }

  // ------------------------------------------------------- good and full views

  /** A view in the format of `code`, folded from its stream up to its version; sequences may have gaps. */
  ghost predicate GoodView<S, E, C, X>(def: EventSourced<S, E, C, X>, code: nat, rows: seq<Stored<E>>, view: StoredView<S, E, X>) {
    && view.format == code && view.version <= LastSequence(rows)
    && view.lifecycle == Replay(def, Events(UpTo(rows, view.version)))
  }

  ghost predicate GoodSnapshot<S, E, C, X>(def: EventSourced<S, E, C, X>, code: nat, rows: seq<Stored<E>>, snap: StoredSnapshot<S, E, X>) {
    && snap.format == code && snap.lastSequence <= LastSequence(rows)
    && snap.aggregate == Replay(def, Events(UpTo(rows, snap.lastSequence)))
  }

  /** The view of a whole stream in the format of `code`. */
  function FullView<S, E, C, X>(def: EventSourced<S, E, C, X>, code: nat, rows: seq<Stored<E>>): StoredView<S, E, X> {
    StoredView(code, LastSequence(rows), Replay(def, Events(rows)))
  }

  ghost predicate AllOrdered<S, E, X>(db: Database<S, E, X>) {
    forall id :: id in db.events ==> StreamRows(db.events[id])
  }

  ghost predicate ViewsGood<S, E, C, X>(en: Entity<S, E, C, X>, db: Database<S, E, X>, code: nat) {
    en.projected ==> forall id :: id in db.views ==> GoodView(en.defs(code), code, Rows(db, id), db.views[id])
  }

  ghost predicate SnapshotsGood<S, E, C, X>(en: Entity<S, E, C, X>, db: Database<S, E, X>, code: nat) {
    forall id :: id in db.snapshots ==> GoodSnapshot(en.defs(code), code, Rows(db, id), db.snapshots[id])
  }

  /** Every stream outside `except` has its full view. */
  ghost predicate ViewsFull<S, E, C, X>(en: Entity<S, E, C, X>, db: Database<S, E, X>, code: nat, except: set<ViewId>) {
    en.projected ==> forall id :: id in db.events && db.events[id] != [] && id !in except ==>
      id in db.views && db.views[id] == FullView(en.defs(code), code, db.events[id])
  }

  /** Replaying one view writes exactly the full view. */
  lemma ReplayWritesFullView<S, E, C, X>(def: EventSourced<S, E, C, X>, code: nat, rows: seq<Stored<E>>, view: Option<View<S, E, X>>)
    requires StreamRows(rows) && (view.Some? ==> PrefixFold(def, rows, view.value))
    ensures Encoded(code, CaughtUp(def, rows, view)) == FullView(def, code, rows)
    ensures GoodView(def, code, rows, FullView(def, code, rows))
  {
    CatchingUpIsFullReplay(def, rows, view);
    WholeUpToLast(rows);
  }

  /** A good view at its stream's end is the full view. */
  lemma CompleteViewIsFull<S, E, C, X>(def: EventSourced<S, E, C, X>, code: nat, rows: seq<Stored<E>>, view: StoredView<S, E, X>)
    requires StreamRows(rows) && GoodView(def, code, rows, view) && view.version == LastSequence(rows)
    ensures view == FullView(def, code, rows)
  {
    WholeUpToLast(rows);
  }

  /** A row past the end changes nothing up to any sequence before it. */
  lemma UpToBeforeTheEnd<E>(rows: seq<Stored<E>>, row: Stored<E>, through: nat)
    requires through <= LastSequence(rows) < row.sequence
    ensures UpTo(rows + [row], through) == UpTo(rows, through) && through <= LastSequence(rows + [row])
  {
    UpToConcat(rows, [row], through);
    assert UpTo(rows, through) + [] == UpTo(rows, through);
  }

  lemma GoodViewsGrow<S, E, C, X>(def: EventSourced<S, E, C, X>, code: nat, rows: seq<Stored<E>>, row: Stored<E>, view: StoredView<S, E, X>)
    requires GoodView(def, code, rows, view) && LastSequence(rows) < row.sequence
    ensures GoodView(def, code, rows + [row], view)
  {
    UpToBeforeTheEnd(rows, row, view.version);
  }

  lemma GoodSnapshotsGrow<S, E, C, X>(def: EventSourced<S, E, C, X>, code: nat, rows: seq<Stored<E>>, row: Stored<E>, snap: StoredSnapshot<S, E, X>)
    requires GoodSnapshot(def, code, rows, snap) && LastSequence(rows) < row.sequence
    ensures GoodSnapshot(def, code, rows + [row], snap)
  {
    UpToBeforeTheEnd(rows, row, snap.lastSequence);
  }

  lemma FullSnapshotIsGood<S, E, C, X>(def: EventSourced<S, E, C, X>, code: nat, rows: seq<Stored<E>>)
    requires StreamRows(rows)
    ensures GoodSnapshot(def, code, rows, StoredSnapshot(code, LastSequence(rows), Replay(def, Events(rows))))
  {
    WholeUpToLast(rows);
  }

  /** The view one reaction writes over a decodable view, or over none. */
  function ReactedView<S, E, C, X>(def: EventSourced<S, E, C, X>, code: nat, view: Option<StoredView<S, E, X>>, event: E): StoredView<S, E, X> {
    match view
    case None => StoredView(code, 1, Applied(def, Uninitialized, event))
    case Some(seen) => StoredView(code, seen.version + 1, Applied(def, seen.lifecycle, event))
  }

  lemma ReactedViewFolds<S, E, C, X>(def: EventSourced<S, E, C, X>, code: nat, rows: seq<Stored<E>>, view: Option<StoredView<S, E, X>>, event: E)
    requires StreamRows(rows) && (view.Some? ==> GoodView(def, code, rows, view.value))
    ensures var at := if view.None? then 0 else view.value.version;
            ReactedView(def, code, view, event) == StoredView(code, at + 1, Replay(def, Events(UpTo(rows, at)) + [event]))
  {
    var at := if view.None? then 0 else view.value.version;
    if view.None? {
      NoneUpTo(rows, 0);
    }
    FoldSnoc(def, Uninitialized, Events(UpTo(rows, at)), event);
  }

  /**
   A reaction keeps a good view good when its event is the one right after the view's
   version; and, for an entity whose state tells event lists apart, only then.
   */
  lemma {:induction false} ReactionKeepsGoodExactly<S, E(!new), C, X>(
    def: EventSourced<S, E, C, X>, code: nat, rows: seq<Stored<E>>, view: Option<StoredView<S, E, X>>, event: E)
    requires StreamRows(rows) && (view.Some? ==> GoodView(def, code, rows, view.value))
    ensures var next := Stored((if view.None? then 0 else view.value.version) + 1, event);
            var after := ReactedView(def, code, view, event);
            && (next in rows ==> GoodView(def, code, rows, after))
            && (Separates(def) && GoodView(def, code, rows, after) ==> next in rows)
  {
    var at := if view.None? then 0 else view.value.version;
    ReactedViewFolds(def, code, rows, view, event);
    if Stored(at + 1, event) in rows {
      UpToNext(rows, at, event);
      EventsConcat(UpTo(rows, at), [Stored(at + 1, event)]);
      assert Events([Stored(at + 1, event)]) == [event];
    } else if Separates(def) {
      OtherEventMisfolds(def, rows, at, event);
    }
  }

  lemma {:induction false} OtherEventMisfolds<S, E(!new), C, X>(def: EventSourced<S, E, C, X>, rows: seq<Stored<E>>, at: nat, event: E)
    requires StreamRows(rows) && Separates(def) && Stored(at + 1, event) !in rows
    ensures Replay(def, Events(UpTo(rows, at)) + [event]) != Replay(def, Events(UpTo(rows, at + 1)))
  {
    var before := Events(UpTo(rows, at));
    if Holds(rows, at + 1) {
      var i :| 0 <= i < |rows| && rows[i].sequence == at + 1;
      var other := rows[i].event;
      assert rows[i] == Stored(at + 1, other);
      UpToNext(rows, at, other);
      EventsConcat(UpTo(rows, at), [Stored(at + 1, other)]);
      assert Events([Stored(at + 1, other)]) == [other];
      if Replay(def, before + [event]) == Replay(def, before + [other]) {
        SameLastEvent(def, before, event, other);
      }
    } else {
      UpToNext(rows, at, event);
      assert |before + [event]| != |before|;
    }
  }

  lemma SameLastEvent<S, E(!new), C, X>(def: EventSourced<S, E, C, X>, before: seq<E>, event: E, other: E)
    requires Separates(def) && Replay(def, before + [event]) == Replay(def, before + [other])
    ensures event == other
  {
    assert (before + [event])[|before|] == (before + [other])[|before|];
  }

  // --------------------------------------------------- runs of one code version

  /** What a recorded version promises about the caches. */
  ghost predicate Promised<S, E, C, X>(en: Entity<S, E, C, X>, db: Database<S, E, X>, code: nat) {
    RecordedVersion(en, db) == Some(code) ==> SnapshotsGood(en, db, code) && ViewsGood(en, db, code)
  }

  ghost predicate PhaseInv<S, E, C, X>(en: Entity<S, E, C, X>, s: State<S, E, X>, code: nat) {
    match s.phase
    case Down => true
    case Reconciled(c, changed) => c == code && SnapshotsGood(en, s.db, code) && (changed <==> RecordedVersion(en, s.db) != Some(code))
    case Recovering(c, todo) =>
      && c == code && en.projected && todo <= s.db.events.Keys
      && SnapshotsGood(en, s.db, code) && ViewsGood(en, s.db, code) && ViewsFull(en, s.db, code, todo)
    case Recovered(c) => c == code && !en.projected && SnapshotsGood(en, s.db, code)
    case Up(c) => c == code && RecordedVersion(en, s.db) == Some(code)
  }

  ghost predicate Inv<S, E, C, X>(en: Entity<S, E, C, X>, s: State<S, E, X>, code: nat) {
    AllOrdered(s.db) && Promised(en, s.db, code) && PhaseInv(en, s, code)
  }

  lemma {:induction false} BeginKeepsInv<S, E, C, X>(en: Entity<S, E, C, X>, s: State<S, E, X>, code: nat)
    requires Inv(en, s, code)
    ensures Inv(en, RecoveryBegun(en, s), code)
  {
    var t := RecoveryBegun(en, s);
    if s.phase.Reconciled? && en.projected {
      assert ViewsGood(en, t.db, code);
      forall id | id in t.db.events && t.db.events[id] != [] && id !in t.phase.todo
        ensures id in t.db.views && t.db.views[id] == FullView(en.defs(code), code, t.db.events[id])
      {
        CompleteViewIsFull(en.defs(code), code, t.db.events[id], t.db.views[id]);
      }
    }
  }

  /** Replaying writes one full view, over whatever good view, foreign view or none was there. */
  lemma ReplayedIs<S, E, C, X>(en: Entity<S, E, C, X>, s: State<S, E, X>, id: ViewId)
    requires s.phase.Recovering? && id in s.phase.todo && StreamRows(Rows(s.db, id))
    requires id in s.db.views && s.db.views[id].format == s.phase.code ==>
               GoodView(en.defs(s.phase.code), s.phase.code, Rows(s.db, id), s.db.views[id])
    ensures var full := FullView(en.defs(s.phase.code), s.phase.code, Rows(s.db, id));
            && GoodView(en.defs(s.phase.code), s.phase.code, Rows(s.db, id), full)
            && Replayed(en, s, id) == State(s.db.(views := s.db.views[id := full]), Recovering(s.phase.code, s.phase.todo - {id}))
  {
    ReplayWritesFullView(en.defs(s.phase.code), s.phase.code, Rows(s.db, id), Decoded(s.db, s.phase.code, id));
  }

  lemma {:induction false} ReplayKeepsInv<S, E, C, X>(en: Entity<S, E, C, X>, s: State<S, E, X>, code: nat, id: ViewId)
    requires Inv(en, s, code)
    ensures Inv(en, Replayed(en, s, id), code)
  {
    if s.phase.Recovering? && id in s.phase.todo {
      ReplayedIs(en, s, id);
      OneViewChanges(en, s.db, code, id, FullView(en.defs(code), code, Rows(s.db, id)));
    }
  }

  lemma OneViewChanges<S, E, C, X>(en: Entity<S, E, C, X>, db: Database<S, E, X>, code: nat, id: ViewId, view: StoredView<S, E, X>)
    requires ViewsGood(en, db, code) && GoodView(en.defs(code), code, Rows(db, id), view)
    ensures ViewsGood(en, db.(views := db.views[id := view]), code)
  {
  }

  lemma {:induction false} RecordKeepsInv<S, E, C, X>(en: Entity<S, E, C, X>, s: State<S, E, X>, code: nat)
    requires Inv(en, s, code)
    ensures Inv(en, RecordedNow(en, s), code)
  {
    if s.phase.Recovered? || s.phase.Recovering? {
      RegisteringSetsOneVersion(s.db.registry, en.name, s.phase.code, en.name);
    }
  }

  lemma RowsOfGrown<S, E, X>(db: Database<S, E, X>, id: ViewId, event: E, other: ViewId)
    ensures Rows(Grown(db, id, event), other) ==
              if other == id then Rows(db, id) + [Stored(LastSequence(Rows(db, id)) + 1, event)] else Rows(db, other)
  {
  }

  lemma GrownIsOrdered<S, E, X>(db: Database<S, E, X>, id: ViewId, event: E, other: ViewId)
    requires AllOrdered(db)
    ensures StreamRows(Rows(Grown(db, id, event), other))
  {
    RowsOfGrown(db, id, event, other);
    assert StreamRows(Rows(db, other));
  }

  /** An append keeps streams ordered and every good view and snapshot good. */
  lemma {:induction false} AppendKeepsGood<S, E, C, X>(en: Entity<S, E, C, X>, db: Database<S, E, X>, code: nat, id: ViewId, event: E)
    requires AllOrdered(db)
    ensures AllOrdered(Grown(db, id, event))
    ensures ViewsGood(en, db, code) ==> ViewsGood(en, Grown(db, id, event), code)
    ensures SnapshotsGood(en, db, code) ==> SnapshotsGood(en, Grown(db, id, event), code)
  {
    var grown := Grown(db, id, event);
    forall other | other in grown.events ensures StreamRows(grown.events[other]) {
      GrownIsOrdered(db, id, event, other);
    }
    if ViewsGood(en, db, code) && en.projected {
      forall other | other in db.views ensures GoodView(en.defs(code), code, Rows(grown, other), db.views[other]) {
        AppendKeepsView(en.defs(code), code, db, id, event, other, db.views[other]);
      }
    }
    if SnapshotsGood(en, db, code) {
      forall other | other in db.snapshots ensures GoodSnapshot(en.defs(code), code, Rows(grown, other), db.snapshots[other]) {
        AppendKeepsSnapshot(en.defs(code), code, db, id, event, other, db.snapshots[other]);
      }
    }
  }

  lemma AppendKeepsSnapshot<S, E, C, X>(
    def: EventSourced<S, E, C, X>, code: nat, db: Database<S, E, X>, id: ViewId, event: E, other: ViewId, snap: StoredSnapshot<S, E, X>)
    requires GoodSnapshot(def, code, Rows(db, other), snap)
    ensures GoodSnapshot(def, code, Rows(Grown(db, id, event), other), snap)
  {
    RowsOfGrown(db, id, event, other);
    GoodSnapshotsGrow(def, code, Rows(db, other), Stored(LastSequence(Rows(db, other)) + 1, event), snap);
  }

  lemma AppendKeepsView<S, E, C, X>(
    def: EventSourced<S, E, C, X>, code: nat, db: Database<S, E, X>, id: ViewId, event: E, other: ViewId, view: StoredView<S, E, X>)
    requires GoodView(def, code, Rows(db, other), view)
    ensures GoodView(def, code, Rows(Grown(db, id, event), other), view)
  {
    RowsOfGrown(db, id, event, other);
    GoodViewsGrow(def, code, Rows(db, other), Stored(LastSequence(Rows(db, other)) + 1, event), view);
  }

  /** A reaction in order writes a good view in the running format, or nothing. */
  lemma {:induction false} InOrderReactionWrites<S, E(!new), C, X>(en: Entity<S, E, C, X>, db: Database<S, E, X>, code: nat, id: ViewId, at: nat)
    requires StreamRows(Rows(db, id)) && (at < |Rows(db, id)| ==> Rows(db, id)[at].sequence == Seen(db, id) + 1)
    requires id in db.views && db.views[id].format == code ==> GoodView(en.defs(code), code, Rows(db, id), db.views[id])
    ensures var after := ReactedTo(en, db, code, id, at);
            || after == db
            || exists view :: GoodView(en.defs(code), code, Rows(db, id), view) && after == db.(views := db.views[id := view])
  {
    var rows := Rows(db, id);
    if at < |rows| && (id in db.views ==> db.views[id].format == code) {
      var view := if id in db.views then Some(db.views[id]) else None;
      ReactionKeepsGoodExactly(en.defs(code), code, rows, view, rows[at].event);
      assert rows[at] == Stored(Seen(db, id) + 1, rows[at].event);
      var written := ReactedView(en.defs(code), code, view, rows[at].event);
      assert GoodView(en.defs(code), code, rows, written) && ReactedTo(en, db, code, id, at) == db.(views := db.views[id := written]);
    }
  }

  lemma {:induction false} ReactKeepsInv<S, E(!new), C, X>(en: Entity<S, E, C, X>, s: State<S, E, X>, code: nat, id: ViewId, at: nat)
    requires Inv(en, s, code) && InOrder(s, React(id, at))
    ensures Inv(en, Next(en, s, React(id, at)), code)
  {
    if s.phase.Up? && en.projected {
      InOrderReactionWrites(en, s.db, code, id, at);
      var after := ReactedTo(en, s.db, code, id, at);
      if after != s.db {
        var view :| GoodView(en.defs(code), code, Rows(s.db, id), view) && after == s.db.(views := s.db.views[id := view]);
        OneViewChanges(en, s.db, code, id, view);
      }
    }
  }

  lemma {:induction false} SnapshotKeepsInv<S, E, C, X>(en: Entity<S, E, C, X>, s: State<S, E, X>, code: nat, id: ViewId)
    requires Inv(en, s, code)
    ensures Inv(en, Next(en, s, TakeSnapshot(id)), code)
  {
    FullSnapshotIsGood(en.defs(code), code, Rows(s.db, id));
  }

  lemma StartKeepsInv<S, E, C, X>(en: Entity<S, E, C, X>, s: State<S, E, X>, code: nat)
    requires Inv(en, s, code)
    ensures Inv(en, Started(en, s, code), code)
  {
  }

  lemma RegisterOtherKeepsInv<S, E, C, X>(en: Entity<S, E, C, X>, s: State<S, E, X>, code: nat, name: string, version: nat)
    requires Inv(en, s, code)
    ensures Inv(en, Next(en, s, RegisterOther(name, version)), code)
  {
    RegisteringSetsOneVersion(s.db.registry, name, version, en.name);
    var t := Next(en, s, RegisterOther(name, version));
    RegistryIsIrrelevant(en, s.db, t.db.registry, code);
  }

  lemma RegistryIsIrrelevant<S, E, C, X>(en: Entity<S, E, C, X>, db: Database<S, E, X>, registry: seq<VersionUpdated>, code: nat)
    ensures var t := db.(registry := registry);
            && (ViewsGood(en, t, code) <==> ViewsGood(en, db, code)) && (SnapshotsGood(en, t, code) <==> SnapshotsGood(en, db, code))
            && forall except :: ViewsFull(en, t, code, except) <==> ViewsFull(en, db, code, except)
  {
    forall id ensures Rows(db.(registry := registry), id) == Rows(db, id) {}
  }

  lemma AppendKeepsInv<S, E, C, X>(en: Entity<S, E, C, X>, s: State<S, E, X>, code: nat, id: ViewId, event: E)
    requires Inv(en, s, code)
    ensures Inv(en, Next(en, s, Append(id, event)), code)
  {
    AppendKeepsGood(en, s.db, code, id, event);
  }

  lemma {:induction false} NextKeepsInv<S, E(!new), C, X>(en: Entity<S, E, C, X>, s: State<S, E, X>, code: nat, a: Action<E>)
    requires Inv(en, s, code) && (a.Start? ==> a.version == code) && InOrder(s, a)
    ensures Inv(en, Next(en, s, a), code)
  {
    match a
    case Start(version) => StartKeepsInv(en, s, code);
    case BeginRecovery => BeginKeepsInv(en, s, code);
    case ReplayOne(id) => ReplayKeepsInv(en, s, code, id);
    case Record => RecordKeepsInv(en, s, code);
    case Crash =>
    case RegisterOther(name, version) => RegisterOtherKeepsInv(en, s, code, name, version);
    case Append(id, event) => AppendKeepsInv(en, s, code, id, event);
    case React(id, at) => ReactKeepsInv(en, s, code, id, at);
    case TakeSnapshot(id) => SnapshotKeepsInv(en, s, code, id);
  }

  ghost predicate OneVersion<E>(actions: seq<Action<E>>, code: nat) {
    forall k :: 0 <= k < |actions| && actions[k].Start? ==> actions[k].version == code
  }

  lemma {:induction false} RunKeepsInv<S, E(!new), C, X>(en: Entity<S, E, C, X>, s: State<S, E, X>, code: nat, actions: seq<Action<E>>)
    requires Inv(en, s, code) && OneVersion(actions, code) && ReactsInOrder(en, s, actions)
    ensures Inv(en, RunFrom(en, s, actions), code)
  {
    if actions != [] {
      RunKeepsInv(en, s, code, actions[..|actions| - 1]);
      NextKeepsInv(en, RunFrom(en, s, actions[..|actions| - 1]), code, actions[|actions| - 1]);
    }
  }

  /**
   Through any crashes and restarts of one code version, from whatever earlier versions
   left behind, and as long as no reaction is saved past a lost one: while that version is
   recorded, every snapshot and every view is in its format and a fold of its stream.
   */
  lemma {:induction false} RecordedVersionKeepsItsPromise<S, E(!new), C, X>(
    en: Entity<S, E, C, X>, db: Database<S, E, X>, code: nat, actions: seq<Action<E>>)
    requires AllOrdered(db) && Promised(en, db, code)
    requires OneVersion(actions, code) && ReactsInOrder(en, State(db, Down), actions)
    ensures Promised(en, RunFrom(en, State(db, Down), actions).db, code)
  {
    RunKeepsInv(en, State(db, Down), code, actions);
  }

  /** Whenever the version is recorded, at that moment every view is the full replay in its format. */
  lemma {:induction false} RecordingFollowsFullRecovery<S, E(!new), C, X>(
    en: Entity<S, E, C, X>, db: Database<S, E, X>, code: nat, actions: seq<Action<E>>)
    requires AllOrdered(db) && Promised(en, db, code)
    requires OneVersion(actions, code) && ReactsInOrder(en, State(db, Down), actions)
    requires var s := RunFrom(en, State(db, Down), actions); Next(en, s, Record) != s
    ensures var t := Next(en, RunFrom(en, State(db, Down), actions), Record);
            && t.phase == Up(code) && RecordedVersion(en, t.db) == Some(code)
            && ViewsFull(en, t.db, code, {}) && ViewsGood(en, t.db, code) && SnapshotsGood(en, t.db, code)
  {
    RunKeepsInv(en, State(db, Down), code, actions);
    RegisteringSetsOneVersion(RunFrom(en, State(db, Down), actions).db.registry, en.name, code, en.name);
  }

  /** A refused version change of a compactable aggregate deletes nothing, however often it is tried. */
  lemma {:induction false} RefusedChangeDeletesNothing<S, E, C, X>(
    en: Entity<S, E, C, X>, db: Database<S, E, X>, code: nat, actions: seq<Action<E>>)
    requires Unrecoverable(en, db, code) && OneVersion(actions, code)
    ensures var s := RunFrom(en, State(db, Down), actions);
            && s.phase.Down? && Unrecoverable(en, s.db, code)
            && s.db.events == db.events && s.db.snapshots == db.snapshots && s.db.views == db.views
            && RecordedVersion(en, s.db) == RecordedVersion(en, db)
  {
    if actions != [] {
      var before := actions[..|actions| - 1];
      RefusedChangeDeletesNothing(en, db, code, before);
      RefusedStepDeletesNothing(en, RunFrom(en, State(db, Down), before), code, actions[|actions| - 1]);
    }
  }

  lemma RefusedStepDeletesNothing<S, E, C, X>(en: Entity<S, E, C, X>, s: State<S, E, X>, code: nat, a: Action<E>)
    requires s.phase.Down? && Unrecoverable(en, s.db, code) && (a.Start? ==> a.version == code)
    ensures var t := Next(en, s, a);
            && t.phase.Down? && RecordedVersion(en, t.db) == RecordedVersion(en, s.db)
            && t.db.events == s.db.events && t.db.snapshots == s.db.snapshots && t.db.views == s.db.views
  {
    if a.RegisterOther? {
      RegisteringSetsOneVersion(s.db.registry, a.name, a.version, en.name);
    }
  }

  // ------------------------------------------------- what restarts leave alone

  /** No snapshot is gone, and none has read less. */
  ghost predicate SnapshotsKept<S, E, X>(before: Database<S, E, X>, after: Database<S, E, X>) {
    forall id :: id in before.snapshots ==>
      id in after.snapshots && before.snapshots[id].lastSequence <= after.snapshots[id].lastSequence
  }

  /** The recorded version is the one `build` is at, and it found nothing changed. */
  ghost predicate AtHome<S, E, C, X>(en: Entity<S, E, C, X>, s: State<S, E, X>, code: nat) {
    && RecordedVersion(en, s.db) == Some(code)
    && (s.phase.Down? || s.phase.code == code) && (s.phase.Reconciled? ==> !s.phase.changed)
  }

  /**
   Restarting the recorded version is safe for the snapshots: from any database, through any
   crashes, starts of that version lose none and move none back. For an entity that compacts
   this holds whatever versions are started, since every other start is refused.
   */
  lemma {:induction false} RestartsKeepSnapshots<S, E, C, X>(
    en: Entity<S, E, C, X>, db: Database<S, E, X>, code: nat, actions: seq<Action<E>>)
    requires RecordedVersion(en, db) == Some(code) && (OneVersion(actions, code) || en.compacts)
    ensures var t := RunFrom(en, State(db, Down), actions);
            SnapshotsKept(db, t.db) && RecordedVersion(en, t.db) == Some(code)
  {
    HomeThroughout(en, db, code, actions);
  }

  lemma {:induction false} HomeThroughout<S, E, C, X>(
    en: Entity<S, E, C, X>, db: Database<S, E, X>, code: nat, actions: seq<Action<E>>)
    requires RecordedVersion(en, db) == Some(code) && (OneVersion(actions, code) || en.compacts)
    ensures var t := RunFrom(en, State(db, Down), actions); AtHome(en, t, code) && SnapshotsKept(db, t.db)
  {
    if actions != [] {
      var before := actions[..|actions| - 1];
      HomeThroughout(en, db, code, before);
      HomeStep(en, RunFrom(en, State(db, Down), before), code, actions[|actions| - 1]);
    }
  }

  lemma {:induction false} HomeStep<S, E, C, X>(en: Entity<S, E, C, X>, s: State<S, E, X>, code: nat, a: Action<E>)
    requires AtHome(en, s, code) && (a.Start? ==> a.version == code || en.compacts)
    ensures AtHome(en, Next(en, s, a), code) && SnapshotsKept(s.db, Next(en, s, a).db)
  {
    if a.RegisterOther? {
      RegisteringSetsOneVersion(s.db.registry, a.name, a.version, en.name);
    } else if a.Record? {
      RegisteringSetsOneVersion(s.db.registry, en.name, code, en.name);
    }
  }

  /** The replays a recovery makes, in any order. */
  function Replays<E>(order: seq<ViewId>): (replays: seq<Action<E>>)
    ensures |replays| == |order|
  {
    seq(|order|, i requires 0 <= i < |order| => ReplayOne(order[i]))
  }

  /** What a start finds when it comes to its views. */
  function FoundBy<S, E, C, X>(en: Entity<S, E, C, X>, db: Database<S, E, X>, code: nat): Database<S, E, X> {
    if RecordedVersion(en, db) == Some(code) then db
    else db.(snapshots := map[], views := if en.projected then map[] else db.views)
  }

  /**
   A start is refused, and changes nothing, exactly when it would change the version of an
   entity that compacts. Any other start can finish: once every view that is missing or
   behind was replayed, in whatever order, the version is recorded and the entity is up,
   with every event still there.
   */
  lemma {:induction false} EveryOtherStartCanFinish<S, E, C, X>(
    en: Entity<S, E, C, X>, db: Database<S, E, X>, code: nat, order: seq<ViewId>)
    requires en.projected ==> forall id :: id in order <==> id in Stale(FoundBy(en, db, code), code)
    ensures var s := State(db, Down);
            if en.compacts && RecordedVersion(en, db).Some? && RecordedVersion(en, db).value != code
            then Next(en, s, Start(code)) == s
            else
              var begun := Next(en, Next(en, s, Start(code)), BeginRecovery);
              var t := Next(en, RunFrom(en, begun, if en.projected then Replays(order) else []), Record);
              t.phase == Up(code) && RecordedVersion(en, t.db) == Some(code) && t.db.events == db.events
  {
    var s := State(db, Down);
    if !(en.compacts && RecordedVersion(en, db).Some? && RecordedVersion(en, db).value != code) {
      var begun := Next(en, Next(en, s, Start(code)), BeginRecovery);
      assert begun.db == FoundBy(en, db, code);
      if en.projected {
        ReplaysDrain(en, begun, order);
        var done := RunFrom(en, begun, Replays(order));
        assert done.phase.todo == {};
        RegisteringSetsOneVersion(done.db.registry, en.name, code, en.name);
      } else {
        RegisteringSetsOneVersion(begun.db.registry, en.name, code, en.name);
      }
    }
  }

  lemma {:induction false} ReplaysDrain<S, E, C, X>(en: Entity<S, E, C, X>, s: State<S, E, X>, order: seq<ViewId>)
    requires s.phase.Recovering?
    ensures var t := RunFrom(en, s, Replays(order));
            && t.phase.Recovering? && t.phase.code == s.phase.code
            && t.phase.todo == s.phase.todo - (set id | id in order)
            && t.db.events == s.db.events && t.db.registry == s.db.registry
  {
    if order == [] {
      assert Replays<E>(order) == [];
    } else {
      var last := |order| - 1;
      ReplaysDrain(en, s, order[..last]);
      assert Replays<E>(order)[..last] == Replays<E>(order[..last]);
      assert (set id | id in order) == (set id | id in order[..last]) + {order[last]};
      var mid := RunFrom(en, s, Replays(order[..last]));
      assert order[last] !in mid.phase.todo ==> mid.phase.todo - {order[last]} == mid.phase.todo;
    }
  }

  /** Registering another entity's version touches nothing else. */
  lemma {:induction false} OthersRegisterFreely<S, E, C, X>(en: Entity<S, E, C, X>, s: State<S, E, X>, name: string, version: nat)
    requires name != en.name
    ensures var t := Next(en, s, RegisterOther(name, version));
            && VersionOf(t.db.registry, name) == Some(version) && RecordedVersion(en, t.db) == RecordedVersion(en, s.db)
            && t == State(s.db.(registry := t.db.registry), s.phase)
  {
    RegisteringSetsOneVersion(s.db.registry, name, version, name);
    RegisteringSetsOneVersion(s.db.registry, name, version, en.name);
  }

  /**
   While the entity is up it serves: an append adds its event at the next sequence and
   touches no other stream; a reaction to a decodable view, or to none, moves it one version
   on; and a snapshot reaches the end of its stream.
   */
  lemma {:induction false} UpServes<S, E, C, X>(en: Entity<S, E, C, X>, s: State<S, E, X>, id: ViewId, event: E, at: nat)
    requires s.phase.Up?
    ensures var t := Next(en, s, Append(id, event));
            && t.phase == s.phase && t.db.views == s.db.views && t.db.snapshots == s.db.snapshots && t.db.registry == s.db.registry
            && forall other :: Rows(t.db, other) ==
                 if other == id then Rows(s.db, id) + [Stored(LastSequence(Rows(s.db, id)) + 1, event)] else Rows(s.db, other)
    ensures var t := Next(en, s, React(id, at));
            en.projected && at < |Rows(s.db, id)| && (id in s.db.views ==> s.db.views[id].format == s.phase.code) ==>
              id in t.db.views && t.db.views[id].version == Seen(s.db, id) + 1 && t.db.views[id].format == s.phase.code
              && t.db.views.Keys == s.db.views.Keys + {id} && t.db.events == s.db.events
    ensures var t := Next(en, s, TakeSnapshot(id));
            Rows(s.db, id) != [] && (id in s.db.snapshots ==> s.db.snapshots[id].lastSequence <= LastSequence(Rows(s.db, id))) ==>
              id in t.db.snapshots && t.db.snapshots[id].lastSequence == LastSequence(Rows(s.db, id))
              && t.db.snapshots[id].format == s.phase.code
  {
  }
}

/** Runs in which code versions alternate, with crashes anywhere. */
module SchemaRollback {
  import opened Prelude
  import opened EventTable
  import opened Lifecycles
  import opened Projection
  import Reactions
  import opened SchemaRegistry
  import opened SchemaRecovery

  /** Every view is good in the format it was written in. */
  ghost predicate OwnGood<S, E, C, X>(en: Entity<S, E, C, X>, db: Database<S, E, X>) {
    en.projected ==> forall id :: id in db.views ==> GoodView(en.defs(db.views[id].format), db.views[id].format, Rows(db, id), db.views[id])
  }

  /** Snapshots exist only in the recorded version's format. */
  ghost predicate SnapshotsRecorded<S, E, C, X>(en: Entity<S, E, C, X>, db: Database<S, E, X>) {
    db.snapshots != map[] ==> RecordedVersion(en, db).Some? && SnapshotsGood(en, db, RecordedVersion(en, db).value)
  }

  ghost predicate AnyPhaseInv<S, E, C, X>(en: Entity<S, E, C, X>, s: State<S, E, X>) {
    match s.phase
    case Down => true
    case Up(code) => RecordedVersion(en, s.db) == Some(code)
    case Reconciled(code, changed) => if changed then s.db.snapshots == map[] else RecordedVersion(en, s.db) == Some(code)
    case Recovering(code, _) => s.db.snapshots == map[] || RecordedVersion(en, s.db) == Some(code)
    case Recovered(code) => s.db.snapshots == map[] || RecordedVersion(en, s.db) == Some(code)
  }

  ghost predicate AnyInv<S, E, C, X>(en: Entity<S, E, C, X>, s: State<S, E, X>) {
    AllOrdered(s.db) && OwnGood(en, s.db) && SnapshotsRecorded(en, s.db) && AnyPhaseInv(en, s)
  }

  lemma OneOwnViewChanges<S, E, C, X>(en: Entity<S, E, C, X>, db: Database<S, E, X>, id: ViewId, view: StoredView<S, E, X>)
    requires OwnGood(en, db) && GoodView(en.defs(view.format), view.format, Rows(db, id), view)
    ensures OwnGood(en, db.(views := db.views[id := view]))
  {
  }

  lemma {:induction false} ReplayKeepsAny<S, E, C, X>(en: Entity<S, E, C, X>, s: State<S, E, X>, id: ViewId)
    requires AnyInv(en, s)
    ensures AnyInv(en, Replayed(en, s, id))
    ensures s.phase.Recovering? && id in s.phase.todo && en.projected ==>
              Replayed(en, s, id).db.views == s.db.views[id := FullView(en.defs(s.phase.code), s.phase.code, Rows(s.db, id))]
  {
    if s.phase.Recovering? && id in s.phase.todo && en.projected {
      ReplayedIs(en, s, id);
      OneOwnViewChanges(en, s.db, id, FullView(en.defs(s.phase.code), s.phase.code, Rows(s.db, id)));
    }
  }

  lemma {:induction false} ReactKeepsAny<S, E(!new), C, X>(en: Entity<S, E, C, X>, s: State<S, E, X>, id: ViewId, at: nat)
    requires AnyInv(en, s) && InOrder(s, React(id, at))
    ensures AnyInv(en, Next(en, s, React(id, at)))
  {
    if s.phase.Up? && en.projected {
      var code := s.phase.code;
      InOrderReactionWrites(en, s.db, code, id, at);
      var after := ReactedTo(en, s.db, code, id, at);
      if after != s.db {
        var view :| GoodView(en.defs(code), code, Rows(s.db, id), view) && after == s.db.(views := s.db.views[id := view]);
        OneOwnViewChanges(en, s.db, id, view);
      }
    }
  }

  lemma {:induction false} OwnViewsGrow<S, E, C, X>(en: Entity<S, E, C, X>, db: Database<S, E, X>, id: ViewId, event: E)
    requires AllOrdered(db) && OwnGood(en, db)
    ensures OwnGood(en, Grown(db, id, event))
  {
    if en.projected {
      forall other | other in db.views
        ensures GoodView(en.defs(db.views[other].format), db.views[other].format, Rows(Grown(db, id, event), other), db.views[other])
      {
        AppendKeepsView(en.defs(db.views[other].format), db.views[other].format, db, id, event, other, db.views[other]);
      }
    }
  }

  lemma {:induction false} RecordedSnapshotsGrow<S, E, C, X>(en: Entity<S, E, C, X>, db: Database<S, E, X>, id: ViewId, event: E)
    requires AllOrdered(db) && SnapshotsRecorded(en, db)
    ensures AllOrdered(Grown(db, id, event)) && SnapshotsRecorded(en, Grown(db, id, event))
  {
    var code := if RecordedVersion(en, db).Some? then RecordedVersion(en, db).value else 0;
    AppendKeepsGood(en, db, code, id, event);
  }

  lemma {:induction false} AppendKeepsAny<S, E, C, X>(en: Entity<S, E, C, X>, s: State<S, E, X>, id: ViewId, event: E)
    requires AnyInv(en, s)
    ensures AnyInv(en, Next(en, s, Append(id, event)))
  {
    if s.phase.Up? {
      OwnViewsGrow(en, s.db, id, event);
      RecordedSnapshotsGrow(en, s.db, id, event);
    }
  }

  lemma StartKeepsAny<S, E, C, X>(en: Entity<S, E, C, X>, s: State<S, E, X>, version: nat)
    requires AnyInv(en, s)
    ensures AnyInv(en, Started(en, s, version)) && AnyInv(en, RecoveryBegun(en, s))
  {
  }

  /** A registry that records the same version of this entity changes nothing. */
  lemma RegistryKeepsAny<S, E, C, X>(en: Entity<S, E, C, X>, s: State<S, E, X>, registry: seq<VersionUpdated>)
    requires AnyInv(en, s)
    requires VersionOf(registry, en.name) == RecordedVersion(en, s.db)
    ensures AnyInv(en, State(s.db.(registry := registry), s.phase))
  {
    RegistryIsIrrelevant(en, s.db, registry, if RecordedVersion(en, s.db).Some? then RecordedVersion(en, s.db).value else 0);
    OwnGoodIgnoresRegistry(en, s.db, registry);
  }

  lemma OwnGoodIgnoresRegistry<S, E, C, X>(en: Entity<S, E, C, X>, db: Database<S, E, X>, registry: seq<VersionUpdated>)
    requires OwnGood(en, db)
    ensures OwnGood(en, db.(registry := registry))
  {
    forall id ensures Rows(db.(registry := registry), id) == Rows(db, id) {}
  }

  lemma RecordKeepsAny<S, E, C, X>(en: Entity<S, E, C, X>, s: State<S, E, X>)
    requires AnyInv(en, s)
    ensures AnyInv(en, RecordedNow(en, s))
  {
    if s.phase.Recovered? || s.phase.Recovering? {
      var registry := Registered(s.db.registry, en.name, s.phase.code);
      RegisteringSetsOneVersion(s.db.registry, en.name, s.phase.code, en.name);
      RegistryIsIrrelevant(en, s.db, registry, s.phase.code);
      OwnGoodIgnoresRegistry(en, s.db, registry);
    }
  }

  lemma SnapshotKeepsAny<S, E, C, X>(en: Entity<S, E, C, X>, s: State<S, E, X>, id: ViewId)
    requires AnyInv(en, s)
    ensures AnyInv(en, Next(en, s, TakeSnapshot(id)))
  {
    if s.phase.Up? {
      FullSnapshotIsGood(en.defs(s.phase.code), s.phase.code, Rows(s.db, id));
    }
  }

  lemma {:induction false} NextKeepsAny<S, E(!new), C, X>(en: Entity<S, E, C, X>, s: State<S, E, X>, a: Action<E>)
    requires AnyInv(en, s) && InOrder(s, a)
    ensures AnyInv(en, Next(en, s, a))
  {
    match a
    case Start(version) => StartKeepsAny(en, s, version);
    case BeginRecovery => StartKeepsAny(en, s, 0);
    case ReplayOne(id) => ReplayKeepsAny(en, s, id);
    case Record => RecordKeepsAny(en, s);
    case Crash =>
    case RegisterOther(name, version) =>
      RegisteringSetsOneVersion(s.db.registry, name, version, en.name);
      if name != en.name {
        RegistryKeepsAny(en, s, Registered(s.db.registry, name, version));
      }
    case Append(id, event) => AppendKeepsAny(en, s, id, event);
    case React(id, at) => ReactKeepsAny(en, s, id, at);
    case TakeSnapshot(id) => SnapshotKeepsAny(en, s, id);
  }

  /** Whatever versions start and crash: views stay folds in the format they were written in, snapshots in the recorded one. */
  lemma {:induction false} RunKeepsAny<S, E(!new), C, X>(en: Entity<S, E, C, X>, s: State<S, E, X>, actions: seq<Action<E>>)
    requires AnyInv(en, s) && ReactsInOrder(en, s, actions)
    ensures AnyInv(en, RunFrom(en, s, actions))
  {
    if actions != [] {
      RunKeepsAny(en, s, actions[..|actions| - 1]);
      NextKeepsAny(en, RunFrom(en, s, actions[..|actions| - 1]), actions[|actions| - 1]);
    }
  }

  // ------------------------------------------------------------ one recovery

  /** A view another version wrote up to the very end of its stream. */
  predicate Stranded<S, E, X>(db: Database<S, E, X>, code: nat, id: ViewId) {
    id in db.views && db.views[id].format != code && db.views[id].version == LastSequence(Rows(db, id))
  }

  /** What happens between the start of a recovery and its end. */
  predicate OnlyReplays<E>(actions: seq<Action<E>>) {
    forall k :: 0 <= k < |actions| ==> actions[k].ReplayOne? || actions[k].RegisterOther?
  }

  /** The views of a recovery under way: done ones full, the rest as it found them. */
  ghost predicate Progress<S, E, C, X>(en: Entity<S, E, C, X>, found: Database<S, E, X>, code: nat, t: State<S, E, X>) {
    && t.phase.Recovering? && t.phase.code == code && t.phase.todo <= Stale(found, code)
    && t.db.events == found.events
    && forall id :: StoredAt(t.db, id) ==
         if id in Stale(found, code) && id !in t.phase.todo then Some(FullView(en.defs(code), code, Rows(found, id))) else StoredAt(found, id)
  }

  function StoredAt<S, E, X>(db: Database<S, E, X>, id: ViewId): Option<StoredView<S, E, X>> {
    if id in db.views then Some(db.views[id]) else None
  }

  lemma {:induction false} ReplaysProgress<S, E, C, X>(en: Entity<S, E, C, X>, s: State<S, E, X>, code: nat, actions: seq<Action<E>>)
    requires AnyInv(en, s) && en.projected && s.phase == Recovering(code, Stale(s.db, code)) && OnlyReplays(actions)
    ensures AnyInv(en, RunFrom(en, s, actions)) && Progress(en, s.db, code, RunFrom(en, s, actions))
  {
    if actions != [] {
      var before := actions[..|actions| - 1];
      var a := actions[|actions| - 1];
      ReplaysProgress(en, s, code, before);
      ReplayProgresses(en, s.db, code, RunFrom(en, s, before), a);
    }
  }

  lemma {:induction false} ReplayProgresses<S, E, C, X>(en: Entity<S, E, C, X>, found: Database<S, E, X>, code: nat, t: State<S, E, X>, a: Action<E>)
    requires AnyInv(en, t) && en.projected && Progress(en, found, code, t) && (a.ReplayOne? || a.RegisterOther?)
    ensures AnyInv(en, Next(en, t, a)) && Progress(en, found, code, Next(en, t, a))
  {
    if a.ReplayOne? {
      ReplayKeepsAny(en, t, a.id);
      OneMoreReplayed(en, found, code, t, a.id, Replayed(en, t, a.id));
    } else {
      RegisteringSetsOneVersion(t.db.registry, a.name, a.version, en.name);
      if a.name != en.name {
        RegistryKeepsAny(en, t, Registered(t.db.registry, a.name, a.version));
      }
    }
  }

  lemma OneMoreReplayed<S, E, C, X>(
    en: Entity<S, E, C, X>, found: Database<S, E, X>, code: nat, t: State<S, E, X>, id: ViewId, u: State<S, E, X>)
    requires Progress(en, found, code, t) && u == Replayed(en, t, id)
    requires id in t.phase.todo ==> u.db.views == t.db.views[id := FullView(en.defs(code), code, Rows(t.db, id))]
    ensures Progress(en, found, code, u)
  {
    assert Rows(t.db, id) == Rows(found, id);
    if id in t.phase.todo {
      forall other ensures StoredAt(u.db, other) == if other == id then Some(FullView(en.defs(code), code, Rows(found, id))) else StoredAt(t.db, other) {}
    }
  }

  /** A finished recovery under `code`, from the state it started in to the recording. */
  function Rebuilt<S, E, C, X>(en: Entity<S, E, C, X>, s: State<S, E, X>, code: nat, actions: seq<Action<E>>): State<S, E, X> {
    Next(en, RunFrom(en, Next(en, Next(en, s, Start(code)), BeginRecovery), actions), Record)
  }

  /**
   Starting any version over whatever a run of alternating versions left, the promise is
   restored exactly when no view is stranded: written by another version, up to the end of
   its stream, while this version is the recorded one. Then, and only then, every view is the
   full replay in this version's format.
   */
  lemma {:induction false} RecoveryRestoresExactly<S, E(!new), C, X>(
    en: Entity<S, E, C, X>, s: State<S, E, X>, code: nat, actions: seq<Action<E>>)
    requires AnyInv(en, s) && s.phase.Down? && en.projected && !Unrecoverable(en, s.db, code)
    requires OnlyReplays(actions) && Rebuilt(en, s, code, actions).phase.Up?
    ensures var t := Rebuilt(en, s, code, actions);
            var sound := RecordedVersion(en, s.db) != Some(code) || forall id :: !Stranded(s.db, code, id);
            && t.phase == Up(code) && RecordedVersion(en, t.db) == Some(code)
            && (Promised(en, t.db, code) <==> sound)
            && (sound ==> ViewsFull(en, t.db, code, {}))
  {
    var begun := Next(en, Next(en, s, Start(code)), BeginRecovery);
    NextKeepsAny(en, s, Start(code));
    NextKeepsAny(en, Next(en, s, Start(code)), BeginRecovery);
    ReplaysProgress(en, begun, code, actions);
    var done := RunFrom(en, begun, actions);
    NextKeepsAny(en, done, Record);
    RegisteringSetsOneVersion(done.db.registry, en.name, code, en.name);
    RecoveredViewsExactly(en, begun.db, code, done);
  }

  /** The views a finished recovery leaves are all good exactly when it found none stranded. */
  lemma {:induction false} RecoveredViewsExactly<S, E, C, X>(en: Entity<S, E, C, X>, found: Database<S, E, X>, code: nat, t: State<S, E, X>)
    requires AllOrdered(found) && OwnGood(en, found) && en.projected && Progress(en, found, code, t) && t.phase.todo == {}
    ensures ViewsGood(en, t.db, code) <==> forall id :: !Stranded(found, code, id)
    ensures (forall id :: !Stranded(found, code, id)) ==> ViewsFull(en, t.db, code, {})
  {
    forall id ensures id in t.db.views ==> (GoodView(en.defs(code), code, Rows(t.db, id), t.db.views[id]) <==> !Stranded(found, code, id))
              ensures Stranded(found, code, id) ==> id in t.db.views
    {
      RecoveredViewExactly(en, found, code, t, id);
    }
    if forall id :: !Stranded(found, code, id) {
      forall id | id in t.db.events && t.db.events[id] != []
        ensures id in t.db.views && t.db.views[id] == FullView(en.defs(code), code, t.db.events[id])
      {
        RecoveredViewExactly(en, found, code, t, id);
      }
    }
  }

  lemma {:induction false} RecoveredViewExactly<S, E, C, X>(en: Entity<S, E, C, X>, found: Database<S, E, X>, code: nat, t: State<S, E, X>, id: ViewId)
    requires AllOrdered(found) && OwnGood(en, found) && en.projected && Progress(en, found, code, t) && t.phase.todo == {}
    ensures id in t.db.views ==> (GoodView(en.defs(code), code, Rows(t.db, id), t.db.views[id]) <==> !Stranded(found, code, id))
    ensures Stranded(found, code, id) ==> id in t.db.views
    ensures Rows(t.db, id) != [] && !Stranded(found, code, id) ==>
              id in t.db.views && t.db.views[id] == FullView(en.defs(code), code, Rows(t.db, id))
  {
    var rows := Rows(found, id);
    assert Rows(t.db, id) == rows && StreamRows(rows);
    WholeUpToLast(rows);
    assert StoredAt(t.db, id) == if id in Stale(found, code) then Some(FullView(en.defs(code), code, rows)) else StoredAt(found, id);
    if id !in Stale(found, code) && id in found.views {
      assert GoodView(en.defs(found.views[id].format), found.views[id].format, rows, found.views[id]);
      assert found.views[id].version == LastSequence(rows);
    }
  }

  /** An empty database of a process that is not running. */
  function NewDatabase<S, E, X>(): State<S, E, X> {
    State(Database(map[], map[], map[], []), Down)
  }

  /**
   Over every run from an empty database, through any versions, crashes and half-finished
   recoveries: the next start of any version that finishes restores that version's promise
   exactly when another version is recorded or the run left no view stranded for it.
   */
  lemma {:induction false} EveryRestartRestoresExactly<S, E(!new), C, X>(
    en: Entity<S, E, C, X>, run: seq<Action<E>>, code: nat, replays: seq<Action<E>>)
    requires en.projected && ReactsInOrder(en, NewDatabase(), run + [Crash]) && OnlyReplays(replays)
    requires var s := RunFrom(en, NewDatabase(), run + [Crash]);
             !Unrecoverable(en, s.db, code) && Rebuilt(en, s, code, replays).phase.Up?
    ensures var s := RunFrom(en, NewDatabase(), run + [Crash]);
            var t := Rebuilt(en, s, code, replays);
            && s.phase.Down? && t.phase == Up(code)
            && (Promised(en, t.db, code) <==>
                  RecordedVersion(en, s.db) != Some(code) || forall id :: !Stranded(s.db, code, id))
  {
    RunKeepsAny(en, NewDatabase(), run + [Crash]);
    RecoveryRestoresExactly(en, RunFrom(en, NewDatabase(), run + [Crash]), code, replays);
  }

  // ------------------------------------------------------------ the exception

  const ONE_EVENT: seq<Stored<int>> := [Stored(1, 10)]

  const JOURNALS: Entity<seq<int>, int, int, int> := Entity((v: nat) => Reactions.JOURNAL, "journal", false, true)

  const HONEST_DB: Database<seq<int>, int, int> :=
    Database(map["a" := ONE_EVENT], map["a" := StoredView(1, 1, Live([10]))], map[], [VersionUpdated("journal", 1)])

  /** Version 2 starts on a database recorded at 1, rewrites the one view, and crashes before recording. */
  const MIDWAY := Next(JOURNALS, Next(JOURNALS, Next(JOURNALS, Next(JOURNALS, State(HONEST_DB, Down), Start(2)), BeginRecovery), ReplayOne("a")), Crash)

  /** A crash in the middle of another version's recovery leaves a stranded view, and the recorded version cannot heal it. */
  lemma RollbackMidwayStrandsAView()
    ensures Promised(JOURNALS, HONEST_DB, 1) && Stranded(MIDWAY.db, 1, "a")
    ensures var s := Rebuilt(JOURNALS, MIDWAY, 1, []);
            && s.phase == Up(1) && RecordedVersion(JOURNALS, s.db) == Some(1)
            && !Promised(JOURNALS, s.db, 1)
            && Decoded(s.db, 1, "a") == Some(View(1, None))
  {
    assert Events(ONE_EVENT) == [10] && [10][..0] == [];
    WholeUpToLast(ONE_EVENT);
    assert VersionOf(HONEST_DB.registry, "journal") == Some(1);
    MidwayLeavesAForeignView();
    var back := Next(JOURNALS, Next(JOURNALS, MIDWAY, Start(1)), BeginRecovery);
    assert back.phase == Recovering(1, {});
    var s := Next(JOURNALS, back, Record);
    assert !GoodView(Reactions.JOURNAL, 1, ONE_EVENT, s.db.views["a"]);
  }

  lemma MidwayLeavesAForeignView()
    ensures MIDWAY.phase == Down && MIDWAY.db.events == HONEST_DB.events
    ensures RecordedVersion(JOURNALS, MIDWAY.db) == Some(1)
    ensures MIDWAY.db.views.Keys == {"a"} && MIDWAY.db.views["a"].format == 2 && MIDWAY.db.views["a"].version == 1
  {
    assert VersionOf(HONEST_DB.registry, "journal") == Some(1);
    var begun := Next(JOURNALS, Next(JOURNALS, State(HONEST_DB, Down), Start(2)), BeginRecovery);
    assert begun.phase == Recovering(2, {"a"});
    AllAfter(ONE_EVENT, 0);
  }
}
