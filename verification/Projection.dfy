/**
 Materialized views: one row per aggregate holding the lifecycle folded from the
 aggregate's events, advanced by a reactor one event at a time and healed at
 startup by `catch_up` or `rebuild_all`.
 */
module Projection {
  import opened Prelude
  import opened EventTable
  import opened Lifecycles

  /** `payload` is `None` when the stored text no longer decodes. */
  datatype View<+S, +E, +X> = View(version: nat, payload: Option<Lifecycle<S, E, X>>)

  /** `WHERE sequence <= through ORDER BY sequence`. */
  function UpTo<E>(rows: seq<Stored<E>>, through: nat): seq<Stored<E>> {
    if rows == [] then []
    else if rows[0].sequence <= through then [rows[0]] + UpTo(rows[1..], through)
    else UpTo(rows[1..], through)
  }

  /** Whether startup has to revisit a view: no row, or a row behind the log. */
  predicate Behind<S, E, X>(rows: seq<Stored<E>>, view: Option<View<S, E, X>>) {
    rows != [] && (view.None? || LastSequence(rows) > view.value.version)
  }

  /** What replaying the missed events writes. An undecodable payload restarts from the first event. */
  function CaughtUp<S, E, C, X>(def: EventSourced<S, E, C, X>, rows: seq<Stored<E>>, view: Option<View<S, E, X>>)
    : View<S, E, X>
  {
    match view
    case Some(View(version, Some(lifecycle))) =>
      View(LastSequence(rows), Some(Fold(def, lifecycle, Events(After(rows, version)))))
    case _ => View(LastSequence(rows), Some(Replay(def, Events(After(rows, 0)))))
  }

  /** The whole stream folded: what a view is meant to hold. */
  function FullReplay<S, E, C, X>(def: EventSourced<S, E, C, X>, rows: seq<Stored<E>>): View<S, E, X> {
    View(LastSequence(rows), Some(Replay(def, Events(rows))))
  }

  /** A decodable view is the fold of the events up to its version. */
  ghost predicate PrefixFold<S, E, C, X>(def: EventSourced<S, E, C, X>, rows: seq<Stored<E>>, view: View<S, E, X>) {
    view.payload.Some? ==> view.payload.value == Replay(def, Events(UpTo(rows, view.version)))
  }

  /** What the reactor writes for one event: the loaded view plus that event, one version up. */
  function Reacted<S, E, C, X>(def: EventSourced<S, E, C, X>, seen: Option<View<S, E, X>>, event: E): Option<View<S, E, X>> {
    match seen
    case None => Some(View(1, Some(Applied(def, Uninitialized, event))))
    case Some(View(version, Some(lifecycle))) => Some(View(version + 1, Some(Applied(def, lifecycle, event))))
    case Some(View(_, None)) => None
  }

  lemma {:induction false} SplitAtVersion<E>(rows: seq<Stored<E>>, version: nat)
    requires Ordered(rows)
    ensures rows == UpTo(rows, version) + After(rows, version)
  {
    if rows != [] {
      SplitAtVersion(rows[1..], version);
      if rows[0].sequence > version {
        NoneUpTo(rows, version);
      }
    }
  }

  lemma {:induction false} NoneUpTo<E>(rows: seq<Stored<E>>, version: nat)
    requires Ordered(rows)
    requires rows != [] ==> version < rows[0].sequence
    ensures UpTo(rows, version) == []
  {
    if rows != [] {
      NoneUpTo(rows[1..], version);
    }
  }

  lemma {:induction false} NoneAfterLast<E>(rows: seq<Stored<E>>, version: nat)
    requires Ordered(rows) && LastSequence(rows) <= version
    ensures After(rows, version) == []
  {
    if rows != [] {
      assert LastSequence(rows[1..]) <= version;
      NoneAfterLast(rows[1..], version);
    }
  }

  lemma {:induction false} UpToConcat<E>(first: seq<Stored<E>>, second: seq<Stored<E>>, through: nat)
    ensures UpTo(first + second, through) == UpTo(first, through) + UpTo(second, through)
  {
    if first == [] {
      assert first + second == second;
    } else {
      assert (first + second)[1..] == first[1..] + second;
      UpToConcat(first[1..], second, through);
    }
  }

  /** One sequence further is one row more, if there is a row at that sequence. */
  lemma {:induction false} UpToNext<E>(rows: seq<Stored<E>>, n: nat, event: E)
    requires Ordered(rows)
    ensures Stored(n + 1, event) in rows ==> UpTo(rows, n + 1) == UpTo(rows, n) + [Stored(n + 1, event)]
    ensures !Holds(rows, n + 1) ==> UpTo(rows, n + 1) == UpTo(rows, n)
  {
    if rows != [] {
      UpToNext(rows[1..], n, event);
      if rows[0].sequence == n + 1 {
        NoneUpTo(rows, n);
        NoneUpTo(rows[1..], n + 1);
      } else {
        assert Stored(n + 1, event) in rows ==> Stored(n + 1, event) in rows[1..];
        assert !Holds(rows, n + 1) ==> !Holds(rows[1..], n + 1);
      }
    }
  }

  lemma EventsConcat<E>(first: seq<Stored<E>>, second: seq<Stored<E>>)
    ensures Events(first + second) == Events(first) + Events(second)
  {
  }

  /** Replaying what was missed, over any sequence gaps, equals replaying everything. */
  lemma CatchingUpIsFullReplay<S, E, C, X>(
    def: EventSourced<S, E, C, X>, rows: seq<Stored<E>>, view: Option<View<S, E, X>>)
    requires Ordered(rows)
    requires view.Some? ==> PrefixFold(def, rows, view.value)
    requires forall i :: 0 <= i < |rows| ==> rows[i].sequence >= 1
    ensures CaughtUp(def, rows, view) == FullReplay(def, rows)
  {
    var from := if view.Some? && view.value.payload.Some? then view.value.version else 0;
    SplitAtVersion(rows, from);
    EventsConcat(UpTo(rows, from), After(rows, from));
    FoldConcat(def, Uninitialized, Events(UpTo(rows, from)), Events(After(rows, from)));
    if from == 0 {
      NoneUpTo(rows, 0);
    }
  }

  lemma {:induction false} UpToDense<E>(rows: seq<Stored<E>>, n: nat)
    requires Dense(rows) && n <= |rows|
    ensures UpTo(rows, n) == rows[..n]
    ensures After(rows, n) == rows[n..]
  {
    UpToSlice(rows, rows, n, 0);
    assert rows[0..] == rows;
  }

  lemma {:induction false} UpToSlice<E>(all: seq<Stored<E>>, rows: seq<Stored<E>>, n: nat, k: nat)
    requires Dense(all) && n <= |all| && k <= |all| && rows == all[k..]
    ensures UpTo(rows, n) == if k <= n then all[k..n] else []
    ensures After(rows, n) == if k <= n then all[n..] else all[k..]
    decreases |all| - k
  {
    if k < |all| {
      assert rows[1..] == all[k + 1..];
      UpToSlice(all, rows[1..], n, k + 1);
    }
  }

  lemma DenseIsOrdered<E>(rows: seq<Stored<E>>)
    requires Dense(rows)
    ensures Ordered(rows)
  {
  }

  // ------------------------------------------------------------ startup healing

  /** What `catch_up` leaves for one aggregate. */
  function Healed<S, E, C, X>(def: EventSourced<S, E, C, X>, rows: seq<Stored<E>>, view: Option<View<S, E, X>>): Option<View<S, E, X>> {
    if Behind(rows, view) then Some(CaughtUp(def, rows, view)) else view
  }

  /**
   Starting from a view no further than its stream that is missing, undecodable or a
   prefix fold, healing gives the fold of every event at the last sequence, except
   exactly for a current view whose payload does not decode, which nothing revisits.
   */
  lemma HealedExactly<S, E, C, X>(def: EventSourced<S, E, C, X>, rows: seq<Stored<E>>, view: Option<View<S, E, X>>)
    requires StreamRows(rows) && rows != []
    requires view.Some? ==> PrefixFold(def, rows, view.value) && view.value.version <= LastSequence(rows)
    ensures Healed(def, rows, view) == Some(FullReplay(def, rows)) <==>
              !(view.Some? && view.value == View(LastSequence(rows), None))
  {
    CatchingUpIsFullReplay(def, rows, view);
    if !Behind(rows, view) {
      WholeUpToLast(rows);
    }
  }

  lemma {:induction false} WholeUpToLast<E>(rows: seq<Stored<E>>)
    requires Ordered(rows)
    ensures UpTo(rows, LastSequence(rows)) == rows
  {
    SplitAtVersion(rows, LastSequence(rows));
    NoneAfterLast(rows, LastSequence(rows));
    assert UpTo(rows, LastSequence(rows)) + [] == UpTo(rows, LastSequence(rows));
  }

  /** A second run finds nothing to do. */
  lemma HealingIsIdempotent<S, E, C, X>(def: EventSourced<S, E, C, X>, rows: seq<Stored<E>>, view: Option<View<S, E, X>>)
    ensures Healed(def, rows, Healed(def, rows, view)) == Healed(def, rows, view)
    ensures !Behind(rows, Healed(def, rows, view))
  {
  }

  /** A deleted view always heals to the full replay. */
  lemma HealedFromNothing<S, E, C, X>(def: EventSourced<S, E, C, X>, rows: seq<Stored<E>>)
    requires StreamRows(rows)
    ensures Healed<S, E, C, X>(def, rows, None) == if rows == [] then None else Some(FullReplay(def, rows))
  {
    if rows != [] {
      CatchingUpIsFullReplay<S, E, C, X>(def, rows, None);
    }
  }

  type ViewId = string

  /**
   A view table over the events table it is derived from. `malformed` are the events
   whose stored payload does not decode.
   */
  class ViewTable<S, E, C, X> {
    const def: EventSourced<S, E, C, X>
    const events: map<ViewId, seq<Stored<E>>>
    const malformed: set<(ViewId, nat)>
    var views: map<ViewId, View<S, E, X>>

    constructor (def: EventSourced<S, E, C, X>, events: map<ViewId, seq<Stored<E>>>, malformed: set<(ViewId, nat)>, views: map<ViewId, View<S, E, X>>)
      ensures this.def == def && this.events == events && this.malformed == malformed && this.views == views
    {
      this.def, this.events, this.malformed, this.views := def, events, malformed, views;
    }

    function RowsOf(id: ViewId): seq<Stored<E>> {
      if id in events then events[id] else []
    }

    /** What replaying this view would have to read. */
    function Missed(id: ViewId, view: Option<View<S, E, X>>): seq<Stored<E>> {
      After(RowsOf(id), if view.Some? && view.value.payload.Some? then view.value.version else 0)
    }

    predicate Decodes(id: ViewId, rows: seq<Stored<E>>) {
      forall i :: 0 <= i < |rows| ==> (id, rows[i].sequence) !in malformed
    }

    /** Replays the events one view missed and overwrites its row, or stops at a malformed payload. */
    method ReplayMissedEvents(id: ViewId) returns (replayed: bool)
      modifies `views
      ensures replayed <==> Decodes(id, Missed(id, ViewAt(old(views), id)))
      ensures views == if replayed then old(views)[id := CaughtUp(def, RowsOf(id), ViewAt(old(views), id))] else old(views)
    {
      var lifecycle, from := Uninitialized, 0;
      if id in views && views[id].payload.Some? {
        lifecycle, from := views[id].payload.value, views[id].version;
      }
      ghost var start := lifecycle;
      var missed := After(RowsOf(id), from);
      assert missed == Missed(id, ViewAt(views, id));
      var k := 0;
      while k < |missed|
        invariant 0 <= k <= |missed|
        invariant lifecycle == Fold(def, start, Events(missed)[..k])
        invariant forall i :: 0 <= i < k ==> (id, missed[i].sequence) !in malformed
      {
        if (id, missed[k].sequence) in malformed {
          return false;
        }
        assert Events(missed)[..k + 1][..k] == Events(missed)[..k];
        lifecycle := Applied(def, lifecycle, missed[k].event);
        k := k + 1;
      }
      assert Events(missed)[..k] == Events(missed);
      views := views[id := View(LastSequence(RowsOf(id)), Some(lifecycle))];
      return true;
    }

    /** Heals every view that is missing or behind; stops at the first that cannot be replayed. */
    method CatchUp() returns (caughtUp: bool)
      modifies `views
      ensures forall id :: id !in events ==> ViewAt(views, id) == ViewAt(old(views), id)
      ensures caughtUp <==> forall id :: Replayable(old(views), id)
      ensures caughtUp ==> forall id :: id in events ==> ViewAt(views, id) == Healed(def, events[id], ViewAt(old(views), id))
      // What a failed run did is part of the same healing.
      ensures forall id :: id in events ==>
                || ViewAt(views, id) == ViewAt(old(views), id)
                || ViewAt(views, id) == Healed(def, events[id], ViewAt(old(views), id))
    {
      var stale := set id | id in events && Behind(events[id], ViewAt(views, id));
      while stale != {}
        invariant forall id :: id in stale ==> id in events && Behind(events[id], ViewAt(old(views), id))
        invariant forall id :: HealedUnless(old(views), views, id, id in stale)
        decreases |stale|
      {
        var id :| id in stale;
        assert HealedUnless(old(views), views, id, true);
        var replayed := ReplayMissedEvents(id);
        if !replayed {
          assert !Replayable(old(views), id);
          forall other | other in events
            ensures ViewAt(views, other) == ViewAt(old(views), other) || ViewAt(views, other) == Healed(def, events[other], ViewAt(old(views), other))
          {
            assert HealedUnless(old(views), views, other, other in stale);
          }
          return false;
        }
        stale := stale - {id};
      }
      forall id ensures Replayable(old(views), id)
                ensures id in events ==> ViewAt(views, id) == Healed(def, events[id], ViewAt(old(views), id))
      {
        assert HealedUnless(old(views), views, id, id in stale);
      }
      return true;
    }

    /** A view that is not behind, or whose missed events all decode. */
    predicate Replayable(views: map<ViewId, View<S, E, X>>, id: ViewId) {
      id in events && Behind(events[id], ViewAt(views, id)) ==> Decodes(id, Missed(id, ViewAt(views, id)))
    }

    /** A view before and after part of a run: untouched while pending, healed and decodable once done. */
    ghost predicate HealedUnless(before: map<ViewId, View<S, E, X>>, now: map<ViewId, View<S, E, X>>, id: ViewId, pending: bool) {
      if id !in events || pending then ViewAt(now, id) == ViewAt(before, id)
      else
        && ViewAt(now, id) == Healed(def, events[id], ViewAt(before, id))
        && Replayable(before, id)
    }

    /** Deletes every row and replays all history: afterwards the table is exactly the full replays. */
    method RebuildAll() returns (rebuilt: bool)
      requires forall id :: id in events ==> StreamRows(events[id])
      modifies `views
      ensures rebuilt <==> forall id :: id in events ==> Decodes(id, events[id])
      ensures rebuilt ==> forall id :: ViewAt(views, id) == if RowsOf(id) == [] then None else Some(FullReplay(def, RowsOf(id)))
    {
      views := map[];
      rebuilt := CatchUp();
      forall id | id in events
        ensures Healed<S, E, C, X>(def, events[id], None) == if events[id] == [] then None else Some(FullReplay(def, events[id]))
        ensures Replayable(map[], id) <==> Decodes(id, events[id])
      {
        HealedFromNothing(def, events[id]);
        AllAfter(events[id], 0);
      }
    }

    /** Deletes one row and catches up. */
    method Rebuild(id: ViewId) returns (rebuilt: bool)
      requires StreamRows(RowsOf(id))
      modifies `views
      ensures rebuilt ==> ViewAt(views, id) == if RowsOf(id) == [] then None else Some(FullReplay(def, RowsOf(id)))
      ensures rebuilt ==> forall other :: other != id && other in events ==>
                ViewAt(views, other) == Healed(def, events[other], ViewAt(old(views), other))
    {
      views := map other | other in views && other != id :: views[other];
      HealedFromNothing(def, RowsOf(id));
      rebuilt := CatchUp();
    }
  }

  function ViewAt<S, E, X>(views: map<ViewId, View<S, E, X>>, id: ViewId): Option<View<S, E, X>> {
    if id in views then Some(views[id]) else None
  }
}

/**
 The reactor of one view: each reaction loads the row, applies its event and saves under
 the loaded version; a save that misses is retried with a new load, or given up. Which
 events are saved, and in what order, is not checked anywhere.
 */
module Reactions {
  import opened Prelude
  import opened EventTable
  import opened Lifecycles
  import opened Projection

  /** A reaction between its load and its save. */
  datatype Reacting<+S, +E, +X> = Reacting(event: E, seen: Option<View<S, E, X>>)

  /** `saved` is the history of reactions whose save went through. */
  datatype Reactor<+S, +E, +X> = Reactor(view: Option<View<S, E, X>>, loads: seq<Reacting<S, E, X>>, saved: seq<E>)

  datatype Step<+E> = LoadFor(event: E) | Save(load: nat)

  function Next<S, E, C, X>(def: EventSourced<S, E, C, X>, s: Reactor<S, E, X>, a: Step<E>): Reactor<S, E, X> {
    match a
    case LoadFor(event) => s.(loads := s.loads + [Reacting(event, s.view)])
    case Save(i) =>
      if i >= |s.loads| then s
      else
        var load := s.loads[i];
        // An insert needs the row absent, an update needs the loaded version.
        var misses := if load.seen.None? then s.view.Some? else s.view.None? || s.view.value.version != load.seen.value.version;
        var next := Reacted(def, load.seen, load.event);
        if misses || next.None? then s else s.(view := next, saved := s.saved + [load.event])
  }

  /** Reactions start on the view startup left: the fold of the rows it found, with any gaps between them. */
  function Run<S, E, C, X>(def: EventSourced<S, E, C, X>, base: seq<Stored<E>>, steps: seq<Step<E>>): Reactor<S, E, X> {
    if steps == [] then Reactor(ViewOf(def, base, []), [], [])
    else Next(def, Run(def, base, steps[..|steps| - 1]), steps[|steps| - 1])
  }

  /** The view of some rows and then of some events, one version each. */
  function ViewOf<S, E, C, X>(def: EventSourced<S, E, C, X>, base: seq<Stored<E>>, saved: seq<E>): Option<View<S, E, X>> {
    if base == [] && saved == [] then None
    else Some(View(LastSequence(base) + |saved|, Some(Replay(def, Events(base) + saved))))
  }

  lemma ViewFromNothing<S, E, C, X>(def: EventSourced<S, E, C, X>, saved: seq<E>)
    requires saved != []
    ensures ViewOf(def, [], saved) == Some(View(|saved|, Some(Replay(def, saved))))
  {
    assert Events<E>([]) + saved == saved;
  }

  lemma ReactingToOneMore<S, E, C, X>(def: EventSourced<S, E, C, X>, base: seq<Stored<E>>, saved: seq<E>, event: E)
    ensures Reacted(def, ViewOf(def, base, saved), event) == ViewOf(def, base, saved + [event])
  {
    FoldSnoc(def, Uninitialized, Events(base) + saved, event);
    assert Events(base) + saved + [event] == Events(base) + (saved + [event]);
  }

  ghost predicate SawAPrefix<S, E, C, X>(def: EventSourced<S, E, C, X>, base: seq<Stored<E>>, saved: seq<E>, seen: Option<View<S, E, X>>) {
    exists n :: 0 <= n <= |saved| && seen == ViewOf(def, base, saved[..n])
  }

  ghost predicate Inv<S, E, C, X>(def: EventSourced<S, E, C, X>, base: seq<Stored<E>>, s: Reactor<S, E, X>) {
    && s.view == ViewOf(def, base, s.saved)
    && forall i :: 0 <= i < |s.loads| ==> SawAPrefix(def, base, s.saved, s.loads[i].seen)
  }

  lemma {:induction false} SeenSurvives<S, E, C, X>(
    def: EventSourced<S, E, C, X>, base: seq<Stored<E>>, saved: seq<E>, event: E, seen: Option<View<S, E, X>>)
    requires SawAPrefix(def, base, saved, seen)
    ensures SawAPrefix(def, base, saved + [event], seen)
  {
    var n :| 0 <= n <= |saved| && seen == ViewOf(def, base, saved[..n]);
    assert (saved + [event])[..n] == saved[..n];
  }

  lemma {:induction false} NextKeepsInv<S, E, C, X>(def: EventSourced<S, E, C, X>, base: seq<Stored<E>>, s: Reactor<S, E, X>, a: Step<E>)
    requires Inv(def, base, s)
    ensures Inv(def, base, Next(def, s, a))
  {
    var t := Next(def, s, a);
    match a
    case LoadFor(event) =>
      assert s.saved[..|s.saved|] == s.saved;
      assert SawAPrefix(def, base, s.saved, s.view);
    case Save(i) =>
      if t != s {
        var load := s.loads[i];
        var n :| 0 <= n <= |s.saved| && load.seen == ViewOf(def, base, s.saved[..n]);
        assert s.saved[..|s.saved|] == s.saved;
        ReactingToOneMore(def, base, s.saved, load.event);
        forall k | 0 <= k < |t.loads| ensures SawAPrefix(def, base, t.saved, t.loads[k].seen) {
          SeenSurvives(def, base, s.saved, load.event, s.loads[k].seen);
        }
      }
  }

  /**
   Over every interleaving of loads, saves, conflicts, retries and losses, the view is the
   fold of what startup found and then of exactly the events saved, in the order they were
   saved, and counts them.
   */
  lemma {:induction false} ViewFoldsWhatWasSaved<S, E, C, X>(def: EventSourced<S, E, C, X>, base: seq<Stored<E>>, steps: seq<Step<E>>)
    ensures Inv(def, base, Run(def, base, steps))
    ensures Run(def, base, steps).view == ViewOf(def, base, Run(def, base, steps).saved)
  {
    if steps != [] {
      ViewFoldsWhatWasSaved(def, base, steps[..|steps| - 1]);
      NextKeepsInv(def, base, Run(def, base, steps[..|steps| - 1]), steps[|steps| - 1]);
    }
  }

  /** A reaction nobody comes in between is saved: the view folds one more event, at one more version. */
  lemma {:induction false} UnracedReactionIsSaved<S, E, C, X>(def: EventSourced<S, E, C, X>, base: seq<Stored<E>>, steps: seq<Step<E>>, event: E)
    ensures var s := Run(def, base, steps);
            var t := Next(def, Next(def, s, LoadFor(event)), Save(|s.loads|));
            t.saved == s.saved + [event] && t.view == ViewOf(def, base, s.saved + [event])
  {
    ViewFoldsWhatWasSaved(def, base, steps);
    ReactingToOneMore(def, base, Run(def, base, steps).saved, event);
  }

  // ------------------------------------------------- which views are right

  /** The saved events are the next ones, in order, and the rows they come from have no gap. */
  ghost predicate Follows<E>(later: seq<Stored<E>>, from: nat, saved: seq<E>) {
    |saved| <= |later| && forall i :: 0 <= i < |saved| ==> later[i] == Stored(from + i + 1, saved[i])
  }

  /** As many rows as sequences leave no gap. */
  lemma {:induction false} TightRows<E>(rows: seq<Stored<E>>, from: nat)
    requires Ordered(rows) && forall i :: 0 <= i < |rows| ==> from < rows[i].sequence <= from + |rows|
    ensures EventsFollow(rows, from)
  {
    if rows != [] {
      var last := |rows| - 1;
      forall i | 0 <= i < last ensures rows[..last][i].sequence <= from + last {
        assert rows[i].sequence < rows[last].sequence;
      }
      TightRows(rows[..last], from);
      assert last > 0 ==> rows[..last][last - 1].sequence == from + last;
    }
  }

  lemma {:induction false} UpToBounds<E>(rows: seq<Stored<E>>, through: nat)
    ensures forall i :: 0 <= i < |UpTo(rows, through)| ==> UpTo(rows, through)[i].sequence <= through
    ensures forall i :: 0 <= i < |After(rows, through)| ==> After(rows, through)[i].sequence > through
  {
    if rows != [] {
      UpToBounds(rows[1..], through);
    }
  }

  lemma {:induction false} FollowsExactly<E>(later: seq<Stored<E>>, from: nat, saved: seq<E>)
    requires Ordered(later) && forall i :: 0 <= i < |later| ==> later[i].sequence > from
    ensures Events(UpTo(later, from + |saved|)) == saved <==> Follows(later, from, saved)
  {
    var seen, rest := UpTo(later, from + |saved|), After(later, from + |saved|);
    SplitAtVersion(later, from + |saved|);
    UpToBounds(later, from + |saved|);
    assert forall i :: 0 <= i < |seen| ==> later[i] == seen[i];
    if Events(seen) == saved {
      TightRows(seen, from);
    }
    if Follows(later, from, saved) {
      SeenWhenFollowing(from, saved, seen, rest);
    }
  }

  lemma SeenWhenFollowing<E>(from: nat, saved: seq<E>, seen: seq<Stored<E>>, rest: seq<Stored<E>>)
    requires Follows(seen + rest, from, saved) && Ordered(seen + rest)
    requires forall i :: 0 <= i < |seen| ==> from < seen[i].sequence <= from + |saved|
    requires forall i :: 0 <= i < |rest| ==> rest[i].sequence > from + |saved|
    ensures Events(seen) == saved
  {
    var later, n := seen + rest, |saved|;
    assert forall i :: 0 <= i < |seen| ==> later[i] == seen[i];
    assert rest != [] ==> later[|seen|] == rest[0];
    if seen != [] {
      OrderedLength(seen, from);
    }
  }

  lemma PartsOrdered<E>(base: seq<Stored<E>>, later: seq<Stored<E>>)
    requires StreamRows(base + later)
    ensures Ordered(base) && Ordered(later)
    ensures forall i :: 0 <= i < |base| ==> base[i].sequence <= LastSequence(base)
    ensures forall i :: 0 <= i < |later| ==> later[i].sequence > LastSequence(base)
  {
    var rows := base + later;
    assert forall i :: 0 <= i < |base| ==> base[i] == rows[i];
    assert forall i :: 0 <= i < |later| ==> later[i] == rows[|base| + i];
  }

  /** The rows a view that has saved that many events should have folded. */
  lemma {:induction false} UpToSaved<E>(base: seq<Stored<E>>, later: seq<Stored<E>>, count: nat)
    requires StreamRows(base + later)
    ensures var through := LastSequence(base) + count;
            && UpTo(base + later, through) == base + UpTo(later, through)
            && After(base + later, through) == After(later, through)
  {
    var through := LastSequence(base) + count;
    PartsOrdered(base, later);
    UpToConcat(base, later, through);
    SplitAtVersion(base, through);
    NoneAfterLast(base, through);
    assert UpTo(base, through) + [] == UpTo(base, through);
    SkipLow(base, later, through);
  }

  /**
   So a view is a prefix fold when the saved events are the next of its stream, in order
   and without a gap; and for an entity whose state tells event lists apart, only then.
   */
  lemma {:induction false} PrefixFoldExactly<S, E(!new), C, X>(
    def: EventSourced<S, E, C, X>, base: seq<Stored<E>>, later: seq<Stored<E>>, saved: seq<E>)
    requires StreamRows(base + later) && ViewOf(def, base, saved).Some?
    ensures Follows(later, LastSequence(base), saved) ==> PrefixFold(def, base + later, ViewOf(def, base, saved).value)
    ensures Separates(def) && PrefixFold(def, base + later, ViewOf(def, base, saved).value) ==> Follows(later, LastSequence(base), saved)
  {
    SeenExactly(base, later, saved);
  }

  /** The rows up to the view's version are those it folded exactly when the saved events follow. */
  lemma {:induction false} SeenExactly<E>(base: seq<Stored<E>>, later: seq<Stored<E>>, saved: seq<E>)
    requires StreamRows(base + later)
    ensures Events(UpTo(base + later, LastSequence(base) + |saved|)) == Events(base) + saved <==> Follows(later, LastSequence(base), saved)
  {
    var from := LastSequence(base);
    var seen := UpTo(later, from + |saved|);
    PartsOrdered(base, later);
    UpToSaved(base, later, |saved|);
    EventsConcat(base, seen);
    FollowsExactly(later, from, saved);
    SameTail(Events(base), Events(seen), saved);
  }

  lemma SameTail<E>(front: seq<E>, first: seq<E>, second: seq<E>)
    ensures front + first == front + second <==> first == second
  {
    assert first == (front + first)[|front|..] && second == (front + second)[|front|..];
  }

  /** Startup heals such a view, whatever was lost at its end; and, telling lists apart, no other. */
  lemma {:induction false} HealsExactly<S, E(!new), C, X>(
    def: EventSourced<S, E, C, X>, base: seq<Stored<E>>, later: seq<Stored<E>>, saved: seq<E>)
    requires StreamRows(base + later) && base + later != []
    ensures var healed := Healed(def, base + later, ViewOf(def, base, saved));
            && (Follows(later, LastSequence(base), saved) ==> healed == Some(FullReplay(def, base + later)))
            && (Separates(def) && healed == Some(FullReplay(def, base + later)) ==> Follows(later, LastSequence(base), saved))
  {
    if base == [] && saved == [] {
      HealedFromNothing(def, base + later);
    } else {
      if Follows(later, LastSequence(base), saved) {
        PrefixFoldExactly(def, base, later, saved);
        ReachedByFollowing(base, later, saved);
        HealedExactly(def, base + later, ViewOf(def, base, saved));
      }
      if Separates(def) && Healed(def, base + later, ViewOf(def, base, saved)) == Some(FullReplay(def, base + later)) {
        OnlyFollowingHeals(def, base, later, saved);
      }
    }
  }

  lemma ReachedByFollowing<E>(base: seq<Stored<E>>, later: seq<Stored<E>>, saved: seq<E>)
    requires StreamRows(base + later) && Follows(later, LastSequence(base), saved)
    ensures LastSequence(base) + |saved| <= LastSequence(base + later)
  {
    var rows := base + later;
    if saved != [] {
      assert rows[|base| + |saved| - 1] == later[|saved| - 1];
      assert rows[|rows| - 1].sequence >= rows[|base| + |saved| - 1].sequence;
    } else if base != [] {
      assert rows[|base| - 1] == base[|base| - 1];
      assert rows[|rows| - 1].sequence >= rows[|base| - 1].sequence;
    }
  }

  lemma {:induction false} OnlyFollowingHeals<S, E(!new), C, X>(
    def: EventSourced<S, E, C, X>, base: seq<Stored<E>>, later: seq<Stored<E>>, saved: seq<E>)
    requires StreamRows(base + later) && base + later != [] && ViewOf(def, base, saved).Some? && Separates(def)
    requires Healed(def, base + later, ViewOf(def, base, saved)) == Some(FullReplay(def, base + later))
    ensures Follows(later, LastSequence(base), saved)
  {
    HealedOnlyIfSaved(def, base, later, saved);
    FollowsIfSaved(base, later, saved);
  }

  lemma FollowsIfSaved<E>(base: seq<Stored<E>>, later: seq<Stored<E>>, saved: seq<E>)
    requires StreamRows(base + later) && saved == Events(UpTo(later, LastSequence(base) + |saved|))
    ensures Follows(later, LastSequence(base), saved)
  {
    PartsOrdered(base, later);
    FollowsExactly(later, LastSequence(base), saved);
  }

  lemma {:induction false} HealedOnlyIfSaved<S, E(!new), C, X>(
    def: EventSourced<S, E, C, X>, base: seq<Stored<E>>, later: seq<Stored<E>>, saved: seq<E>)
    requires StreamRows(base + later) && ViewOf(def, base, saved).Some? && Separates(def)
    requires Healed(def, base + later, ViewOf(def, base, saved)) == Some(FullReplay(def, base + later))
    ensures saved == Events(UpTo(later, LastSequence(base) + |saved|))
  {
    var folded := Events(base) + saved + Events(After(later, LastSequence(base) + |saved|));
    HealingAppendsTheRest(def, base, later, saved, folded);
    assert folded == Events(base + later);
    SavedIsTheMiddle(base, later, saved, LastSequence(base) + |saved|);
  }

  lemma {:induction false} SavedIsTheMiddle<E>(base: seq<Stored<E>>, later: seq<Stored<E>>, saved: seq<E>, through: nat)
    requires StreamRows(base + later) && Events(base) + saved + Events(After(later, through)) == Events(base + later)
    ensures saved == Events(UpTo(later, through))
  {
    PartsOrdered(base, later);
    var seen, rest := UpTo(later, through), After(later, through);
    SplitAtVersion(later, through);
    EventsConcat(base, later);
    EventsConcat(seen, rest);
    SameMiddle(Events(base), saved, Events(seen), Events(rest));
  }

  lemma SameMiddle<E>(front: seq<E>, first: seq<E>, second: seq<E>, rest: seq<E>)
    requires front + first + rest == front + (second + rest)
    ensures first == second
  {
    assert |first| == |second|;
    assert forall i :: 0 <= i < |first| ==> first[i] == (front + first + rest)[|front| + i];
    assert forall i :: 0 <= i < |first| ==> second[i] == (front + (second + rest))[|front| + i];
  }

  /** What healing makes of a view: the events it saved, then those after its version. */
  lemma {:induction false} HealingAppendsTheRest<S, E, C, X>(
    def: EventSourced<S, E, C, X>, base: seq<Stored<E>>, later: seq<Stored<E>>, saved: seq<E>, folded: seq<E>)
    requires StreamRows(base + later) && ViewOf(def, base, saved).Some?
    requires folded == Events(base) + saved + Events(After(later, LastSequence(base) + |saved|))
    ensures var through, last := LastSequence(base) + |saved|, LastSequence(base + later);
            Healed(def, base + later, ViewOf(def, base, saved)) ==
              Some(View(if last > through then last else through, Some(Replay(def, folded))))
  {
    var through := LastSequence(base) + |saved|;
    var rest := Events(After(later, through));
    UpToSaved(base, later, |saved|);
    FoldConcat(def, Uninitialized, Events(base) + saved, rest);
    if LastSequence(base + later) <= through {
      NoneAfterLast(base + later, through);
      assert rest == [] && folded == Events(base) + saved;
    }
  }

  // ------------------------------------------------------- concrete failures

  /** An entity that keeps what it was told, in the order it was told. */
  const JOURNAL: EventSourced<seq<int>, int, int, int> :=
    EventSourced((e: int) => Some([e]), (j: seq<int>, e: int) => Ok(Some(j + [e])), (c: int) => Err(0), (j: seq<int>, c: int) => Err(0))

  lemma {:induction false} JournalHolds(events: seq<int>)
    ensures Replay(JOURNAL, events) == if events == [] then Uninitialized else Live(events)
  {
    if events != [] {
      var last := |events| - 1;
      JournalHolds(events[..last]);
      assert events == events[..last] + [events[last]];
    }
  }

  lemma JournalSeparates()
    ensures Separates(JOURNAL)
  {
    forall a: seq<int>, b: seq<int> | Replay(JOURNAL, a) == Replay(JOURNAL, b) ensures a == b {
      JournalHolds(a);
      JournalHolds(b);
    }
  }

  /**
   Two updates that run in the other order pass every version check and leave a view at
   the last sequence that is not the fold, which no later `catch_up` revisits.
   */
  lemma ReactingOutOfOrderMisfolds()
    ensures var rows := [Stored(1, 10), Stored(2, 20)];
            var late := Run(JOURNAL, [], [LoadFor(20), Save(0), LoadFor(10), Save(1)]).view;
            && late == Some(View(LastSequence(rows), Some(Live([20, 10]))))
            && FullReplay(JOURNAL, rows) == View(2, Some(Live([10, 20])))
            && Healed(JOURNAL, rows, late) == late != Some(FullReplay(JOURNAL, rows))
  {
    var rows := [Stored(1, 10), Stored(2, 20)];
    assert Events(rows) == [10, 20];
    JournalHolds([10, 20]);
    JournalHolds([20, 10]);
    TwoSaved(20, 10);
    ViewFromNothing(JOURNAL, [20, 10]);
    assert [20, 10][0] != [10, 20][0];
  }

  /** In stream order, one lost update is enough: the next one is applied on top of the gap, and healing adds it again. */
  lemma LostReactionMisfolds()
    ensures var rows := [Stored(1, 10), Stored(2, 20), Stored(3, 30)];
            var gap := Run(JOURNAL, [], [LoadFor(10), Save(0), LoadFor(30), Save(1)]).view;
            && gap == Some(View(2, Some(Live([10, 30]))))
            && Healed(JOURNAL, rows, gap) == Some(View(3, Some(Live([10, 30, 30]))))
            && FullReplay(JOURNAL, rows) == View(3, Some(Live([10, 20, 30])))
  {
    var rows := [Stored(1, 10), Stored(2, 20), Stored(3, 30)];
    assert Events(rows) == [10, 20, 30];
    TwoSaved(10, 30);
    ViewFromNothing(JOURNAL, [10, 30]);
    GapHeals(rows);
    JournalHolds([10, 20, 30]);
    JournalHolds([10, 30]);
    JournalHolds([10, 30, 30]);
  }

  lemma GapHeals(rows: seq<Stored<int>>)
    requires rows == [Stored(1, 10), Stored(2, 20), Stored(3, 30)]
    ensures Healed(JOURNAL, rows, ViewOf(JOURNAL, [], [10, 30])) == Some(View(3, Some(Replay(JOURNAL, [10, 30, 30]))))
  {
    LastOfThree();
    ViewFromNothing(JOURNAL, [10, 30]);
    FoldConcat(JOURNAL, Uninitialized, [10, 30], [30]);
    assert Events([Stored(3, 30)]) == [30] && [10, 30] + [30] == [10, 30, 30];
  }

  lemma LastOfThree()
    ensures After([Stored(1, 10), Stored(2, 20), Stored(3, 30)], 2) == [Stored(3, 30)]
  {
    var low := [Stored(1, 10), Stored(2, 20)];
    assert low + [Stored(3, 30)] == [Stored(1, 10), Stored(2, 20), Stored(3, 30)];
    SkipLow(low, [Stored(3, 30)], 2);
  }

  lemma TwoSaved(first: int, second: int)
    ensures Run(JOURNAL, [], [LoadFor(first), Save(0), LoadFor(second), Save(1)]).view == ViewOf(JOURNAL, [], [first, second])
  {
    var steps := [LoadFor(first), Save(0), LoadFor(second), Save(1)];
    assert steps[..3] == [LoadFor(first), Save(0), LoadFor(second)] && steps[..3][..2] == [LoadFor(first), Save(0)];
    assert steps[..3][..2][..1] == [LoadFor(first)] && [LoadFor(first)][..0] == [];
    var start: Reactor<seq<int>, int, int> := Reactor(None, [], []);
    assert Run(JOURNAL, [], []) == start;
    var loaded := Next(JOURNAL, start, LoadFor(first));
    assert Run(JOURNAL, [], [LoadFor(first)]) == loaded;
    assert loaded == Reactor(None, [Reacting(first, None)], []);
    ReactingToOneMore(JOURNAL, [], [], first);
    assert [] + [first] == [first];
    var one := Run(JOURNAL, [], [LoadFor(first), Save(0)]);
    assert one == Next(JOURNAL, loaded, Save(0));
    assert one.view == ViewOf(JOURNAL, [], [first]);
    var again := Run(JOURNAL, [], steps[..3]);
    assert again == Next(JOURNAL, one, LoadFor(second));
    assert again.loads[1] == Reacting(second, one.view);
    ReactingToOneMore(JOURNAL, [], [first], second);
    assert [first] + [second] == [first, second];
  }
}
