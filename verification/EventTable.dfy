/**
 The `events` table, restricted to one (aggregate_type, aggregate_id) stream.

 Rows are kept in `ORDER BY sequence` order. The unique key on
 (aggregate_type, aggregate_id, sequence) makes every append a compare-and-swap:
 an insert whose sequence is taken is refused and writes nothing. Sequences may
 have gaps; contiguity is something a writer has to earn (`Dense`).
 */
module EventTable {
  import opened Prelude

  datatype Stored<+E> = Stored(sequence: nat, event: E)

  /** Rows per multi-row INSERT: 999 bind variables, seven columns a row. */
  const MAX_ROWS_PER_BATCH: nat := 999 / 7

  predicate Holds<E>(rows: seq<Stored<E>>, sequence: nat) {
    exists i :: 0 <= i < |rows| && rows[i].sequence == sequence
  }

  ghost predicate Ordered<E>(rows: seq<Stored<E>>) {
    forall i, j :: 0 <= i < j < |rows| ==> rows[i].sequence < rows[j].sequence
  }

  /** A stream's rows as the table orders them; sequences start at one and may have gaps. */
  ghost predicate StreamRows<E>(rows: seq<Stored<E>>) {
    Ordered(rows) && forall i :: 0 <= i < |rows| ==> rows[i].sequence >= 1
  }

  /** The sequences are exactly 1, 2, ..., |rows|. */
  ghost predicate Dense<E>(rows: seq<Stored<E>>) {
    forall i :: 0 <= i < |rows| ==> rows[i].sequence == i + 1
  }

  function Events<E>(rows: seq<Stored<E>>): (events: seq<E>)
    ensures |events| == |rows|
    ensures forall i :: 0 <= i < |rows| ==> events[i] == rows[i].event
  {
    seq(|rows|, i requires 0 <= i < |rows| => rows[i].event)
  }

  /** `MAX(sequence)`, zero for an empty stream. */
  function LastSequence<E>(rows: seq<Stored<E>>): nat {
    if rows == [] then 0 else rows[|rows| - 1].sequence
  }

  /** `WHERE sequence > after ORDER BY sequence`. */
  function After<E>(rows: seq<Stored<E>>, after: nat): (tail: seq<Stored<E>>)
    ensures |tail| <= |rows|
  {
    if rows == [] then []
    else if rows[0].sequence > after then [rows[0]] + After(rows[1..], after)
    else After(rows[1..], after)
  }

  lemma {:induction false} AllAfter<E>(rows: seq<Stored<E>>, floor: nat)
    requires forall i :: 0 <= i < |rows| ==> rows[i].sequence > floor
    ensures After(rows, floor) == rows
  {
    if rows != [] {
      AllAfter(rows[1..], floor);
    }
  }

  lemma {:induction false} SkipLow<E>(low: seq<Stored<E>>, rows: seq<Stored<E>>, floor: nat)
    requires forall i :: 0 <= i < |low| ==> low[i].sequence <= floor
    ensures After(low + rows, floor) == After(rows, floor)
  {
    if low == [] {
      assert low + rows == rows;
    } else {
      assert (low + rows)[1..] == low[1..] + rows;
      SkipLow(low[1..], rows, floor);
    }
  }

  lemma {:induction false} OrderedLength<E>(rows: seq<Stored<E>>, floor: nat)
    requires Ordered(rows) && rows != [] && rows[0].sequence > floor
    ensures floor + |rows| <= LastSequence(rows)
  {
    if |rows| > 1 {
      OrderedLength(rows[..|rows| - 1], floor);
    }
  }

  predicate EventsFollow<E>(events: seq<Stored<E>>, expected: nat) {
    forall i :: 0 <= i < |events| ==> events[i].sequence == expected + i + 1
  }

  /** New events wrapped at the sequences after the loaded version. */
  function Wrapped<E>(events: seq<E>, version: nat): (wrapped: seq<Stored<E>>)
    ensures |wrapped| == |events| && Events(wrapped) == events && EventsFollow(wrapped, version)
  {
    seq(|events|, i requires 0 <= i < |events| => Stored(version + i + 1, events[i]))
  }

  /** Where a row lands in sequence order. */
  function Place<E>(rows: seq<Stored<E>>, row: Stored<E>): seq<Stored<E>> {
    if rows == [] || rows[|rows| - 1].sequence < row.sequence then rows + [row]
    else Place(rows[..|rows| - 1], row) + [rows[|rows| - 1]]
  }

  /** Placing adds exactly that row. */
  lemma {:induction false} PlaceAddsTheRow<E>(rows: seq<Stored<E>>, row: Stored<E>)
    ensures multiset(Place(rows, row)) == multiset(rows) + multiset{row}
  {
    if rows != [] {
      var last := |rows| - 1;
      assert rows == rows[..last] + [rows[last]];
      PlaceAddsTheRow(rows[..last], row);
    }
  }

  function Insert<E>(rows: seq<Stored<E>>, row: Stored<E>): Option<seq<Stored<E>>> {
    if Holds(rows, row.sequence) then None else Some(Place(rows, row))
  }

  /** Inserts a batch row by row; the first taken sequence refuses all of it. */
  function InsertAll<E>(rows: seq<Stored<E>>, batch: seq<Stored<E>>): Option<seq<Stored<E>>>
    decreases |batch|
  {
    if batch == [] then Some(rows)
    else match Insert(rows, batch[0])
      case None => None
      case Some(inserted) => InsertAll(inserted, batch[1..])
  }

  lemma {:induction false} PlaceKeepsOrder<E>(rows: seq<Stored<E>>, row: Stored<E>)
    requires Ordered(rows) && !Holds(rows, row.sequence)
    ensures Ordered(Place(rows, row))
  {
    if rows == [] || rows[|rows| - 1].sequence < row.sequence {
    } else {
      var last := |rows| - 1;
      PlaceKeepsOrder(rows[..last], row);
      PlaceAddsTheRow(rows[..last], row);
      var front := Place(rows[..last], row);
      forall i | 0 <= i < |front| ensures front[i].sequence < rows[last].sequence {
        assert front[i] in multiset(front);
        assert front[i] in rows[..last] || front[i] == row;
      }
      assert Place(rows, row) == front + [rows[last]];
    }
  }

  /** On a contiguous stream the unique key is a version check. */
  lemma InsertDense<E>(rows: seq<Stored<E>>, row: Stored<E>)
    requires Dense(rows)
    requires 1 <= row.sequence <= |rows| + 1
    ensures row.sequence <= |rows| ==> Insert(rows, row).None?
    ensures row.sequence == |rows| + 1 ==>
              && Insert(rows, row) == Some(rows + [row])
              && Dense(rows + [row])
              && Events(rows + [row]) == Events(rows) + [row.event]
  {
    if row.sequence <= |rows| {
      assert rows[row.sequence - 1].sequence == row.sequence;
    }
  }

  lemma DenseLast<E>(rows: seq<Stored<E>>)
    requires Dense(rows)
    ensures LastSequence(rows) == |rows|
  {
  }

  lemma {:induction false} InsertAllConcat<E>(rows: seq<Stored<E>>, first: seq<Stored<E>>, second: seq<Stored<E>>)
    ensures InsertAll(rows, first + second) ==
              match InsertAll(rows, first)
              case None => None
              case Some(inserted) => InsertAll(inserted, second)
    decreases |first|
  {
    if first == [] {
      assert first + second == second;
    } else {
      assert (first + second)[1..] == first[1..] + second;
      match Insert(rows, first[0])
      case None =>
      case Some(inserted) => InsertAllConcat(inserted, first[1..], second);
    }
  }

  /**
   The chunked append: one INSERT per chunk of at most `MAX_ROWS_PER_BATCH` rows,
   stopping at the first refused statement. Chunking is invisible: the outcome is
   the row-by-row outcome for every batch length.
   */
  method InsertSerializedEventsBatch<E>(rows: seq<Stored<E>>, batch: seq<Stored<E>>)
    returns (inserted: Option<seq<Stored<E>>>)
    ensures inserted == InsertAll(rows, batch)
  {
    var table := rows;
    var done := 0;
    while done < |batch|
      invariant 0 <= done <= |batch|
      invariant InsertAll(rows, batch[..done]) == Some(table)
    {
      var next := if |batch| - done < MAX_ROWS_PER_BATCH then |batch| else done + MAX_ROWS_PER_BATCH;
      var statement := InsertAll(table, batch[done..next]);
      InsertAllConcat(rows, batch[..done], batch[done..next]);
      assert batch[..done] + batch[done..next] == batch[..next];
      if statement.None? {
        InsertAllConcat(rows, batch[..next], batch[next..]);
        assert batch[..next] + batch[next..] == batch;
        return None;
      }
      table := statement.value;
      done := next;
    }
    assert batch[..done] == batch;
    return Some(table);
  }
}
