/** Reading a stream page by page, resuming after the last sequence seen. */
module Paging {
  import opened Prelude
  import opened EventTable

  /** `load_events`: every row, or those after an exclusive checkpoint. */
  function LoadEvents<E>(rows: seq<Stored<E>>, after: Option<nat>): seq<Stored<E>> {
    match after
    case None => rows
    case Some(sequence) => After(rows, sequence)
  }

  /** `load_events_page`: at most `limit` of them. */
  function LoadEventsPage<E>(rows: seq<Stored<E>>, after: Option<nat>, limit: nat): (page: seq<Stored<E>>)
    requires limit >= 1
    ensures |page| <= limit
    ensures page == [] <==> LoadEvents(rows, after) == []
    // A page is a prefix of what is left, and short only when that is all of it.
    ensures page <= LoadEvents(rows, after)
    ensures |page| < limit ==> page == LoadEvents(rows, after)
  {
    var all := LoadEvents(rows, after);
    if |all| <= limit then all else all[..limit]
  }

  lemma {:induction false} AfterSuffix<E>(rows: seq<Stored<E>>, k: nat)
    requires Ordered(rows) && k < |rows|
    ensures After(rows, rows[k].sequence) == rows[k + 1..]
    decreases |rows|
  {
    var floor := rows[k].sequence;
    if k == 0 {
      AllAfter(rows[1..], floor);
    } else {
      AfterSuffix(rows[1..], k - 1);
      assert rows[1..][k..] == rows[k + 1..];
    }
  }

  lemma {:induction false} AfterIsOrderedTail<E>(rows: seq<Stored<E>>, floor: nat) returns (k: nat)
    requires Ordered(rows)
    ensures k <= |rows| && After(rows, floor) == rows[k..]
    ensures forall i :: 0 <= i < k ==> rows[i].sequence <= floor
  {
    if rows == [] {
      k := 0;
    } else if rows[0].sequence > floor {
      AllAfter(rows, floor);
      k := 0;
    } else {
      var m := AfterIsOrderedTail(rows[1..], floor);
      k := m + 1;
      assert rows[1..][m..] == rows[k..];
    }
  }

  /** A load gives exactly the rows past the checkpoint, or all of them, in order. */
  lemma {:induction false} LoadsWhatFollows<E>(rows: seq<Stored<E>>, after: Option<nat>, row: Stored<E>)
    requires Ordered(rows)
    ensures Ordered(LoadEvents(rows, after))
    ensures row in LoadEvents(rows, after) <==> row in rows && (after.None? || row.sequence > after.value)
  {
    if after.Some? {
      var k := AfterIsOrderedTail(rows, after.value);
      UpperTail(rows, after.value);
      if row in rows && row.sequence > after.value {
        var i :| 0 <= i < |rows| && rows[i] == row;
        assert rows[k..][i - k] == row;
      }
    }
  }

  lemma {:induction false} UpperTail<E>(rows: seq<Stored<E>>, floor: nat)
    ensures forall i :: 0 <= i < |After(rows, floor)| ==> After(rows, floor)[i].sequence > floor
  {
    if rows != [] {
      UpperTail(rows[1..], floor);
    }
  }

  /** Resuming after a page's last sequence yields exactly what the page left unread. */
  lemma {:induction false} NextPageResumes<E>(rows: seq<Stored<E>>, after: Option<nat>, limit: nat)
    requires Ordered(rows) && limit >= 1 && LoadEvents(rows, after) != []
    ensures var page := LoadEventsPage(rows, after, limit);
            var last := page[|page| - 1].sequence;
            LoadEvents(rows, after) == page + LoadEvents(rows, Some(last))
  {
    var k := 0;
    if after.Some? {
      k := AfterIsOrderedTail(rows, after.value);
    }
    assert LoadEvents(rows, after) == rows[k..];
    PageOfTail(rows, k, limit);
  }

  lemma {:induction false} PageOfTail<E>(rows: seq<Stored<E>>, k: nat, limit: nat)
    requires Ordered(rows) && k < |rows| && limit >= 1
    ensures var page := if |rows[k..]| <= limit then rows[k..] else rows[k..][..limit];
            rows[k..] == page + After(rows, page[|page| - 1].sequence)
  {
    var end := if |rows| - k <= limit then |rows| else k + limit;
    assert rows[k..end] == if |rows[k..]| <= limit then rows[k..] else rows[k..][..limit];
    AfterSuffix(rows, end - 1);
  }

  /** Page after page until one comes back empty. */
  function ReadAll<E>(rows: seq<Stored<E>>, after: Option<nat>, limit: nat): seq<Stored<E>>
    requires Ordered(rows) && limit >= 1
    decreases |LoadEvents(rows, after)|
  {
    var page := LoadEventsPage(rows, after, limit);
    if page == [] then []
    else
      NextPageResumes(rows, after, limit);
      page + ReadAll(rows, Some(page[|page| - 1].sequence), limit)
  }

  /** For every page size and any gaps in the sequences, paging reads each event once, in order. */
  lemma {:induction false} PagingReadsEverything<E>(rows: seq<Stored<E>>, after: Option<nat>, limit: nat)
    requires Ordered(rows) && limit >= 1
    ensures ReadAll(rows, after, limit) == LoadEvents(rows, after)
    decreases |LoadEvents(rows, after)|
  {
    var page := LoadEventsPage(rows, after, limit);
    if page != [] {
      NextPageResumes(rows, after, limit);
      PagingReadsEverything(rows, Some(page[|page| - 1].sequence), limit);
    }
  }
}
