/** The ledger page by page: keyset paging from newest to oldest while entries are being
    appended. */
module Paging {
  import opened Domain
  import opened Safety
  import opened Interleaving
  import opened Guarantees

  /** The keyset position of a page: (created_at, id) of the last entry given. */
  datatype Cursor = Cursor(createdAt: Time, id: Uuid)

  datatype Page = Page(entries: seq<EntryRow>, hasMore: bool)

  function Key(e: EntryRow): Cursor {
    Cursor(e.createdAt, e.id)
  }

  predicate Less(a: Cursor, b: Cursor) {
    a.createdAt < b.createdAt || (a.createdAt == b.createdAt && a.id < b.id)
  }

  predicate Wanted(e: EntryRow, w: Uuid, cursor: Option<Cursor>) {
    e.wallet == w && (cursor.Some? ==> Less(Key(e), cursor.value))
  }

  predicate Descending(rows: seq<EntryRow>) {
    forall i, j :: 0 <= i < j < |rows| ==> Less(Key(rows[j]), Key(rows[i]))
  }

  predicate IdsDiffer(ledger: seq<EntryRow>) {
    forall i, j :: 0 <= i < |ledger| && 0 <= j < |ledger| && ledger[i].id == ledger[j].id ==> i == j
  }

  /** What ORDER BY created_at DESC, id DESC asks of the selected rows. */
  ghost predicate Lists(rows: seq<EntryRow>, ledger: seq<EntryRow>, w: Uuid, cursor: Option<Cursor>) {
    Descending(rows) && forall e :: e in rows <==> e in ledger && Wanted(e, w, cursor)
  }

  // ----- the query --------------------------------------------------------------------

  function Place(e: EntryRow, rows: seq<EntryRow>): seq<EntryRow> {
    if rows == [] || Less(Key(rows[0]), Key(e)) then [e] + rows else [rows[0]] + Place(e, rows[1..])
  }

  /** The selected rows in order. */
  function Listing(ledger: seq<EntryRow>, w: Uuid, cursor: Option<Cursor>): seq<EntryRow> {
    if ledger == [] then []
    else
      var e := ledger[|ledger| - 1];
      var rest := Listing(ledger[..|ledger| - 1], w, cursor);
      if Wanted(e, w, cursor) then Place(e, rest) else rest
  }

  lemma {:induction false} PlaceKeepsOrder(e: EntryRow, rows: seq<EntryRow>)
    requires Descending(rows) && forall r :: r in rows ==> r.id != e.id
    ensures Descending(Place(e, rows)) && forall r :: r in Place(e, rows) <==> r == e || r in rows
  {
    if rows != [] && !Less(Key(rows[0]), Key(e)) {
      PlaceKeepsOrder(e, rows[1..]);
      var rest := Place(e, rows[1..]);
      assert forall r :: r in rows <==> r == rows[0] || r in rows[1..];
      forall r | r in rest ensures Less(Key(r), Key(rows[0])) {
        if r != e {
          var i :| 0 <= i < |rows[1..]| && rows[1..][i] == r;
          assert rows[i + 1] == r;
        }
      }
      assert Place(e, rows) == [rows[0]] + rest;
    }
  }

  /** The query returns what was asked for, in order. */
  lemma {:induction false} ListingLists(ledger: seq<EntryRow>, w: Uuid, cursor: Option<Cursor>)
    requires IdsDiffer(ledger)
    ensures Lists(Listing(ledger, w, cursor), ledger, w, cursor)
  {
    if ledger != [] {
      var n := |ledger| - 1;
      var init, e := ledger[..n], ledger[n];
      ListingLists(init, w, cursor);
      assert forall r :: r in ledger <==> r == e || r in init;
      forall r | r in init ensures r.id != e.id {
        var i :| 0 <= i < n && init[i] == r;
        assert ledger[i] == r;
      }
      if Wanted(e, w, cursor) {
        PlaceKeepsOrder(e, Listing(init, w, cursor));
      }
    }
  }

  lemma EmptyTogether(a: seq<EntryRow>, b: seq<EntryRow>)
    requires forall e :: e in a <==> e in b
    ensures a == [] <==> b == []
  {
    if a != [] {
      assert a[0] in b;
    }
    if b != [] {
      assert b[0] in a;
    }
  }

  /** There is only one such list. */
  lemma {:induction false} OrderIsUnique(a: seq<EntryRow>, b: seq<EntryRow>)
    requires Descending(a) && Descending(b) && forall e :: e in a <==> e in b
    ensures a == b
  {
    EmptyTogether(a, b);
    if a != [] {
      assert a[0] in b && b[0] in a;
      var i :| 0 <= i < |b| && b[i] == a[0];
      var j :| 0 <= j < |a| && a[j] == b[0];
      assert i == 0 && j == 0;
      forall e ensures e in a[1..] <==> e in b[1..] {
        assert e in a[1..] ==> e in b && e != b[0];
        assert e in b[1..] ==> e in a && e != a[0];
      }
      OrderIsUnique(a[1..], b[1..]);
    }
  }

  // ----- one page ---------------------------------------------------------------------

  /** The repository's limit: out of range means 50. */
  function RepositoryLimit(limit: int): nat {
    if limit <= 0 || limit > 500 then 50 else limit
  }

  /** The service's limit, which the repository never has to correct. */
  function ServiceLimit(limit: int): nat {
    if limit <= 0 then 50 else if limit > 200 then 200 else limit
  }

  function Cap(rows: seq<EntryRow>, n: nat): seq<EntryRow> {
    if |rows| <= n then rows else rows[..n]
  }

  function PageOf(ledger: seq<EntryRow>, w: Uuid, cursor: Option<Cursor>, n: nat): Page {
    var all := Listing(ledger, w, cursor);
    Page(Cap(all, n), |all| > n)
  }

  /** One row more than the limit is fetched to learn whether there is another page. */
  method ListByWallet(ledger: seq<EntryRow>, w: Uuid, cursor: Option<Cursor>, limit: int) returns (page: Page)
    ensures page == PageOf(ledger, w, cursor, RepositoryLimit(limit))
  {
    var n := RepositoryLimit(limit);
    var rows := Cap(Listing(ledger, w, cursor), n + 1);
    var entries: seq<EntryRow> := [];
    var i := 0;
    while i < |rows|
      invariant 0 <= i <= |rows| && entries == rows[..i]
    {
      entries := entries + [rows[i]];
      i := i + 1;
    }
    page := Page(entries, false);
    if |entries| > n {
      page := Page(entries[..n], true);
    }
  }

  // ----- the walk ---------------------------------------------------------------------

  function LastKey(page: Page): Cursor
    requires page.entries != []
  {
    Key(page.entries[|page.entries| - 1])
  }

  /** A client follows the cursor; `snaps` is the ledger at each of its requests. */
  function Walk(snaps: seq<seq<EntryRow>>, w: Uuid, cursor: Option<Cursor>, n: nat): seq<EntryRow>
    requires 1 <= n
  {
    if snaps == [] then []
    else
      var page := PageOf(snaps[0], w, cursor, n);
      if !page.hasMore then page.entries
      else page.entries + Walk(snaps[1..], w, Some(LastKey(page)), n)
  }

  /** The walk has reached a page without a successor. */
  predicate Finished(snaps: seq<seq<EntryRow>>, w: Uuid, cursor: Option<Cursor>, n: nat)
    requires 1 <= n
  {
    snaps != [] &&
    var page := PageOf(snaps[0], w, cursor, n);
    page.hasMore ==> Finished(snaps[1..], w, Some(LastKey(page)), n)
  }

  /** The ledger only grows between requests. */
  predicate Growing(snaps: seq<seq<EntryRow>>) {
    && (forall i :: 0 <= i < |snaps| ==> IdsDiffer(snaps[i]))
    && (forall i, j :: 0 <= i <= j < |snaps| ==> snaps[i] <= snaps[j])
  }

  lemma GrowingTail(snaps: seq<seq<EntryRow>>)
    requires Growing(snaps) && snaps != []
    ensures Growing(snaps[1..])
    ensures forall e :: e in snaps[0] ==> e in snaps[|snaps| - 1]
    ensures |snaps| > 1 ==> snaps[0] <= snaps[1] && snaps[1..][|snaps| - 2] == snaps[|snaps| - 1]
    ensures |snaps| > 1 ==> forall e :: e in snaps[0] ==> e in snaps[1]
  {
    assert snaps[0] <= snaps[|snaps| - 1];
    forall i, j | 0 <= i <= j < |snaps[1..]| ensures snaps[1..][i] <= snaps[1..][j] {
      assert snaps[i + 1] <= snaps[j + 1];
    }
  }

  /** Dropping a page leaves what the next cursor asks for. */
  lemma TailIsNextListing(ledger: seq<EntryRow>, w: Uuid, cursor: Option<Cursor>, n: nat)
    requires IdsDiffer(ledger) && 1 <= n < |Listing(ledger, w, cursor)|
    ensures var all := Listing(ledger, w, cursor); Listing(ledger, w, Some(Key(all[n - 1]))) == all[n..]
  {
    var all := Listing(ledger, w, cursor);
    var next := Some(Key(all[n - 1]));
    ListingLists(ledger, w, cursor);
    ListingLists(ledger, w, next);
    forall e ensures e in all[n..] <==> e in ledger && Wanted(e, w, next) {
      if e in ledger && Wanted(e, w, next) {
        assert Less(Key(all[n - 1]), Key(e)) || Wanted(e, w, cursor) by {
          assert all[n - 1] in all;
        }
        assert e in all;
        var i :| 0 <= i < |all| && all[i] == e;
        assert n <= i;
        assert all[n..][i - n] == e;
      }
      if e in all[n..] {
        var i :| 0 <= i < |all[n..]| && all[n..][i] == e;
        assert all[n + i] == e;
      }
    }
    OrderIsUnique(Listing(ledger, w, next), all[n..]);
  }

  lemma PageIsPrefix(ledger: seq<EntryRow>, w: Uuid, cursor: Option<Cursor>, n: nat)
    requires IdsDiffer(ledger) && 1 <= n
    ensures var page := PageOf(ledger, w, cursor, n);
            && Descending(page.entries)
            && (forall e :: e in page.entries ==> e in ledger && Wanted(e, w, cursor))
            && (!page.hasMore ==> forall e :: e in ledger && Wanted(e, w, cursor) ==> e in page.entries)
            && (page.hasMore ==> forall e :: e in ledger && Wanted(e, w, cursor) ==>
                  e in page.entries || Wanted(e, w, Some(LastKey(page))))
  {
    var all := Listing(ledger, w, cursor);
    ListingLists(ledger, w, cursor);
    if n < |all| {
      forall e | e in ledger && Wanted(e, w, cursor) && e !in all[..n]
        ensures Wanted(e, w, Some(Key(all[n - 1])))
      {
        assert all == all[..n] + all[n..];
        var i :| 0 <= i < |all[n..]| && all[n..][i] == e;
        assert all[n + i] == e;
      }
    }
  }

  lemma Joined(a: seq<EntryRow>, b: seq<EntryRow>)
    requires a != [] && Descending(a) && Descending(b)
    requires forall e :: e in b ==> Less(Key(e), Key(a[|a| - 1]))
    ensures Descending(a + b)
  {
    var both := a + b;
    forall i, j | 0 <= i < j < |both| ensures Less(Key(both[j]), Key(both[i])) {
      if |a| <= j {
        assert both[j] == b[j - |a|] && both[j] in b;
      }
    }
  }

  /** Main result: whatever is appended while the client walks, the entries come in strictly
      descending order, so none is repeated; and when the walk is over none of those there
      were when it began has been skipped. */
  lemma {:induction false} WalkSkipsAndRepeatsNothing(snaps: seq<seq<EntryRow>>, w: Uuid, cursor: Option<Cursor>,
                                                      n: nat)
    requires 1 <= n && snaps != [] && Growing(snaps)
    ensures var walk := Walk(snaps, w, cursor, n);
            && Descending(walk)
            && (forall e :: e in walk ==> e in snaps[|snaps| - 1] && Wanted(e, w, cursor))
            && (Finished(snaps, w, cursor, n) ==> forall e :: e in snaps[0] && Wanted(e, w, cursor) ==> e in walk)
    decreases |snaps|
  {
    var page := PageOf(snaps[0], w, cursor, n);
    PageIsPrefix(snaps[0], w, cursor, n);
    GrowingTail(snaps);
    if page.hasMore && |snaps| > 1 {
      var next := Some(LastKey(page));
      WalkSkipsAndRepeatsNothing(snaps[1..], w, next, n);
      var rest := Walk(snaps[1..], w, next, n);
      assert page.entries[|page.entries| - 1] in page.entries;
      Joined(page.entries, rest);
    } else if page.hasMore {
      assert snaps[1..] == [];
      assert Walk(snaps, w, cursor, n) == page.entries;
      assert !Finished(snaps[1..], w, Some(LastKey(page)), n);
    }
  }

  /** What has been appended since the first request lies above the cursor of each request. */
  predicate AppendedAbove(snaps: seq<seq<EntryRow>>, w: Uuid, cursor: Option<Cursor>, n: nat)
    requires 1 <= n
  {
    |snaps| <= 1 ||
    var page := PageOf(snaps[0], w, cursor, n);
    page.hasMore ==>
      && (forall e :: e in snaps[1] && Wanted(e, w, Some(LastKey(page))) ==> e in snaps[0])
      && AppendedAbove(snaps[1..], w, Some(LastKey(page)), n)
  }

  lemma SameBelow(a: seq<EntryRow>, b: seq<EntryRow>, w: Uuid, cursor: Option<Cursor>)
    requires IdsDiffer(a) && IdsDiffer(b)
    requires forall e :: e in a ==> e in b
    requires forall e :: e in b && Wanted(e, w, cursor) ==> e in a
    ensures Listing(a, w, cursor) == Listing(b, w, cursor)
  {
    ListingLists(a, w, cursor);
    ListingLists(b, w, cursor);
    OrderIsUnique(Listing(a, w, cursor), Listing(b, w, cursor));
  }

  /** Entries appended above the cursor do not change the rest of the walk: it gives exactly
      the entries there were at the first request, and ends after at most one request per
      entry. */
  lemma {:induction false} AppendsAboveChangeNothing(snaps: seq<seq<EntryRow>>, w: Uuid, cursor: Option<Cursor>, n: nat)
    requires 1 <= n && snaps != [] && Growing(snaps) && AppendedAbove(snaps, w, cursor, n)
    ensures Finished(snaps, w, cursor, n) ==> Walk(snaps, w, cursor, n) == Listing(snaps[0], w, cursor)
    ensures |snaps| > |Listing(snaps[0], w, cursor)| ==> Finished(snaps, w, cursor, n)
    decreases |snaps|
  {
    var page := PageOf(snaps[0], w, cursor, n);
    var all := Listing(snaps[0], w, cursor);
    GrowingTail(snaps);
    if page.hasMore && |snaps| > 1 {
      var next := Some(LastKey(page));
      AppendsAboveChangeNothing(snaps[1..], w, next, n);
      TailIsNextListing(snaps[0], w, cursor, n);
      SameBelow(snaps[0], snaps[1], w, next);
      assert all[..n] + all[n..] == all;
    } else if page.hasMore {
      assert snaps[1..] == [];
      assert !Finished(snaps[1..], w, Some(LastKey(page)), n);
    }
  }

  /** The ledgers a client sees in the course of a run grow as the walk assumes. */
  lemma RunsAreGrowing(runs: seq<seq<Step>>, snaps: seq<seq<EntryRow>>)
    requires |runs| == |snaps| && forall i :: 0 <= i < |runs| ==> snaps[i] == Run(runs[i]).db.ledger
    requires forall i, j :: 0 <= i <= j < |runs| ==> runs[i] <= runs[j]
    ensures Growing(snaps)
  {
    forall i | 0 <= i < |snaps| ensures IdsDiffer(snaps[i]) {
      RunKeepsInv(runs[i]);
      InvLedger(Run(runs[i]).db);
    }
    forall i, j | 0 <= i <= j < |snaps| ensures snaps[i] <= snaps[j] {
      assert runs[j] == runs[i] + runs[j][|runs[i]|..];
      HistoryIsKept(runs[i], runs[j][|runs[i]|..]);
    }
  }
}
