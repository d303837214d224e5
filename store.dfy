/**
 * The table of posted entries: `init_db`'s column migration
 * (bot_service.py:179-210), `has_posted` and `mark_posted`
 * (bot_service.py:212-223) and `cleanup_old_entries` (bot_service.py:455-464).
 * Timestamps are whole seconds.
 */
module SeenStore {

  /** One row of the `posted` table. */
  datatype Row = Row(hash: string, postedAt: int, title: string, source: string)

  /** The PRIMARY KEY on `hash`: no hash occurs twice. */
  predicate DistinctHashes(rows: seq<Row>) {
    forall i, j :: 0 <= i < j < |rows| ==> rows[i].hash != rows[j].hash
  }

  /** `SELECT 1 FROM posted WHERE hash = ?` finds a row. */
  function Posted(rows: seq<Row>, h: string): (b: bool)
    ensures b <==> exists i :: 0 <= i < |rows| && rows[i].hash == h
  {
    if rows == [] then false
    else rows[|rows| - 1].hash == h || Posted(rows[..|rows| - 1], h)
  }

  const SecondsPerDay := 86400

  /** `datetime('now', '-<days> days')`, in seconds. */
  function Cutoff(now: int, days: nat): int {
    now - days * SecondsPerDay
  }

  /** The rows that `DELETE FROM posted WHERE posted_at < cutoff` leaves, in their order. */
  function Kept(rows: seq<Row>, cutoff: int): (r: seq<Row>)
    ensures |r| <= |rows|
    ensures forall x :: x in r <==> x in rows && x.postedAt >= cutoff
  {
    if rows == [] then []
    else
      var last := rows[|rows| - 1];
      assert forall x :: x in rows <==> x in rows[..|rows| - 1] || x == last;
      Kept(rows[..|rows| - 1], cutoff) + (if last.postedAt >= cutoff then [last] else [])
  }

  /** How many rows are older than the cutoff. */
  function CountOlder(rows: seq<Row>, cutoff: int): nat {
    if rows == [] then 0
    else CountOlder(rows[..|rows| - 1], cutoff) + (if rows[|rows| - 1].postedAt < cutoff then 1 else 0)
  }

  /**
   * Deleting keeps the relative order of the surviving rows, removes exactly
   * the older ones, and keeps hashes distinct.
   */
  lemma {:induction false} KeptMeaning(a: seq<Row>, b: seq<Row>, cutoff: int)
    ensures Kept(a + b, cutoff) == Kept(a, cutoff) + Kept(b, cutoff)
    ensures |Kept(a, cutoff)| + CountOlder(a, cutoff) == |a|
    decreases |b|
  {
    if b == [] {
      assert a + b == a;
    } else {
      var init, x := b[..|b| - 1], b[|b| - 1];
      var tail := if x.postedAt >= cutoff then [x] else [];
      calc {
        Kept(a + b, cutoff);
        { assert a + b == (a + init) + [x]; }
        Kept((a + init) + [x], cutoff);
        { KeptSnoc(a + init, x, cutoff); }
        Kept(a + init, cutoff) + tail;
        { KeptMeaning(a, init, cutoff); }
        Kept(a, cutoff) + Kept(init, cutoff) + tail;
        Kept(a, cutoff) + (Kept(init, cutoff) + tail);
        { assert b == init + [x]; KeptSnoc(init, x, cutoff); }
        Kept(a, cutoff) + Kept(b, cutoff);
      }
    }
    KeptCount(a, cutoff);
  }

  /** Deleting from rows with one more at the end: that row stays exactly when it is recent. */
  lemma KeptSnoc(rows: seq<Row>, x: Row, cutoff: int)
    ensures Kept(rows + [x], cutoff) == Kept(rows, cutoff) + (if x.postedAt >= cutoff then [x] else [])
  {
    assert (rows + [x])[..|rows|] == rows;
  }

  lemma {:induction false} KeptCount(rows: seq<Row>, cutoff: int)
    ensures |Kept(rows, cutoff)| + CountOlder(rows, cutoff) == |rows|
  {
    if rows != [] {
      KeptCount(rows[..|rows| - 1], cutoff);
    }
  }

  /** A subsequence of rows with distinct hashes has distinct hashes. */
  lemma {:induction false} KeptDistinct(rows: seq<Row>, cutoff: int)
    requires DistinctHashes(rows)
    ensures DistinctHashes(Kept(rows, cutoff))
  {
    if rows != [] {
      var init := rows[..|rows| - 1];
      var last := rows[|rows| - 1];
      KeptDistinct(init, cutoff);
      forall x | x in Kept(init, cutoff)
        ensures x.hash != last.hash
      {
        var i :| 0 <= i < |init| && init[i] == x;
      }
    }
  }

  /** A row recent enough is never deleted, and nothing is deleted when every row is recent. */
  lemma {:induction false} KeptAllRecent(rows: seq<Row>, cutoff: int)
    requires forall i :: 0 <= i < |rows| ==> rows[i].postedAt >= cutoff
    ensures Kept(rows, cutoff) == rows
  {
    if rows != [] {
      KeptAllRecent(rows[..|rows| - 1], cutoff);
      assert rows[..|rows| - 1] + [rows[|rows| - 1]] == rows;
    }
  }

  /** The columns of a freshly created table. */
  const FreshColumns: seq<string> := ["hash", "posted_at", "title", "source"]

  /**
   * `init_db`'s schema step on the columns `PRAGMA table_info` lists: create
   * the table when there are none, else add `title` and `source` if missing.
   */
  function Migrate(columns: seq<string>): seq<string> {
    if columns == [] then FreshColumns
    else columns + (if "title" in columns then [] else ["title"]) + (if "source" in columns then [] else ["source"])
  }

  /**
   * After migration `title` and `source` are columns; an existing table keeps
   * its columns in place and gains at most those two; migrating twice changes
   * nothing more.
   */
  lemma MigrateMeaning(columns: seq<string>)
    ensures "title" in Migrate(columns) && "source" in Migrate(columns)
    ensures columns != [] ==> Migrate(columns)[..|columns|] == columns && |Migrate(columns)| <= |columns| + 2
    ensures "title" in columns && "source" in columns ==> Migrate(columns) == columns
    ensures Migrate(Migrate(columns)) == Migrate(columns)
  {
    var r := Migrate(columns);
    if columns != [] {
      assert r[..|columns|] == columns;
      assert "title" in r by {
        if "title" !in columns { assert r[|columns|] == "title"; }
      }
      assert "source" in r by {
        if "source" !in columns { assert r[|r| - 1] == "source"; }
      }
    } else {
      assert r[2] == "title" && r[3] == "source";
    }
  }

  /** The open database connection: the rows of `posted` and its columns. */
  class Store {
    var rows: seq<Row>
    var columns: seq<string>

    predicate Valid()
      reads this
    {
      DistinctHashes(rows) && "title" in columns && "source" in columns
    }

    /**
     * `init_db()` on a database holding `existing` rows in a table with
     * `existingColumns` (none when the table does not exist yet).
     */
    constructor Open(existing: seq<Row>, existingColumns: seq<string>)
      requires DistinctHashes(existing)
      requires existingColumns == [] ==> existing == []
      ensures rows == existing && columns == Migrate(existingColumns)
      ensures Valid()
    {
      rows := existing;
      columns := Migrate(existingColumns);
      MigrateMeaning(existingColumns);
    }

    /** `has_posted(conn, entry_hash)`. */
    function HasPosted(h: string): (b: bool)
      reads this
      ensures b <==> exists i :: 0 <= i < |rows| && rows[i].hash == h
    {
      Posted(rows, h)
    }

    /** `mark_posted(conn, entry_hash, title, source)` at time `now`; the key must be new. */
    method MarkPosted(h: string, title: string, source: string, now: int)
      requires Valid() && !HasPosted(h)
      modifies this
      ensures rows == old(rows) + [Row(h, now, title, source)]
      ensures columns == old(columns)
      ensures Valid()
    {
      rows := rows + [Row(h, now, title, source)];
    }

    /**
     * `cleanup_old_entries(conn, days)` at time `now`: every row posted before
     * the cutoff goes, the rest stay in order; `deleted` is the row count.
     */
    method CleanupOldEntries(now: int, days: nat) returns (deleted: nat)
      requires Valid()
      modifies this
      ensures rows == Kept(old(rows), Cutoff(now, days))
      ensures deleted == CountOlder(old(rows), Cutoff(now, days))
      ensures columns == old(columns)
      ensures Valid()
    {
      var cutoff := Cutoff(now, days);
      KeptCount(rows, cutoff);
      KeptDistinct(rows, cutoff);
      deleted := |rows| - |Kept(rows, cutoff)|;
      rows := Kept(rows, cutoff);
    }
  }
}
