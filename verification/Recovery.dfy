/**
 Export of completed deletions in pages, and their restore into another catalog. Pages follow the
 catalog's order; the cursor of a page is its last attempt, and the next page starts after it.
 */
module Recovery {
  import opened Prelude
  import opened Leases
  import opened Catalog
  import opened Tombstones

  // The order on attempts is total.

  lemma {:induction false} LessTrichotomy(x: string, y: string)
    ensures !(Less(x, y) && Less(y, x))
    ensures x == y <==> !Less(x, y) && !Less(y, x)
    decreases |x|
  {
    if x != "" && y != "" {
      LessTrichotomy(x[1..], y[1..]);
      assert x == y <==> x[0] == y[0] && x[1..] == y[1..] by {
        assert x == [x[0]] + x[1..] && y == [y[0]] + y[1..];
      }
    }
  }

  lemma {:induction false} LessTransitive(x: string, y: string, z: string)
    requires Less(x, y) && Less(y, z)
    ensures Less(x, z)
    decreases |x|
  {
    if x != "" && x[0] == y[0] && y[0] == z[0] {
      LessTransitive(x[1..], y[1..], z[1..]);
    }
  }

  lemma BeforeTrichotomy(x: Attempt, y: Attempt)
    ensures !(Before(x, y) && Before(y, x))
    ensures x == y <==> !Before(x, y) && !Before(y, x)
  {
    LessTrichotomy(x.tenant, y.tenant);
    LessTrichotomy(x.cluster, y.cluster);
    LessTrichotomy(x.name, y.name);
  }

  lemma BeforeTransitive(x: Attempt, y: Attempt, z: Attempt)
    requires Before(x, y) && Before(y, z)
    ensures Before(x, z)
  {
    if Less(x.tenant, y.tenant) && Less(y.tenant, z.tenant) {
      LessTransitive(x.tenant, y.tenant, z.tenant);
    } else if x.tenant == y.tenant == z.tenant {
      if Less(x.cluster, y.cluster) && Less(y.cluster, z.cluster) {
        LessTransitive(x.cluster, y.cluster, z.cluster);
      } else if x.cluster == y.cluster == z.cluster {
        LessTransitive(x.name, y.name, z.name);
      }
    }
  }

  /** The strings agree up to place n, where the first one ends or has the smaller character. */
  ghost predicate FirstDifference(x: string, y: string, n: nat) {
    n <= |x| && n < |y| && x[..n] == y[..n] && (n == |x| || x[n] < y[n])
  }

  lemma AgreeingStart(x: string, y: string)
    requires x != "" && y != ""
    ensures forall n: nat :: FirstDifference(x, y, n) && 0 < n ==> x[0] == y[0]
  {
    assert forall n: nat :: FirstDifference(x, y, n) && 0 < n ==> x[..n][0] == y[..n][0];
  }

  /** One string comes before another exactly if it is a proper prefix or smaller at the first difference. */
  lemma {:induction false} LessExactly(x: string, y: string)
    ensures Less(x, y) <==> exists n: nat :: FirstDifference(x, y, n)
    decreases |x|
  {
    if x != "" && y != "" && x[0] == y[0] {
      LessExactly(x[1..], y[1..]);
      if n: nat :| FirstDifference(x[1..], y[1..], n) {
        assert x[..n + 1] == [x[0]] + x[1..][..n] && y[..n + 1] == [y[0]] + y[1..][..n];
        assert FirstDifference(x, y, n + 1);
      }
      if n: nat :| FirstDifference(x, y, n) {
        assert n > 0;
        assert x[1..][..n - 1] == x[..n][1..] && y[1..][..n - 1] == y[..n][1..];
        assert FirstDifference(x[1..], y[1..], n - 1);
      }
    } else if x != "" && y != "" {
      AgreeingStart(x, y);
      if x[0] < y[0] {
        assert FirstDifference(x, y, 0);
      }
    } else if x == "" && y != "" {
      assert FirstDifference(x, y, 0);
    }
  }

  // Rows in catalog order.

  ghost predicate Ascending(rows: seq<Attempt>) {
    forall i, j :: 0 <= i < j < |rows| ==> Before(rows[i], rows[j])
  }

  ghost predicate Smallest(m: Attempt, keys: set<Attempt>) {
    m in keys && forall k :: k in keys ==> k == m || Before(m, k)
  }

  lemma {:induction false} SmallestExists(keys: set<Attempt>)
    requires keys != {}
    ensures exists m :: Smallest(m, keys)
    decreases |keys|
  {
    var k :| k in keys;
    if keys == {k} {
      assert Smallest(k, keys);
    } else {
      SmallestExists(keys - {k});
      var m :| Smallest(m, keys - {k});
      BeforeTrichotomy(m, k);
      if Before(m, k) {
        assert Smallest(m, keys);
      } else {
        forall x | x in keys
          ensures x == k || Before(k, x)
        {
          if x != k && x != m {
            BeforeTransitive(k, m, x);
          }
        }
        assert Smallest(k, keys);
      }
    }
  }

  /** The rows a query with this order returns. */
  ghost function InOrder(keys: set<Attempt>): (rows: seq<Attempt>)
    ensures Ascending(rows) && (forall k :: k in rows <==> k in keys) && |rows| == |keys|
    decreases |keys|
  {
    if keys == {} then [] else
    SmallestExists(keys);
    var m :| Smallest(m, keys);
    [m] + InOrder(keys - {m})
  }

  /** Ascending rows are determined by which rows they are. */
  lemma {:induction false} AscendingUnique(x: seq<Attempt>, y: seq<Attempt>)
    requires Ascending(x) && Ascending(y) && forall k :: k in x <==> k in y
    ensures x == y
    decreases |x|
  {
    assert x != [] ==> x[0] in x;
    assert y != [] ==> y[0] in y;
    if x != [] {
      FirstIsSmallest(x, y[0]);
      FirstIsSmallest(y, x[0]);
      BeforeTrichotomy(x[0], y[0]);
      TailElements(x);
      TailElements(y);
      AscendingUnique(x[1..], y[1..]);
      assert x == [x[0]] + x[1..] && y == [y[0]] + y[1..];
    }
  }

  lemma FirstIsSmallest(rows: seq<Attempt>, k: Attempt)
    requires Ascending(rows) && k in rows
    ensures k == rows[0] || Before(rows[0], k)
  {
    var i :| 0 <= i < |rows| && rows[i] == k;
  }

  lemma TailElements(rows: seq<Attempt>)
    requires Ascending(rows) && rows != []
    ensures forall k :: k in rows[1..] <==> k in rows && k != rows[0]
  {
    forall k | k in rows[1..]
      ensures k != rows[0]
    {
      var i :| 0 <= i < |rows[1..]| && rows[1..][i] == k;
      assert Before(rows[0], rows[i + 1]);
      BeforeTrichotomy(rows[0], k);
    }
    assert rows == [rows[0]] + rows[1..];
  }

  // Pages.

  /** The rows the cursor leaves: all of them, or those strictly after it. */
  ghost function After(keys: set<Attempt>, cursor: Option<Attempt>): set<Attempt> {
    if cursor.None? then keys else set k | k in keys && Before(cursor.value, k)
  }

  datatype Page = Page(rows: seq<Attempt>, next: Option<Attempt>)

  /** One more row than the limit is fetched, to learn whether another page follows. */
  ghost function PageOf(keys: set<Attempt>, cursor: Option<Attempt>, limit: nat): Page {
    var all := InOrder(After(keys, cursor));
    var rows := all[..Min(limit + 1, |all|)];
    var page := rows[..Min(limit, |rows|)];
    Page(page, if |rows| > limit && page != [] then Some(page[|page| - 1]) else None)
  }

  /** What follows the n-th row is exactly what comes after it in the order. */
  lemma RestComesAfter(rows: seq<Attempt>, n: nat, k: Attempt)
    requires Ascending(rows) && 1 <= n <= |rows|
    ensures k in rows[n..] <==> k in rows && Before(rows[n - 1], k)
  {
    if k in rows[n..] {
      var i :| 0 <= i < |rows[n..]| && rows[n..][i] == k;
      assert rows[n + i] == k;
    }
    if k in rows {
      var i :| 0 <= i < |rows| && rows[i] == k;
      if i >= n {
        assert rows[n..][i - n] == k;
      }
      BeforeTrichotomy(rows[n - 1], k);
    }
  }

  lemma RestOfRows(keys: set<Attempt>, cursor: Option<Attempt>, all: seq<Attempt>, n: nat)
    requires Ascending(all) && (forall k :: k in all <==> k in After(keys, cursor)) && 1 <= n <= |all|
    ensures InOrder(After(keys, Some(all[n - 1]))) == all[n..]
  {
    var last := all[n - 1];
    assert last in After(keys, cursor);
    forall k
      ensures k in all[n..] <==> k in After(keys, Some(last))
    {
      RestComesAfter(all, n, k);
      if k in keys && Before(last, k) && cursor.Some? {
        BeforeTransitive(cursor.value, last, k);
      }
    }
    AscendingUnique(all[n..], InOrder(After(keys, Some(last))));
  }

  lemma FullPage(keys: set<Attempt>, cursor: Option<Attempt>, limit: nat)
    requires PageOf(keys, cursor, limit).next.Some?
    ensures var all := InOrder(After(keys, cursor));
            && 1 <= limit < |all|
            && PageOf(keys, cursor, limit).rows == all[..limit]
            && PageOf(keys, cursor, limit).next == Some(all[limit - 1])
  {
    var all := InOrder(After(keys, cursor));
    assert all[..limit + 1][..limit] == all[..limit];
  }

  lemma CursorProgress(keys: set<Attempt>, cursor: Option<Attempt>, limit: nat)
    requires PageOf(keys, cursor, limit).next.Some?
    ensures 1 <= limit < |InOrder(After(keys, cursor))|
    ensures PageOf(keys, cursor, limit).rows == InOrder(After(keys, cursor))[..limit]
    ensures InOrder(After(keys, PageOf(keys, cursor, limit).next)) == InOrder(After(keys, cursor))[limit..]
    ensures |After(keys, PageOf(keys, cursor, limit).next)| < |After(keys, cursor)|
  {
    FullPage(keys, cursor, limit);
    RestOfRows(keys, cursor, InOrder(After(keys, cursor)), limit);
  }

  /** The pages a client sees that follows the cursors until there is none. */
  ghost function Follow(keys: set<Attempt>, cursor: Option<Attempt>, limit: nat): seq<Page>
    decreases |After(keys, cursor)|
  {
    var page := PageOf(keys, cursor, limit);
    if page.next.None? then [page] else
    CursorProgress(keys, cursor, limit);
    [page] + Follow(keys, page.next, limit)
  }

  ghost function Joined(pages: seq<Page>): seq<Attempt>
    decreases |pages|
  {
    if pages == [] then [] else pages[0].rows + Joined(pages[1..])
  }

  lemma JoinedFirst(page: Page, pages: seq<Page>)
    ensures Joined([page] + pages) == page.rows + Joined(pages)
  {
    assert ([page] + pages)[1..] == pages;
  }

  lemma LastPage(keys: set<Attempt>, cursor: Option<Attempt>, limit: nat)
    requires 1 <= limit
    ensures var page, all := PageOf(keys, cursor, limit), InOrder(After(keys, cursor));
            (page.next.None? <==> |all| <= limit) && (|all| <= limit ==> page.rows == all)
  {
  }

  lemma Joining(page: Page, pages: seq<Page>, all: seq<Attempt>, n: nat)
    requires n <= |all| && page.rows == all[..n] && Joined(pages) == all[n..]
    ensures Joined([page] + pages) == all
  {
    JoinedFirst(page, pages);
  }

  /** The pages together are all rows that the cursor leaves, each once and in order. */
  lemma {:induction false} FollowYieldsAll(keys: set<Attempt>, cursor: Option<Attempt>, limit: nat)
    requires 1 <= limit
    ensures Joined(Follow(keys, cursor, limit)) == InOrder(After(keys, cursor))
    decreases |After(keys, cursor)|
  {
    var page := PageOf(keys, cursor, limit);
    if page.next.None? {
      LastPage(keys, cursor, limit);
      JoinedFirst(page, []);
      assert [page] + [] == [page];
    } else {
      CursorProgress(keys, cursor, limit);
      FollowYieldsAll(keys, page.next, limit);
      Joining(page, Follow(keys, page.next, limit), InOrder(After(keys, cursor)), limit);
    }
  }

  // Entries as they are written and read back.

  /** An exported entry; a row without a completion time is written with none. */
  datatype Entry = Entry(attempt: Attempt, generation: nat, requestedAt: nat, completedAt: Option<nat>)

  function Completions(deletions: map<Attempt, Deletion>): set<Attempt> {
    set a | a in deletions && deletions[a].work.state == Completed
  }

  function Written(deletions: map<Attempt, Deletion>, rows: seq<Attempt>): (entries: seq<Entry>)
    requires forall a :: a in rows ==> a in deletions
    ensures |entries| == |rows|
    ensures forall i :: 0 <= i < |rows| ==> entries[i] == EntryOf(deletions[rows[i]], rows[i])
  {
    if rows == [] then []
    else [EntryOf(deletions[rows[0]], rows[0])] + Written(deletions, rows[1..])
  }

  function EntryOf(d: Deletion, a: Attempt): Entry {
    Entry(a, d.generation, d.requestedAt, d.completedAt)
  }

  function Parse(e: Entry): Option<Tombstone> {
    if e.completedAt.None? then None else
    var t := Tombstone(e.attempt, e.generation, e.requestedAt, e.completedAt.value);
    if Portable(t) then Some(t) else None
  }

  /** Every entry is parsed before anything else happens; one bad entry refuses the bundle. */
  function ParseAll(entries: seq<Entry>): (r: Option<seq<Tombstone>>)
    ensures r.Some? <==> forall i :: 0 <= i < |entries| ==> Parse(entries[i]).Some?
    ensures r.Some? ==> |r.value| == |entries| && forall i :: 0 <= i < |entries| ==> Parse(entries[i]) == Some(r.value[i])
  {
    if entries == [] then Some([]) else
    var first := Parse(entries[0]);
    var rest := ParseAll(entries[1..]);
    if first.None? || rest.None? then None else Some([first.value] + rest.value)
  }

  function Read(createdAt: nat, entries: seq<Entry>): Option<Bundle> {
    if |entries| > MaxEntries then None else
    var parsed := ParseAll(entries);
    if parsed.None? || !Canonical(parsed.value) then None else Some(Bundle(createdAt, parsed.value))
  }

  /** A client that follows the cursors is given exactly the attempts whose erasure is completed. */
  lemma ExportListsCompletions(deletions: map<Attempt, Deletion>, limit: nat, a: Attempt)
    requires 1 <= limit
    ensures a in Joined(Follow(Completions(deletions), None, limit)) <==> a in deletions && deletions[a].work.state == Completed
  {
    FollowYieldsAll(Completions(deletions), None, limit);
  }

  /** What makes a completed row acceptable elsewhere. */
  predicate PortableRow(d: Deletion, a: Attempt) {
    && Identifier(a.tenant) && Identifier(a.cluster) && Identifier(a.name)
    && 1 <= d.generation <= MaxGeneration
    && d.completedAt.Some? && d.requestedAt <= d.completedAt.value
  }

  /** Entry by entry, the bundle says what the rows say. */
  ghost predicate Carries(b: Bundle, deletions: map<Attempt, Deletion>, rows: seq<Attempt>) {
    |b.entries| == |rows| && forall i :: 0 <= i < |rows| ==>
      && rows[i] in deletions
      && Renders(b.entries[i], deletions[rows[i]], rows[i])
  }

  /** A page is accepted exactly if each of its rows is portable, and then it arrives unchanged. */
  lemma PageIsReadable(deletions: map<Attempt, Deletion>, cursor: Option<Attempt>, limit: nat, createdAt: nat)
    requires 1 <= limit <= MaxEntries
    ensures var rows := PageOf(Completions(deletions), cursor, limit).rows;
            && (forall a :: a in rows ==> a in deletions)
            && (Read(createdAt, Written(deletions, rows)).Some? <==>
                  forall i :: 0 <= i < |rows| ==> PortableRow(deletions[rows[i]], rows[i]))
            && (Read(createdAt, Written(deletions, rows)).Some? ==>
                  Acceptable(Read(createdAt, Written(deletions, rows)).value)
                  && Carries(Read(createdAt, Written(deletions, rows)).value, deletions, rows))
  {
    PageIsPrefix(Completions(deletions), cursor, limit);
    var rows := PageOf(Completions(deletions), cursor, limit).rows;
    WrittenIsReadable(deletions, rows, createdAt);
  }

  lemma PageIsPrefix(keys: set<Attempt>, cursor: Option<Attempt>, limit: nat)
    requires 1 <= limit
    ensures var rows := PageOf(keys, cursor, limit).rows;
            |rows| <= limit && Ascending(rows) && (forall a :: a in rows ==> a in keys)
  {
    var all := InOrder(After(keys, cursor));
    var rows := PageOf(keys, cursor, limit).rows;
    assert forall i :: 0 <= i < |rows| ==> rows[i] == all[i] && all[i] in all;
  }

  ghost predicate Renders(t: Tombstone, d: Deletion, a: Attempt) {
    d.completedAt.Some? && t == Tombstone(a, d.generation, d.requestedAt, d.completedAt.value)
  }

  lemma ParseRow(d: Deletion, a: Attempt)
    ensures Parse(EntryOf(d, a)).Some? <==> PortableRow(d, a)
    ensures Parse(EntryOf(d, a)).Some? ==> Renders(Parse(EntryOf(d, a)).value, d, a)
  {
  }

  lemma WrittenIsReadable(deletions: map<Attempt, Deletion>, rows: seq<Attempt>, createdAt: nat)
    requires (forall a :: a in rows ==> a in deletions) && |rows| <= MaxEntries && Ascending(rows)
    ensures var read := Read(createdAt, Written(deletions, rows));
            && (read.Some? <==> forall i :: 0 <= i < |rows| ==> PortableRow(deletions[rows[i]], rows[i]))
            && (read.Some? ==> Acceptable(read.value) && Carries(read.value, deletions, rows))
  {
    var entries := Written(deletions, rows);
    var parsed := ParseAll(entries);
    forall i | 0 <= i < |rows|
      ensures Parse(entries[i]).Some? <==> PortableRow(deletions[rows[i]], rows[i])
      ensures parsed.Some? ==> Renders(parsed.value[i], deletions[rows[i]], rows[i])
    {
      ParseRow(deletions[rows[i]], rows[i]);
    }
  }

  /** An entry that is complete, named by identifiers, of a positive 63-bit generation and not completed before its request. */
  ghost predicate WellFormed(e: Entry) {
    && 1 <= |e.attempt.tenant| <= 128 && (forall i :: 0 <= i < |e.attempt.tenant| ==> IdentifierChar(e.attempt.tenant[i]))
    && 1 <= |e.attempt.cluster| <= 128 && (forall i :: 0 <= i < |e.attempt.cluster| ==> IdentifierChar(e.attempt.cluster[i]))
    && 1 <= |e.attempt.name| <= 128 && (forall i :: 0 <= i < |e.attempt.name| ==> IdentifierChar(e.attempt.name[i]))
    && 1 <= e.generation < 0x8000_0000_0000_0000
    && e.completedAt.Some? && e.requestedAt <= e.completedAt.value
  }

  /** Whatever the entries are: they are read exactly if there are not too many, each is well formed and their order is strict. */
  lemma ReadExactly(createdAt: nat, entries: seq<Entry>)
    ensures Read(createdAt, entries).Some? <==>
      && |entries| <= 10_000
      && (forall i :: 0 <= i < |entries| ==> WellFormed(entries[i]))
      && (forall i, j :: 0 <= i < j < |entries| ==> Before(entries[i].attempt, entries[j].attempt))
  {
    assert forall i :: 0 <= i < |entries| ==> (Parse(entries[i]).Some? <==> WellFormed(entries[i]));
    var parsed := ParseAll(entries);
    if parsed.Some? {
      assert forall i :: 0 <= i < |entries| ==> parsed.value[i].attempt == entries[i].attempt;
    }
  }

  /** The entries a bundle is written as. */
  function Unread(tombstones: seq<Tombstone>): (entries: seq<Entry>)
    ensures |entries| == |tombstones|
    ensures forall i :: 0 <= i < |entries| ==>
      var t := tombstones[i]; entries[i] == Entry(t.attempt, t.generation, t.requestedAt, Some(t.completedAt))
  {
    if tombstones == [] then [] else
    var t := tombstones[0];
    [Entry(t.attempt, t.generation, t.requestedAt, Some(t.completedAt))] + Unread(tombstones[1..])
  }

  /** The bundles an import can be given are exactly those that reading gives back as they were written. */
  lemma AcceptableReadsBack(b: Bundle)
    ensures Acceptable(b) <==> Read(b.createdAt, Unread(b.entries)) == Some(b)
  {
    var entries := Unread(b.entries);
    assert forall i :: 0 <= i < |entries| ==> Parse(entries[i]) == if Portable(b.entries[i]) then Some(b.entries[i]) else None;
    var parsed := ParseAll(entries);
    if parsed.Some? {
      assert parsed.value == b.entries;
    }
  }
}
