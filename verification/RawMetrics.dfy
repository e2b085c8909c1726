/**
 * The raw-metrics listing of backend/src/analytics: one keyset page a request, and the walk
 * a client makes by following nextCursor while the collector keeps adding snapshots.
 */
module RawMetrics {
  import opened Wrappers
  import opened PostEntity
  import opened SqlOrder
  import opened CursorCodec

  // The column captured_at is a timestamptz and counts microseconds; a Date, and so a cursor, counts milliseconds.
  datatype Snapshot = Snapshot(metricId: nat, platform: SocialPlatform, remotePostId: RemoteId, capturedAt: nat,
      rawMetrics: map<string, real>)

  datatype RawMetricsPage = RawMetricsPage(items: seq<Snapshot>, nextCursor: Option<RawMetricsCursor>)

  type Table = set<Snapshot>

  /** metric.id is the primary key. */
  ghost predicate Keyed(table: Table) {
    forall a, b | a in table && b in table && a.metricId == b.metricId :: a == b
  }

  // -------------------------------------------------------------- one page

  predicate Newer(a: Snapshot, b: Snapshot) {
    a.capturedAt > b.capturedAt || (a.capturedAt == b.capturedAt && a.metricId > b.metricId)
  }

  /** ORDER BY captured_at DESC, id DESC. */
  function NewestFirst(): Order<Snapshot> {
    (a, b) => Newer(a, b)
  }

  /** (captured_at, id) < ($3, $4). */
  predicate Below(s: Snapshot, c: RawMetricsCursor) {
    s.capturedAt < c.capturedAt * 1000 || (s.capturedAt == c.capturedAt * 1000 && s.metricId < c.metricId)
  }

  function CursorOf(s: Snapshot): RawMetricsCursor {
    RawMetricsCursor(s.capturedAt / 1000, s.metricId)
  }

  function Matching(table: Table, platform: Option<SocialPlatform>): Table {
    set s | s in table && (platform.None? || s.platform == platform.value)
  }

  /** The WHERE clause, for the snapshots of the campaign. */
  function Candidates(table: Table, platform: Option<SocialPlatform>, cursor: Option<RawMetricsCursor>): Table {
    set s | s in Matching(table, platform) && (cursor.None? || Below(s, cursor.value))
  }

  lemma KeyedIsOrdered(table: Table, rows: Table)
    requires Keyed(table) && rows <= table
    ensures IsOrder(NewestFirst(), rows)
  {
  }

  function Newest(table: Table, rows: Table, limit: nat): seq<Snapshot>
    requires Keyed(table) && rows <= table
  {
    KeyedIsOrdered(table, rows);
    FirstOf(NewestFirst(), rows, limit)
  }

  /** campaignRawMetrics of repository and service: one row more than the page tells whether there is another page. */
  function CampaignRawMetrics(table: Table, platform: Option<SocialPlatform>, cursor: Option<RawMetricsCursor>,
      limit: nat): RawMetricsPage
    requires Keyed(table)
  {
    var rows := Newest(table, Candidates(table, platform, cursor), limit + 1);
    var hasMore := |rows| > limit;
    var items := if hasMore then rows[..limit] else rows;
    RawMetricsPage(items, if hasMore && items != [] then Some(CursorOf(items[|items| - 1])) else None)
  }

  /** Everything that matches, strictly newest first. */
  function Listing(table: Table, platform: Option<SocialPlatform>): (items: seq<Snapshot>)
    requires Keyed(table)
  {
    ListingOf(table, Matching(table, platform))
  }

  function ListingOf(table: Table, rows: Table): (items: seq<Snapshot>)
    requires Keyed(table) && rows <= table
    ensures |items| == |rows| && (forall s :: s in items <==> s in rows)
    ensures forall i, k | 0 <= i < k < |items| :: Newer(items[i], items[k])
  {
    NewestIsPage(table, rows, |rows|);
    PageOfAllHasAll(rows, Newest(table, rows, |rows|));
    Newest(table, rows, |rows|)
  }

  lemma NewestIsPage(table: Table, rows: Table, limit: nat)
    requires Keyed(table) && rows <= table
    ensures IsPage(NewestFirst(), rows, limit, Newest(table, rows, limit))
  {
    KeyedIsOrdered(table, rows);
    FirstOfIsPage(NewestFirst(), rows, limit);
  }

  /** What the page query and the full listing have to do with each other. */
  lemma NewestSplits(table: Table, rows: Table, limit: nat)
    requires Keyed(table) && rows <= table
    ensures var probe, first := Newest(table, rows, limit + 1), Newest(table, rows, limit);
            && (|probe| > limit <==> |rows| > limit) && first == (if |probe| > limit then probe[..limit] else probe)
            && (|rows| <= limit ==> first == Newest(table, rows, |rows|))
            && (|rows| > limit ==>
                  var rest := rows - Elements(first);
                  |first| == limit && |rest| == |rows| - limit
                      && Newest(table, rows, |rows|) == first + Newest(table, rest, |rest|))
  {
    KeyedIsOrdered(table, rows);
    OneMoreTells(NewestFirst(), rows, limit);
    if |rows| > limit { FirstOfRest(NewestFirst(), rows, limit); } else { FirstOfAll(NewestFirst(), rows, limit); }
  }

  lemma PageOfAllHasAll(rows: Table, items: seq<Snapshot>)
    requires IsPage(NewestFirst(), rows, |rows|, items)
    ensures forall s :: s in items <==> s in rows
    ensures forall i, k | 0 <= i < k < |items| :: Newer(items[i], items[k])
  {
    assert forall i, k | 0 <= i < k < |items| :: NewestFirst()(items[i], items[k]);
    DistinctCount(items);
    assert Elements(items) <= rows && |Elements(items)| == |rows|;
    SubsetOfSameSize(Elements(items), rows);
  }

  lemma {:induction false} DistinctCount(items: seq<Snapshot>)
    requires forall i, k | 0 <= i < k < |items| :: Newer(items[i], items[k])
    ensures |Elements(items)| == |items|
    decreases |items|
  {
    if items != [] {
      DistinctCount(items[1..]);
      assert items == [items[0]] + items[1..];
      assert Elements(items) == {items[0]} + Elements(items[1..]);
      assert items[0] !in items[1..];
    }
  }

  lemma SubsetOfSameSize(a: Table, b: Table)
    requires a <= b && |a| == |b|
    ensures a == b
  {
    assert |b - a| == |b| - |a|;
  }

  // -------------------------------------------------------------- the walk

  datatype Walked = Walked(items: seq<Snapshot>, finished: bool)

  ghost predicate AllKeyed(tables: seq<Table>) {
    forall table | table in tables :: Keyed(table)
  }

  /** Following nextCursor; tables[k] is what the database holds when page k is asked for. */
  ghost function Walk(tables: seq<Table>, platform: Option<SocialPlatform>, cursor: Option<RawMetricsCursor>,
      limit: nat): Walked
    requires AllKeyed(tables)
    decreases |tables|
  {
    if tables == [] then Walked([], false)
    else
      var page := CampaignRawMetrics(tables[0], platform, cursor, limit);
      if page.nextCursor.None? then Walked(page.items, true)
      else
        var rest := Walk(tables[1..], platform, page.nextCursor, limit);
        Walked(page.items + rest.items, rest.finished)
  }

  /** Snapshots are immutable; what came in since `start` is newer than all that was there. */
  ghost predicate GrewNewer(start: Table, now: Table) {
    && Keyed(now) && start <= now
    && forall n, s | n in now && n !in start && s in start :: Newer(n, s)
  }

  /** Every older snapshot is below the cursor of every newer one. */
  ghost predicate Separated(rows: Table) {
    forall a, b | a in rows && b in rows && Newer(a, b) :: Below(b, CursorOf(a))
  }

  /** So it is when the column holds whole milliseconds, which is what `save` writes. */
  lemma WholeMillisecondsSeparate(rows: Table)
    requires forall s | s in rows :: s.capturedAt % 1000 == 0
    ensures Separated(rows)
  {
  }

  /** Where the walk stands: at the start, or behind a snapshot that was there from the start. */
  ghost predicate StandsIn(start: Table, platform: Option<SocialPlatform>, cursor: Option<RawMetricsCursor>) {
    cursor.None? || exists a :: a in Matching(start, platform) && cursor == Some(CursorOf(a))
  }

  lemma NewSnapshotsStayBehind(start: Table, now: Table, platform: Option<SocialPlatform>,
      cursor: Option<RawMetricsCursor>)
    requires GrewNewer(start, now) && StandsIn(start, platform, cursor) && (cursor.None? ==> now == start)
    ensures Candidates(now, platform, cursor) == Candidates(start, platform, cursor)
  {
    if cursor.Some? {
      var a :| a in Matching(start, platform) && cursor == Some(CursorOf(a));
      forall n | n in now && n !in start ensures !Below(n, cursor.value) { assert Newer(n, a); }
    }
  }

  /** The page's cursor leaves exactly the other candidates. */
  lemma PageSplitsCandidates(table: Table, platform: Option<SocialPlatform>, cursor: Option<RawMetricsCursor>,
      limit: nat)
    requires Keyed(table) && Separated(Matching(table, platform)) && limit >= 1
    requires |Candidates(table, platform, cursor)| > limit
    ensures var rows := Candidates(table, platform, cursor);
            var first := Newest(table, rows, limit);
            && |first| == limit && StandsIn(table, platform, Some(CursorOf(first[limit - 1])))
            && Candidates(table, platform, Some(CursorOf(first[limit - 1]))) == rows - Elements(first)
  {
    var rows := Candidates(table, platform, cursor);
    NewestIsPage(table, rows, limit);
    var first := Newest(table, rows, limit);
    assert first[limit - 1] in rows;
    CursorCuts(table, platform, cursor, first);
  }

  lemma CursorCuts(table: Table, platform: Option<SocialPlatform>, cursor: Option<RawMetricsCursor>,
      first: seq<Snapshot>)
    requires Separated(Matching(table, platform)) && first != []
    requires IsPage(NewestFirst(), Candidates(table, platform, cursor), |first|, first) && Keyed(table)
    ensures Candidates(table, platform, Some(CursorOf(first[|first| - 1])))
             == Candidates(table, platform, cursor) - Elements(first)
  {
    var rows, last := Candidates(table, platform, cursor), first[|first| - 1];
    forall s | s in Matching(table, platform)
      ensures Below(s, CursorOf(last)) <==> s in rows && s !in first
    {
      if s in rows && s !in first { assert NewestFirst()(last, s); }
      if s in first {
        var i :| 0 <= i < |first| && first[i] == s;
        assert s == last || NewestFirst()(s, last);
      }
      if Below(s, CursorOf(last)) { assert last in rows; }
    }
  }

  /** A walk that stands at `cursor` and will see the tables to come. */
  ghost predicate Walking(start: Table, tables: seq<Table>, platform: Option<SocialPlatform>,
      cursor: Option<RawMetricsCursor>, limit: nat) {
    && Keyed(start) && Separated(Matching(start, platform)) && limit >= 1 && StandsIn(start, platform, cursor)
    && AllKeyed(tables) && (forall table | table in tables :: GrewNewer(start, table))
    && (cursor.None? && tables != [] ==> tables[0] == start)
  }

  function NextCursor(start: Table, rows: Table, limit: nat): Option<RawMetricsCursor>
    requires Keyed(start) && rows <= start
  {
    var first := Newest(start, rows, limit);
    if first == [] then None else Some(CursorOf(first[|first| - 1]))
  }

  /** A page in terms of the full listing: the first `limit` candidates, and a cursor exactly if there are more. */
  lemma PageIs(table: Table, platform: Option<SocialPlatform>, cursor: Option<RawMetricsCursor>, limit: nat)
    requires Keyed(table) && limit >= 1
    ensures var rows := Candidates(table, platform, cursor);
            CampaignRawMetrics(table, platform, cursor, limit)
              == RawMetricsPage(Newest(table, rows, limit), if |rows| > limit then NextCursor(table, rows, limit)
                  else None)
  {
    NewestSplits(table, Candidates(table, platform, cursor), limit);
  }

  /** A snapshot the query asks for, in the query's own columns. */
  predicate IsAskedFor(s: Snapshot, platform: Option<SocialPlatform>, cursor: Option<RawMetricsCursor>) {
    && (platform == None || platform == Some(s.platform))
    && (cursor.Some? ==>
          || s.capturedAt < cursor.value.capturedAt * 1000
          || (s.capturedAt == cursor.value.capturedAt * 1000 && s.metricId < cursor.value.metricId))
  }

  /** captured_at DESC, id DESC. */
  predicate IsEarlierInList(a: Snapshot, b: Snapshot) {
    b.capturedAt < a.capturedAt || (b.capturedAt == a.capturedAt && b.metricId < a.metricId)
  }

  /** A page column by column: the newest of what was asked for, in order, and a cursor at its end if there is more. */
  ghost predicate IsPageOf(table: Table, platform: Option<SocialPlatform>, cursor: Option<RawMetricsCursor>, limit: nat,
      page: RawMetricsPage) {
    && |page.items| <= limit
    && (forall s | s in page.items :: s in table && IsAskedFor(s, platform, cursor))
    && (forall i, k | 0 <= i < k < |page.items| :: IsEarlierInList(page.items[i], page.items[k]))
    && (forall s, listed | s in table && IsAskedFor(s, platform, cursor) && s !in page.items && listed in page.items ::
          IsEarlierInList(listed, s))
    && (page.nextCursor.None? ==> forall s | s in table && IsAskedFor(s, platform, cursor) :: s in page.items)
    && (page.nextCursor.Some? ==>
          && |page.items| == limit && limit >= 1
          && (exists s :: s in table && IsAskedFor(s, platform, cursor) && s !in page.items)
          && page.nextCursor == Some(RawMetricsCursor(
               page.items[limit - 1].capturedAt / 1000, page.items[limit - 1].metricId)))
  }

  lemma CandidatesExactly(table: Table, platform: Option<SocialPlatform>, cursor: Option<RawMetricsCursor>, s: Snapshot)
    ensures s in Candidates(table, platform, cursor) <==> s in table && IsAskedFor(s, platform, cursor)
  {
  }

  /** Every page is what the query asks for. */
  lemma PageExactly(table: Table, platform: Option<SocialPlatform>, cursor: Option<RawMetricsCursor>, limit: nat)
    requires Keyed(table) && limit >= 1
    ensures IsPageOf(table, platform, cursor, limit, CampaignRawMetrics(table, platform, cursor, limit))
  {
    var rows, page := Candidates(table, platform, cursor), CampaignRawMetrics(table, platform, cursor, limit);
    PageIs(table, platform, cursor, limit);
    NewestIsPage(table, rows, limit);
    forall s ensures s in rows <==> s in table && IsAskedFor(s, platform, cursor) {
      CandidatesExactly(table, platform, cursor, s);
    }
    PageIsOf(table, platform, cursor, limit, page, rows);
  }

  lemma PageIsOf(table: Table, platform: Option<SocialPlatform>, cursor: Option<RawMetricsCursor>, limit: nat,
      page: RawMetricsPage, rows: Table)
    requires IsPage(NewestFirst(), rows, limit, page.items) && limit >= 1
    requires forall s :: s in rows <==> s in table && IsAskedFor(s, platform, cursor)
    requires page.nextCursor.Some? <==> |rows| > limit
    requires page.nextCursor.Some? ==> page.nextCursor == Some(CursorOf(page.items[limit - 1]))
    ensures IsPageOf(table, platform, cursor, limit, page)
  {
    forall i, k | 0 <= i < k < |page.items| ensures IsEarlierInList(page.items[i], page.items[k]) {
      assert NewestFirst()(page.items[i], page.items[k]);
    }
    forall s, listed | s in rows && s !in page.items && listed in page.items ensures IsEarlierInList(listed, s) {
      var i :| 0 <= i < |page.items| && page.items[i] == listed;
      assert NewestFirst()(page.items[i], s);
    }
    if |rows| <= limit { PageOfAllHasAll(rows, page.items); } else { MoreIsLeft(rows, page.items); }
  }

  lemma MoreIsLeft(rows: Table, items: seq<Snapshot>)
    requires |items| < |rows| && (forall s | s in items :: s in rows)
    requires forall i, k | 0 <= i < k < |items| :: Newer(items[i], items[k])
    ensures exists s :: s in rows && s !in items
  {
    DistinctCount(items);
    assert rows == Elements(items) + (rows - Elements(items));
    var s :| s in rows - Elements(items);
    assert s in rows && s !in items;
  }

  lemma WalkMovesOn(start: Table, tables: seq<Table>, platform: Option<SocialPlatform>,
      cursor: Option<RawMetricsCursor>, limit: nat)
    requires Walking(start, tables, platform, cursor, limit) && tables != []
    requires |Candidates(start, platform, cursor)| > limit
    ensures var rows := Candidates(start, platform, cursor);
            var next := NextCursor(start, rows, limit);
            && Walking(start, tables[1..], platform, next, limit) && next.Some?
            && Candidates(start, platform, next) == rows - Elements(Newest(start, rows, limit))
  {
    PageSplitsCandidates(start, platform, cursor, limit);
  }

  /** One step of the walk, in terms of what is left of the table it began with. */
  lemma WalkStep(start: Table, tables: seq<Table>, platform: Option<SocialPlatform>, cursor: Option<RawMetricsCursor>,
      limit: nat)
    requires Walking(start, tables, platform, cursor, limit) && tables != []
    ensures AllKeyed(tables) && AllKeyed(tables[1..])
    ensures var rows, walked := Candidates(start, platform, cursor), Walk(tables, platform, cursor, limit);
            var first, next := Newest(start, rows, limit), NextCursor(start, rows, limit);
            if |rows| > limit then
              && walked.items == first + Walk(tables[1..], platform, next, limit).items
              && walked.finished == Walk(tables[1..], platform, next, limit).finished
            else walked == Walked(first, true)
  {
    SamePage(start, tables[0], platform, cursor, limit);
    PageIs(start, platform, cursor, limit);
  }

  lemma ListingSplits(start: Table, rows: Table, limit: nat)
    requires Keyed(start) && rows <= start
    ensures ListingOf(start, rows) ==
              if |rows| > limit
                  then Newest(start, rows, limit) + ListingOf(start, rows - Elements(Newest(start, rows, limit)))
              else Newest(start, rows, limit)
  {
    NewestSplits(start, rows, limit);
  }

  /** From wherever the walk stands it lists what is left, in order. */
  lemma {:induction false} WalkLists(start: Table, tables: seq<Table>, platform: Option<SocialPlatform>,
      cursor: Option<RawMetricsCursor>, limit: nat)
    requires Walking(start, tables, platform, cursor, limit)
    ensures var left := ListingOf(start, Candidates(start, platform, cursor));
            var walked := Walk(tables, platform, cursor, limit);
            walked.items <= left && (walked.finished ==> walked.items == left)
    decreases |tables|
  {
    if tables != [] {
      var rows := Candidates(start, platform, cursor);
      WalkStep(start, tables, platform, cursor, limit);
      ListingSplits(start, rows, limit);
      if |rows| > limit {
        WalkMovesOn(start, tables, platform, cursor, limit);
        WalkLists(start, tables[1..], platform, NextCursor(start, rows, limit), limit);
      }
    }
  }

  /** Rows that so many pages can hold. */
  function Capacity(pages: nat, limit: nat): nat {
    if pages == 0 then 0 else limit + Capacity(pages - 1, limit)
  }

  lemma {:induction false} CapacityIsProduct(pages: nat, limit: nat)
    ensures Capacity(pages, limit) == pages * limit
  {
    if pages > 0 {
      CapacityIsProduct(pages - 1, limit);
      assert pages * limit == (pages - 1) * limit + limit;
    }
  }

  /** What a full page leaves fits on the pages that are left. */
  lemma RestFits(start: Table, tables: seq<Table>, platform: Option<SocialPlatform>, cursor: Option<RawMetricsCursor>,
      limit: nat) returns (next: Option<RawMetricsCursor>)
    requires Walking(start, tables, platform, cursor, limit) && tables != []
    requires Capacity(|tables|, limit) >= |Candidates(start, platform, cursor)| > limit
    ensures next == NextCursor(start, Candidates(start, platform, cursor), limit) && |tables| > 1
    ensures Walking(start, tables[1..], platform, next, limit)
    ensures Capacity(|tables[1..]|, limit) >= |Candidates(start, platform, next)|
  {
    var rows := Candidates(start, platform, cursor);
    next := NextCursor(start, rows, limit);
    NewestSplits(start, rows, limit);
    WalkMovesOn(start, tables, platform, cursor, limit);
  }

  /** It ends if it may ask for enough pages. */
  lemma {:induction false} WalkEnds(start: Table, tables: seq<Table>, platform: Option<SocialPlatform>,
      cursor: Option<RawMetricsCursor>, limit: nat)
    requires Walking(start, tables, platform, cursor, limit)
    requires |tables| > 0 && Capacity(|tables|, limit) >= |Candidates(start, platform, cursor)|
    ensures Walk(tables, platform, cursor, limit).finished
    decreases |tables|
  {
    WalkStep(start, tables, platform, cursor, limit);
    if |Candidates(start, platform, cursor)| > limit {
      var next := RestFits(start, tables, platform, cursor, limit);
      WalkEnds(start, tables[1..], platform, next, limit);
    }
  }

  lemma SamePage(start: Table, now: Table, platform: Option<SocialPlatform>, cursor: Option<RawMetricsCursor>,
      limit: nat)
    requires Keyed(start) && GrewNewer(start, now) && StandsIn(start, platform, cursor)
    requires cursor.None? ==> now == start
    ensures CampaignRawMetrics(now, platform, cursor, limit) == CampaignRawMetrics(start, platform, cursor, limit)
  {
    NewSnapshotsStayBehind(start, now, platform, cursor);
  }

  /** The snapshots of the table on this platform, or on any, each once, newest first and by falling ids. */
  ghost predicate IsListOf(items: seq<Snapshot>, table: Table, platform: Option<SocialPlatform>) {
    && (forall s :: s in items <==> s in table && (platform == None || platform == Some(s.platform)))
    && (forall i, k | 0 <= i < k < |items| ::
          || items[k].capturedAt < items[i].capturedAt
          || (items[k].capturedAt == items[i].capturedAt && items[k].metricId < items[i].metricId))
  }

  lemma ListingIsList(table: Table, platform: Option<SocialPlatform>)
    requires Keyed(table)
    ensures IsListOf(Listing(table, platform), table, platform)
  {
    var items := ListingOf(table, Matching(table, platform));
    forall i, k | 0 <= i < k < |items|
      ensures items[k].capturedAt < items[i].capturedAt
              || (items[k].capturedAt == items[i].capturedAt && items[k].metricId < items[i].metricId)
    {
      assert Newer(items[i], items[k]);
    }
  }

  /**
   * Following nextCursor lists every snapshot that matched when the walk began, exactly once
   * and strictly newest first, whatever newer snapshots come in meanwhile; and it ends.
   */
  lemma PagingEqualsListing(tables: seq<Table>, platform: Option<SocialPlatform>, limit: nat)
    requires tables != [] && limit >= 1 && Keyed(tables[0]) && Separated(Matching(tables[0], platform))
    requires AllKeyed(tables) && forall table | table in tables :: GrewNewer(tables[0], table)
    ensures var walked, all := Walk(tables, platform, None, limit), Listing(tables[0], platform);
            && walked.items <= all
            && (walked.finished ==> walked.items == all)
            && (|tables| * limit >= |all| ==> walked.finished)
    ensures var walked := Walk(tables, platform, None, limit);
            walked.finished ==> IsListOf(walked.items, tables[0], platform)
  {
    ListingIsList(tables[0], platform);
    assert Candidates(tables[0], platform, None) == Matching(tables[0], platform);
    WalkLists(tables[0], tables, platform, None, limit);
    CapacityIsProduct(|tables|, limit);
    if |tables| * limit >= |Matching(tables[0], platform)| { WalkEnds(tables[0], tables, platform, None, limit); }
  }

  // -------------------------------------------------------------- exactly when

  /** The walk over a table nobody writes to. */
  function Unchanging(table: Table, pages: nat): (tables: seq<Table>)
    ensures |tables| == pages && forall t | t in tables :: t == table
  {
    seq(pages, _ => table)
  }

  ghost predicate ListsEverything(table: Table, platform: Option<SocialPlatform>, limit: nat, pages: nat)
    requires Keyed(table)
  {
    Walk(Unchanging(table, pages), platform, None, limit) == Walked(Listing(table, platform), true)
  }

  ghost predicate Chained(items: seq<Snapshot>) {
    forall i | 0 <= i < |items| - 1 :: Below(items[i + 1], CursorOf(items[i]))
  }

  lemma ChainExtends(x: Snapshot, rest: seq<Snapshot>)
    requires Chained(rest) && (rest != [] ==> Below(rest[0], CursorOf(x)))
    ensures Chained([x] + rest)
  {
    var items := [x] + rest;
    forall i | 0 <= i < |items| - 1 ensures Below(items[i + 1], CursorOf(items[i])) {
      if i > 0 { assert Below(rest[i - 1 + 1], CursorOf(rest[i - 1])); }
    }
  }

  lemma OneItemPage(table: Table, platform: Option<SocialPlatform>, cursor: Option<RawMetricsCursor>)
    requires Keyed(table)
    ensures var rows, page := Candidates(table, platform, cursor), CampaignRawMetrics(table, platform, cursor, 1);
            && |page.items| <= 1 && (page.items != [] ==> page.items[0] in rows)
            && (page.nextCursor.Some? ==> page.items != [] && page.nextCursor == Some(CursorOf(page.items[0])))
  {
    PageIs(table, platform, cursor, 1);
    NewestIsPage(table, Candidates(table, platform, cursor), 1);
  }

  /** With one item a page, every item was below the cursor of the one before. */
  lemma {:induction false} OneByOneIsChained(table: Table, tables: seq<Table>, platform: Option<SocialPlatform>,
      cursor: Option<RawMetricsCursor>)
    requires Keyed(table) && AllKeyed(tables) && forall t | t in tables :: t == table
    ensures var items := Walk(tables, platform, cursor, 1).items;
            Chained(items) && (items != [] && cursor.Some? ==> Below(items[0], cursor.value))
    decreases |tables|
  {
    if tables != [] {
      var page := CampaignRawMetrics(tables[0], platform, cursor, 1);
      OneItemPage(table, platform, cursor);
      if page.nextCursor.Some? {
        assert forall t | t in tables[1..] :: t in tables;
        OneByOneIsChained(table, tables[1..], platform, page.nextCursor);
        ChainExtends(page.items[0], Walk(tables[1..], platform, page.nextCursor, 1).items);
        assert page.items == [page.items[0]];
      }
    }
  }

  lemma {:induction false} ChainedIsSeparated(items: seq<Snapshot>, i: nat, k: nat)
    requires i < k < |items| && Chained(items) && forall a, b | 0 <= a < b < |items| :: Newer(items[a], items[b])
    ensures Below(items[k], CursorOf(items[i]))
    decreases k - i
  {
    if i + 1 < k {
      ChainedIsSeparated(items, i, k - 1);
      assert Newer(items[k - 1], items[k]);
    }
  }

  lemma ListedIsSeparated(table: Table, platform: Option<SocialPlatform>)
    requires Keyed(table) && Chained(Listing(table, platform))
    ensures Separated(Matching(table, platform))
  {
    var items := Listing(table, platform);
    forall a, b | a in Matching(table, platform) && b in Matching(table, platform) && Newer(a, b)
      ensures Below(b, CursorOf(a))
    {
      var i :| 0 <= i < |items| && items[i] == a;
      var k :| 0 <= k < |items| && items[k] == b;
      if i < k { ChainedIsSeparated(items, i, k); }
    }
  }

  /**
   * Paging works for every page size exactly if no two snapshots lie so close together that
   * rounding the newer one's time down to milliseconds puts it before the older one.
   */
  lemma PagingIsExact(table: Table, platform: Option<SocialPlatform>)
    requires Keyed(table)
    ensures (forall limit: nat, pages: nat | limit >= 1 && pages >= 1 && pages * limit >= |Matching(table, platform)| ::
               ListsEverything(table, platform, limit, pages))
            <==> Separated(Matching(table, platform))
  {
    if Separated(Matching(table, platform)) {
      forall limit: nat, pages: nat | limit >= 1 && pages >= 1 && pages * limit >= |Matching(table, platform)|
        ensures ListsEverything(table, platform, limit, pages)
      {
        var tables := Unchanging(table, pages);
        assert tables[0] in tables;
        PagingEqualsListing(tables, platform, limit);
      }
    } else {
      var pages := |Matching(table, platform)| + 1;
      OneByOneIsChained(table, Unchanging(table, pages), platform, None);
      if ListsEverything(table, platform, 1, pages) { ListedIsSeparated(table, platform); }
      assert pages * 1 >= |Matching(table, platform)| && !ListsEverything(table, platform, 1, pages);
    }
  }

  // -------------------------------------------------------------- a snapshot that is never shown

  lemma NothingBelow(a: Snapshot, b: Snapshot)
    requires Newer(a, b) && !Below(b, CursorOf(a))
    ensures Candidates({a, b}, None, Some(CursorOf(a))) == {}
  {
    assert !Below(a, CursorOf(a));
  }

  lemma FirstPageShowsNewest(a: Snapshot, b: Snapshot)
    requires Newer(a, b) && Keyed({a, b})
    ensures CampaignRawMetrics({a, b}, None, None, 1) == RawMetricsPage([a], Some(CursorOf(a)))
  {
    var table := {a, b};
    assert Candidates(table, None, None) == table && |table| == 2;
    PageIs(table, None, None, 1);
    NewestIsPage(table, table, 1);
    var first := Newest(table, table, 1);
    assert first[0] in table;
    assert first[0] == b ==> NewestFirst()(b, a);
    assert first == [first[0]];
  }

  lemma SecondPageIsEmpty(a: Snapshot, b: Snapshot)
    requires Newer(a, b) && !Below(b, CursorOf(a)) && Keyed({a, b})
    ensures CampaignRawMetrics({a, b}, None, Some(CursorOf(a)), 1) == RawMetricsPage([], None)
  {
    NothingBelow(a, b);
    PageIs({a, b}, None, Some(CursorOf(a)), 1);
    NewestIsPage({a, b}, {}, 1);
  }

  /** A walk one by one over such a pair says it has listed everything, and never shows the older one. */
  lemma OlderIsNeverShown(a: Snapshot, b: Snapshot, pages: nat)
    requires Newer(a, b) && !Below(b, CursorOf(a)) && Keyed({a, b})
    ensures Walk(Unchanging({a, b}, pages), None, None, 1) == Walked(if pages == 0 then [] else [a], pages >= 2)
  {
    var tables := Unchanging({a, b}, pages);
    if pages > 0 {
      FirstPageShowsNewest(a, b);
      if pages > 1 { SecondPageIsEmpty(a, b); }
    }
  }

  /** The column could hold such a pair: here the second snapshot is never shown, however many pages are asked for. */
  lemma MicrosecondsCanBeSkipped(pages: nat)
    ensures var a, b := Snapshot(1, X, 0, 1_000_900, map[]), Snapshot(2, X, 1, 1_000_500, map[]);
            && Keyed({a, b}) && !Separated(Matching({a, b}, None))
            && b in Listing({a, b}, None) && b !in Walk(Unchanging({a, b}, pages), None, None, 1).items
            && (pages >= 2 ==> Walk(Unchanging({a, b}, pages), None, None, 1).finished)
  {
    var a, b := Snapshot(1, X, 0, 1_000_900, map[]), Snapshot(2, X, 1, 1_000_500, map[]);
    assert Newer(a, b) && !Below(b, CursorOf(a));
    assert a in Matching({a, b}, None) && b in Matching({a, b}, None);
    OlderIsNeverShown(a, b, pages);
  }

  // -------------------------------------------------------------- the cursor as text

  datatype TextPage = TextPage(items: seq<Snapshot>, nextCursor: Option<string>)

  /** Ids are UUIDs as the program makes them, and times are times a Date can hold. */
  ghost predicate Encodable(table: Table) {
    forall s | s in table :: IsCursor(CursorOf(s))
  }

  ghost predicate AllEncodable(tables: seq<Table>) {
    forall table | table in tables :: Encodable(table)
  }

  function TextOfCursor(cursor: Option<RawMetricsCursor>): Option<string>
    requires cursor.Some? ==> IsCursor(cursor.value)
  {
    match cursor
    case None => None
    case Some(c) => Some(EncodeCursor(c))
  }

  /** The query parameter: missing or empty is no cursor, anything else has to decode. */
  function CursorOfText(text: Option<string>): Option<Option<RawMetricsCursor>> {
    if text.None? || text.value == "" then Some(None)
    else match DecodeCursor(text.value)
      case None => None
      case Some(c) => Some(Some(c))
  }

  lemma TextIsRead(cursor: Option<RawMetricsCursor>)
    requires cursor.Some? ==> IsCursor(cursor.value)
    ensures CursorOfText(TextOfCursor(cursor)) == Some(cursor)
  {
    if cursor.Some? {
      EncodedIsNotEmpty(cursor.value);
      DecodeOfEncode(cursor.value);
    }
  }

  lemma NextCursorIsOne(table: Table, platform: Option<SocialPlatform>, cursor: Option<RawMetricsCursor>, limit: nat)
    requires Keyed(table) && Encodable(table)
    ensures var next := CampaignRawMetrics(table, platform, cursor, limit).nextCursor;
            next.Some? ==> IsCursor(next.value)
  {
    var rows := Candidates(table, platform, cursor);
    NewestIsPage(table, rows, limit + 1);
    var page := CampaignRawMetrics(table, platform, cursor, limit);
    if page.nextCursor.Some? { assert page.items[|page.items| - 1] in rows; }
  }

  /** campaignRawMetrics as a client sees it; None is the BadRequestException. */
  ghost function CampaignRawMetricsText(table: Table, platform: Option<SocialPlatform>, cursor: Option<string>,
      limit: nat): Option<TextPage>
    requires Keyed(table) && Encodable(table)
  {
    match CursorOfText(cursor)
    case None => None
    case Some(read) =>
      NextCursorIsOne(table, platform, read, limit);
      var page := CampaignRawMetrics(table, platform, read, limit);
      Some(TextPage(page.items, TextOfCursor(page.nextCursor)))
  }

  /** Following nextCursor as text; a refused cursor ends the walk. */
  ghost function WalkText(tables: seq<Table>, platform: Option<SocialPlatform>, cursor: Option<string>,
      limit: nat): Walked
    requires AllKeyed(tables) && AllEncodable(tables)
    decreases |tables|
  {
    if tables == [] then Walked([], false)
    else match CampaignRawMetricsText(tables[0], platform, cursor, limit)
      case None => Walked([], false)
      case Some(page) =>
        if page.nextCursor.None? then Walked(page.items, true)
        else
          var rest := WalkText(tables[1..], platform, page.nextCursor, limit);
          Walked(page.items + rest.items, rest.finished)
  }

  lemma TextPageIsPage(table: Table, platform: Option<SocialPlatform>, cursor: Option<RawMetricsCursor>, limit: nat)
    requires Keyed(table) && Encodable(table) && (cursor.Some? ==> IsCursor(cursor.value))
    ensures var page := CampaignRawMetrics(table, platform, cursor, limit);
            && (page.nextCursor.Some? ==> IsCursor(page.nextCursor.value))
            && CampaignRawMetricsText(table, platform, TextOfCursor(cursor), limit)
                 == Some(TextPage(page.items, TextOfCursor(page.nextCursor)))
  {
    TextIsRead(cursor);
    NextCursorIsOne(table, platform, cursor, limit);
  }

  /** No cursor the service hands out is ever refused, and each leads on where it was handed out. */
  lemma {:induction false} TextWalkIsWalk(tables: seq<Table>, platform: Option<SocialPlatform>,
      cursor: Option<RawMetricsCursor>, limit: nat)
    requires AllKeyed(tables) && AllEncodable(tables) && (cursor.Some? ==> IsCursor(cursor.value))
    ensures WalkText(tables, platform, TextOfCursor(cursor), limit) == Walk(tables, platform, cursor, limit)
    decreases |tables|
  {
    if tables != [] {
      TextPageIsPage(tables[0], platform, cursor, limit);
      var page := CampaignRawMetrics(tables[0], platform, cursor, limit);
      if page.nextCursor.Some? { TextWalkIsWalk(tables[1..], platform, page.nextCursor, limit); }
    }
  }

  /** PagingEqualsListing for the text cursors of the API. */
  lemma TextPagingEqualsListing(tables: seq<Table>, platform: Option<SocialPlatform>, limit: nat)
    requires tables != [] && limit >= 1 && Keyed(tables[0]) && Separated(Matching(tables[0], platform))
    requires AllKeyed(tables) && AllEncodable(tables) && forall table | table in tables :: GrewNewer(tables[0], table)
    ensures var walked, all := WalkText(tables, platform, None, limit), Listing(tables[0], platform);
            && walked.items <= all
            && (walked.finished ==> walked.items == all)
            && (|tables| * limit >= |all| ==> walked.finished)
    ensures var walked := WalkText(tables, platform, None, limit);
            walked.finished ==> IsListOf(walked.items, tables[0], platform)
  {
    TextWalkIsWalk(tables, platform, None, limit);
    PagingEqualsListing(tables, platform, limit);
  }
}
