/**
 * Reading a conversation page by page. Later pages are asked for by cursor,
 * while new messages keep arriving.
 */
module CursorPaging {
  import opened Common

  /** Ids are compared only with one another, so their rank stands for their text. */
  datatype Message = Message(id: int, createdAt: int)

  /** The listing order: latest creation first, then greatest id. */
  predicate Newer(a: Message, b: Message) {
    a.createdAt > b.createdAt || (a.createdAt == b.createdAt && a.id > b.id)
  }

  function Insert(m: Message, sorted: seq<Message>): seq<Message> {
    if sorted == [] || Newer(m, sorted[0]) then [m] + sorted
    else [sorted[0]] + Insert(m, sorted[1..])
  }

  /** The rows of the table, newest first. */
  function Newest(table: seq<Message>): seq<Message> {
    if table == [] then [] else Insert(table[|table| - 1], Newest(table[..|table| - 1]))
  }

  function Reverse(s: seq<Message>): (r: seq<Message>)
    ensures |r| == |s|
  {
    if s == [] then [] else Reverse(s[1..]) + [s[0]]
  }

  // ---- One request ----

  const DEFAULT_LIMIT: nat := 50
  const MAXIMUM_LIMIT: nat := 100

  function NormalizedPage(page: Option<int>): (p: nat)
    ensures p >= 1
  {
    if page.Some? && page.value > 0 then page.value else 1
  }

  function NormalizedLimit(limit: Option<int>): (l: nat)
    ensures 1 <= l <= MAXIMUM_LIMIT
  {
    if limit.Some? && limit.value > 0 then
      (if limit.value < MAXIMUM_LIMIT then limit.value else MAXIMUM_LIMIT)
    else DEFAULT_LIMIT
  }

  predicate HasId(table: seq<Message>, id: int) {
    exists i :: 0 <= i < |table| && table[i].id == id
  }

  /** How many rows of the listing come up to and including the row with this id. */
  function Through(sorted: seq<Message>, id: int): (n: nat)
    ensures n <= |sorted|
  {
    if sorted == [] then 0 else if sorted[0].id == id then 1 else 1 + Through(sorted[1..], id)
  }

  function Take(s: seq<Message>, n: nat): seq<Message> {
    if n < |s| then s[..n] else s
  }

  function Drop(s: seq<Message>, n: nat): seq<Message> {
    if n < |s| then s[n..] else []
  }

  datatype Query = Query(cursor: Option<int>, page: Option<int>, limit: Option<int>)

  datatype Page = Page(items: seq<Message>, totalItems: nat, hasMore: bool, nextCursor: Option<int>)

  datatype PageError = InvalidCursor

  /**
   * The rows and the total are read by two separate queries, so the total
   * belongs to a table that may be older or newer than the one listed.
   */
  function MessagesPage(table: seq<Message>, total: nat, query: Query): Result<Page, PageError> {
    var limit := NormalizedLimit(query.limit);
    var offset := (NormalizedPage(query.page) - 1) * limit;
    if query.cursor.Some? && !HasId(table, query.cursor.value) then Failure(InvalidCursor)
    else
      var listing := Newest(table);
      var rows := if query.cursor.Some? then Take(Drop(listing, Through(listing, query.cursor.value)), limit + 1)
                  else Take(Drop(listing, offset), limit);
      var hasMore := if query.cursor.Some? then |rows| > limit else offset + |rows| < total;
      var pageRows := Take(rows, limit);
      Success(Page(Reverse(pageRows), total, hasMore,
                   if hasMore && pageRows != [] then Some(pageRows[|pageRows| - 1].id) else None))
  }

  /** A page number below one is the first page; the limit is 50 by default and 100 at most. */
  lemma RequestIsNormalized(page: Option<int>, limit: Option<int>)
    ensures NormalizedPage(page) == match page case Some(p) => (if p >= 1 then p else 1) case None => 1
    ensures NormalizedLimit(limit) ==
            match limit case Some(l) => (if l < 1 then 50 else if l <= 100 then l else 100) case None => 50
  {
  }

  function Least(a: nat, b: nat): nat {
    if a <= b then a else b
  }

  /** The rows of a listing from one place on, up to a number of them. */
  function Window(listing: seq<Message>, from: nat, count: nat): seq<Message> {
    listing[Least(from, |listing|)..Least(from + count, |listing|)]
  }

  lemma TakenFromDropped(listing: seq<Message>, from: nat, count: nat)
    ensures Take(Drop(listing, from), count) == Window(listing, from, count)
    ensures Take(Take(Drop(listing, from), count), count) == Window(listing, from, count)
    ensures Take(Take(Drop(listing, from), count + 1), count) == Window(listing, from, count)
    ensures |Take(Drop(listing, from), count + 1)| > count <==> from + count < |listing|
    ensures from + count < |listing| ==> |Window(listing, from, count)| == count
  {
  }

  /** How many rows the pages before this one show. */
  function ShownBefore(page: Option<int>, limit: Option<int>): nat {
    (NormalizedPage(page) - 1) * NormalizedLimit(limit)
  }

  /** By number, a page shows the rows after those of the pages before it, oldest first, and counts on the total. */
  lemma NumberedPageRule(table: seq<Message>, total: nat, page: Option<int>, limit: Option<int>)
    ensures var r := MessagesPage(table, total, Query(None, page, limit));
            var rows := Window(Newest(table), ShownBefore(page, limit), NormalizedLimit(limit));
            && r.Success? && r.value.items == Reverse(rows) && r.value.totalItems == total
            && (r.value.hasMore <==> ShownBefore(page, limit) + |rows| < total)
            && r.value.nextCursor == if r.value.hasMore && rows != [] then Some(rows[|rows| - 1].id) else None
  {
    TakenFromDropped(Newest(table), ShownBefore(page, limit), NormalizedLimit(limit));
    hide Newest, Reverse, NormalizedPage, NormalizedLimit, Take, Drop, Window;
  }

  /**
   * By cursor, the rows listed after the cursor's follow; the request is
   * refused exactly for an id that is not there.
   */
  lemma CursorPageRule(table: seq<Message>, total: nat, cursor: int, page: Option<int>, limit: Option<int>)
    ensures var r := MessagesPage(table, total, Query(Some(cursor), page, limit));
            var from, l := Through(Newest(table), cursor), NormalizedLimit(limit);
            var rows := Window(Newest(table), from, l);
            && (r.Success? <==> exists i :: 0 <= i < |table| && table[i].id == cursor)
            && (r.Success? ==> r.value.items == Reverse(rows) && r.value.totalItems == total)
            && (r.Success? ==> (r.value.hasMore <==> from + l < |Newest(table)|))
            && (r.Success? ==>
                  r.value.nextCursor == if r.value.hasMore && rows != [] then Some(rows[|rows| - 1].id) else None)
  {
    TakenFromDropped(Newest(table), Through(Newest(table), cursor), NormalizedLimit(limit));
    hide Newest, Reverse, NormalizedPage, NormalizedLimit, Take, Drop, Window, Through;
  }

  /** A listing is cut right behind the first row with the id. */
  lemma {:induction false} CutBehindTheFirst(listing: seq<Message>, id: int)
    ensures Through(listing, id) < |listing| ==>
              Through(listing, id) > 0 && listing[Through(listing, id) - 1].id == id
    ensures forall i :: 0 <= i < Through(listing, id) - 1 ==> listing[i].id != id
  {
    if listing != [] && listing[0].id != id {
      CutBehindTheFirst(listing[1..], id);
      forall i | 0 <= i < Through(listing, id) - 1 ensures listing[i].id != id {
        if i > 0 {
          assert listing[i] == listing[1..][i - 1];
        }
      }
    }
  }

  // ---- The listing ----

  ghost predicate SameId(table: seq<Message>, i: int, j: int) {
    0 <= i < |table| && 0 <= j < |table| && table[i].id == table[j].id
  }

  ghost predicate DistinctIds(table: seq<Message>) {
    forall i, j :: SameId(table, i, j) ==> i == j
  }

  ghost predicate IsListing(sorted: seq<Message>) {
    forall i, j :: 0 <= i < j < |sorted| ==> Newer(sorted[i], sorted[j])
  }

  lemma {:induction false} InsertAdds(m: Message, sorted: seq<Message>)
    ensures multiset(Insert(m, sorted)) == multiset(sorted) + multiset{m}
  {
    if sorted != [] && !Newer(m, sorted[0]) {
      InsertAdds(m, sorted[1..]);
      assert sorted == [sorted[0]] + sorted[1..];
    }
  }

  lemma OnlyTheInserted(m: Message, sorted: seq<Message>, x: Message)
    requires x in Insert(m, sorted)
    ensures x == m || x in sorted
  {
    InsertAdds(m, sorted);
    assert x in multiset(Insert(m, sorted));
  }

  lemma {:induction false} InsertKeeps(m: Message, sorted: seq<Message>)
    requires IsListing(sorted)
    requires forall i :: 0 <= i < |sorted| ==> sorted[i].id != m.id
    ensures IsListing(Insert(m, sorted))
  {
    if sorted != [] && !Newer(m, sorted[0]) {
      InsertKeeps(m, sorted[1..]);
      var rest := Insert(m, sorted[1..]);
      forall i | 0 <= i < |rest| ensures Newer(sorted[0], rest[i]) {
        OnlyTheInserted(m, sorted[1..], rest[i]);
      }
    }
  }

  lemma InitIsDistinct(table: seq<Message>)
    requires DistinctIds(table) && table != []
    ensures DistinctIds(table[..|table| - 1])
    ensures forall m :: m in table[..|table| - 1] ==> m.id != table[|table| - 1].id
  {
    var init := table[..|table| - 1];
    forall i, j | SameId(init, i, j) ensures i == j {
      assert SameId(table, i, j);
    }
    forall m | m in init ensures m.id != table[|table| - 1].id {
      var i :| 0 <= i < |init| && init[i] == m;
      assert SameId(table, i, |table| - 1) ==> i == |table| - 1;
    }
  }

  /** The listing is in order and holds exactly the rows of the table. */
  lemma {:induction false} NewestIsTheListing(table: seq<Message>)
    requires DistinctIds(table)
    ensures IsListing(Newest(table))
    ensures multiset(Newest(table)) == multiset(table)
    ensures |Newest(table)| == |table|
  {
    if table != [] {
      var init, last := table[..|table| - 1], table[|table| - 1];
      InitIsDistinct(table);
      NewestIsTheListing(init);
      assert table == init + [last];
      forall i | 0 <= i < |Newest(init)| ensures Newest(init)[i].id != last.id {
        assert multiset(Newest(init))[Newest(init)[i]] > 0;
        assert Newest(init)[i] in init;
      }
      InsertKeeps(last, Newest(init));
      InsertAdds(last, Newest(init));
    }
    assert |Newest(table)| == |multiset(Newest(table))| == |multiset(table)| == |table|;
  }

  lemma SameRows(table: seq<Message>)
    requires DistinctIds(table)
    ensures forall m :: m in Newest(table) <==> m in table
  {
    NewestIsTheListing(table);
    forall m ensures m in Newest(table) <==> m in table {
      assert m in multiset(Newest(table)) <==> m in multiset(table);
    }
  }

  // ---- Below a row ----

  /** The rows of the listing that come after the one with this id. */
  function Below(table: seq<Message>, id: int): seq<Message> {
    Drop(Newest(table), Through(Newest(table), id))
  }

  lemma {:induction false} ThroughFindsIt(sorted: seq<Message>, k: nat)
    requires k < |sorted| && IsListing(sorted)
    requires forall i :: 0 <= i < k ==> sorted[i].id != sorted[k].id
    ensures Through(sorted, sorted[k].id) == k + 1
  {
    if k > 0 {
      assert sorted[0].id != sorted[k].id;
      assert sorted[1..][k - 1] == sorted[k];
      ThroughFindsIt(sorted[1..], k - 1);
    }
  }

  /** `rest` lists exactly the rows of the table that are older than `last`. */
  ghost predicate ListsOlder(rest: seq<Message>, table: seq<Message>, last: Message) {
    IsListing(rest) && forall m :: m in rest <==> m in table && Newer(last, m)
  }

  lemma TailIsOlder(sorted: seq<Message>, k: nat)
    requires k < |sorted| && IsListing(sorted)
    ensures IsListing(sorted[k + 1..])
    ensures forall m :: m in sorted[k + 1..] <==> m in sorted && Newer(sorted[k], m)
  {
    var below := sorted[k + 1..];
    forall m ensures m in below <==> m in sorted && Newer(sorted[k], m) {
      if m in below {
        var i :| 0 <= i < |below| && below[i] == m;
        assert sorted[k + 1 + i] == m;
      }
      if m in sorted && Newer(sorted[k], m) {
        var i :| 0 <= i < |sorted| && sorted[i] == m;
        assert i > k;
        assert below[i - k - 1] == m;
      }
    }
  }

  lemma IdsDiffer(table: seq<Message>, a: Message, b: Message)
    requires DistinctIds(table) && a in table && b in table && a != b
    ensures a.id != b.id
  {
    var i :| 0 <= i < |table| && table[i] == a;
    var j :| 0 <= j < |table| && table[j] == b;
    assert SameId(table, i, j) ==> i == j;
  }

  /** They are exactly the older rows of the table, in order. */
  lemma BelowIsOlder(table: seq<Message>, last: Message)
    requires DistinctIds(table) && last in table
    ensures HasId(table, last.id)
    ensures ListsOlder(Below(table, last.id), table, last)
  {
    var listing := Newest(table);
    NewestIsTheListing(table);
    SameRows(table);
    hide Newest;
    var at :| 0 <= at < |table| && table[at] == last;
    assert table[at].id == last.id;
    var k :| 0 <= k < |listing| && listing[k] == last;
    hide DistinctIds;
    forall i | 0 <= i < k ensures listing[i].id != listing[k].id {
      assert Newer(listing[i], listing[k]);
      IdsDiffer(table, listing[i], listing[k]);
    }
    ThroughFindsIt(listing, k);
    TailIsOlder(listing, k);
    assert Below(table, last.id) == listing[k + 1..];
  }

  // ---- The walk ----

  /** The table each request of the walk finds: request k reads tables[k], the last one stays from then on. */
  ghost predicate History(tables: seq<seq<Message>>) {
    && tables != []
    && (forall k :: 0 <= k < |tables| ==> DistinctIds(tables[k]))
    && forall j, k :: 0 <= j <= k < |tables| ==> tables[j] <= tables[k]
  }

  function TableAt(tables: seq<seq<Message>>, k: nat): seq<Message>
    requires tables != []
  {
    if k < |tables| then tables[k] else tables[|tables| - 1]
  }

  function Final(tables: seq<seq<Message>>): seq<Message>
    requires tables != []
  {
    tables[|tables| - 1]
  }

  /** Messages are only added. */
  lemma TablesGrow(tables: seq<seq<Message>>, j: nat, k: nat)
    requires History(tables) && j <= k
    ensures DistinctIds(TableAt(tables, j))
    ensures forall m :: m in TableAt(tables, j) ==> m in TableAt(tables, k) && m in Final(tables)
  {
    assert TableAt(tables, j) <= TableAt(tables, k) <= Final(tables);
  }

  lemma StaysThere(tables: seq<seq<Message>>, j: nat, k: nat, m: Message)
    requires History(tables) && j <= k && m in TableAt(tables, j)
    ensures m in TableAt(tables, k) && m in Final(tables)
  {
    TablesGrow(tables, j, k);
  }

  /** What the request with this cursor, the k-th, returns. */
  function CursorPage(tables: seq<seq<Message>>, k: nat, cursor: int, limit: Option<int>): Result<Page, PageError>
    requires tables != []
  {
    var table := TableAt(tables, k);
    MessagesPage(table, |table|, Query(Some(cursor), None, limit))
  }

  lemma TakeTwice(rest: seq<Message>, l: nat)
    ensures Take(Take(rest, l + 1), l) == Take(rest, l)
    ensures |Take(rest, l + 1)| > l <==> l < |rest|
    ensures l > 0 && rest != [] ==> Take(rest, l)[|Take(rest, l)| - 1] == rest[|Take(rest, l)| - 1]
  {
  }

  /** The page made of the first rows of what is left. */
  function PageOf(rest: seq<Message>, total: nat, limit: nat): Page
    requires limit > 0
  {
    Page(Reverse(Take(rest, limit)), total, limit < |rest|, if limit < |rest| then Some(rest[limit - 1].id) else None)
  }

  lemma CursorPageByRest(tables: seq<seq<Message>>, k: nat, last: Message, limit: Option<int>)
    requires History(tables) && last in TableAt(tables, k)
    ensures var rest := Below(TableAt(tables, k), last.id);
            && ListsOlder(rest, TableAt(tables, k), last)
            && CursorPage(tables, k, last.id, limit)
               == Success(PageOf(rest, |TableAt(tables, k)|, NormalizedLimit(limit)))
  {
    BelowIsOlder(TableAt(tables, k), last);
    TakeTwice(Below(TableAt(tables, k), last.id), NormalizedLimit(limit));
  }

  lemma {:induction false} ReverseAt(s: seq<Message>, i: nat)
    requires i < |s|
    ensures Reverse(s)[i] == s[|s| - 1 - i]
  {
    if i < |s| - 1 {
      ReverseAt(s[1..], i);
    }
  }

  ghost predicate Ascending(shown: seq<Message>) {
    forall i, j :: 0 <= i < j < |shown| ==> Newer(shown[j], shown[i])
  }

  /** A piece of the listing, shown oldest first. */
  lemma ReverseAscends(rows: seq<Message>)
    requires IsListing(rows)
    ensures Ascending(Reverse(rows)) && forall m :: m in Reverse(rows) <==> m in rows
  {
    forall i, j | 0 <= i < j < |rows| ensures Newer(Reverse(rows)[j], Reverse(rows)[i]) {
      ReverseAt(rows, i);
      ReverseAt(rows, j);
    }
    forall m ensures m in Reverse(rows) <==> m in rows {
      if m in rows {
        var i :| 0 <= i < |rows| && rows[i] == m;
        ReverseAt(rows, |rows| - 1 - i);
      }
      if m in Reverse(rows) {
        var i :| 0 <= i < |rows| && Reverse(rows)[i] == m;
        ReverseAt(rows, i);
      }
    }
  }

  ghost function Older(table: seq<Message>, last: Message): nat {
    |set m | m in table && Newer(last, m)|
  }

  lemma FewerInSubset(a: set<Message>, b: set<Message>)
    requires a <= b
    ensures |a| <= |b|
  {
    assert b == a + (b - a);
  }

  lemma FewerAreOlder(table: seq<Message>, last: Message, next: Message)
    requires next in table && Newer(last, next)
    ensures Older(table, next) < Older(table, last)
  {
    var older, fewer := set m | m in table && Newer(last, m), set m | m in table && Newer(next, m);
    assert fewer <= older - {next} && next in older;
    FewerInSubset(fewer, older - {next});
  }

  /** A page after a cursor, by what is left below the cursor. */
  lemma PageFromRest(rest: seq<Message>, total: nat, limit: nat)
    requires limit > 0
    ensures var page := PageOf(rest, total, limit);
            && page.items == Reverse(Take(rest, limit)) && page.hasMore == (limit < |rest|)
            && (limit < |rest| ==> page.items != [] && page.items[0] == rest[limit - 1]
                                   && page.nextCursor == Some(page.items[0].id))
  {
    if limit < |rest| {
      ReverseAt(rest[..limit], 0);
    }
  }

  lemma AmongTake(rest: seq<Message>, l: nat, m: Message)
    requires IsListing(rest) && l > 0
    ensures m in Take(rest, l) ==> m in rest
    ensures m in rest && m !in Take(rest, l) ==> l < |rest| && Newer(rest[l - 1], m)
  {
    if l < |rest| {
      assert rest == rest[..l] + rest[l..];
      assert forall i :: l <= i < |rest| ==> rest[l..][i - l] == rest[i] && Newer(rest[l - 1], rest[i]);
    }
  }

  lemma TakeIsListing(rest: seq<Message>, l: nat)
    requires IsListing(rest)
    ensures IsListing(Take(rest, l))
  {
  }

  /**
   * A page after a cursor: rows of the table older than the cursor's, in order;
   * with more to come none is left out down to its oldest, otherwise none at all.
   */
  ghost predicate IsNext(items: seq<Message>, hasMore: bool, table: seq<Message>, last: Message) {
    && Ascending(items)
    && (forall m :: m in items ==> m in table && Newer(last, m))
    && (hasMore ==> items != [])
    && (forall m :: m in table && Newer(last, m) ==> m in items || (hasMore && Newer(items[0], m)))
  }

  lemma NextOfRest(rest: seq<Message>, table: seq<Message>, last: Message, l: nat)
    requires ListsOlder(rest, table, last) && l > 0
    ensures IsNext(Reverse(Take(rest, l)), l < |rest|, table, last)
  {
    TakeIsListing(rest, l);
    ReverseAscends(Take(rest, l));
    if l < |rest| {
      ReverseAt(rest[..l], 0);
    }
    hide Newer, Reverse, Take, IsListing;
    forall m | m in table && Newer(last, m)
      ensures m in Reverse(Take(rest, l)) || (l < |rest| && Newer(Reverse(Take(rest, l))[0], m))
    {
      AmongTake(rest, l, m);
    }
    forall m | m in Reverse(Take(rest, l)) ensures m in table && Newer(last, m) {
      AmongTake(rest, l, m);
    }
  }

  /**
   * A cursor request returns the next rows of its table and their oldest as the next
   * cursor, whatever has arrived meanwhile.
   */
  lemma CursorPageIsNext(tables: seq<seq<Message>>, k: nat, last: Message, limit: Option<int>)
    requires History(tables) && last in TableAt(tables, k)
    ensures CursorPage(tables, k, last.id, limit).Success?
    ensures var page := CursorPage(tables, k, last.id, limit).value;
            && IsNext(page.items, page.hasMore, TableAt(tables, k), last)
            && page.nextCursor == if page.hasMore then Some(page.items[0].id) else None
  {
    assert tables != [];
    hide *;
    CursorPageByRest(tables, k, last, limit);
    var rest, l := Below(TableAt(tables, k), last.id), NormalizedLimit(limit);
    PageFromRest(rest, |TableAt(tables, k)|, l);
    NextOfRest(rest, TableAt(tables, k), last, l);
  }

  /** The next cursor's row is there for the next request, and fewer rows are older than it. */
  lemma NextIsFurther(tables: seq<seq<Message>>, k: nat, last: Message, items: seq<Message>)
    requires History(tables) && items != [] && IsNext(items, true, TableAt(tables, k), last)
    ensures items[0] in TableAt(tables, k + 1)
    ensures Older(Final(tables), items[0]) < Older(Final(tables), last)
  {
    assert items[0] in items;
    assert items[0] in TableAt(tables, k) && Newer(last, items[0]);
    hide *;
    StaysThere(tables, k, k + 1, items[0]);
    FewerAreOlder(Final(tables), last, items[0]);
  }

  /** The pages that follow a first one, asked for while there are more. */
  function Follow(tables: seq<seq<Message>>, k: nat, last: Message, limit: Option<int>): (pages: seq<Page>)
    requires History(tables) && last in TableAt(tables, k)
    decreases Older(Final(tables), last)
  {
    CursorPageIsNext(tables, k, last, limit);
    var page := CursorPage(tables, k, last.id, limit).value;
    if page.hasMore then
      NextIsFurther(tables, k, last, page.items);
      [page] + Follow(tables, k + 1, page.items[0], limit)
    else [page]
  }

  /** Each page is shown oldest first and goes before the pages read earlier. */
  function Chronicle(pages: seq<Page>): seq<Message> {
    if pages == [] then [] else Chronicle(pages[1..]) + pages[0].items
  }

  function FirstPage(tables: seq<seq<Message>>, total: nat, limit: Option<int>): Page
    requires tables != []
  {
    MessagesPage(tables[0], total, Query(None, None, limit)).value
  }

  lemma PageWithoutCursor(table: seq<Message>, total: nat, limit: Option<int>)
    ensures var rows := Take(Drop(Newest(table), 0), NormalizedLimit(limit));
            var pageRows := Take(rows, NormalizedLimit(limit));
            MessagesPage(table, total, Query(None, None, limit)) ==
            Success(Page(Reverse(pageRows), total, |rows| < total,
                         if |rows| < total && pageRows != [] then Some(pageRows[|pageRows| - 1].id) else None))
  {
    hide Newest, Reverse, Take, Drop;
    assert (NormalizedPage(None) - 1) * NormalizedLimit(limit) == 0;
  }

  /** The page made of the first rows of the listing, by the total that was counted. */
  predicate IsTop(page: Page, listing: seq<Message>, total: nat, limit: nat)
    requires limit > 0
  {
    var top := Take(listing, limit);
    && page.items == Reverse(top) && page.hasMore == (|top| < total)
    && page.nextCursor == if |top| < total && top != [] then Some(top[|top| - 1].id) else None
  }

  lemma FirstPageIsTheTop(tables: seq<seq<Message>>, total: nat, limit: Option<int>)
    requires tables != []
    ensures IsTop(FirstPage(tables, total, limit), Newest(tables[0]), total, NormalizedLimit(limit))
  {
    PageWithoutCursor(tables[0], total, limit);
    hide Newest, Reverse, NormalizedLimit, MessagesPage;
    var listing, l := Newest(tables[0]), NormalizedLimit(limit);
    assert Drop(listing, 0) == listing;
    assert Take(Take(listing, l), l) == Take(listing, l);
  }

  lemma TopCursor(page: Page, listing: seq<Message>, total: nat, limit: nat)
    requires limit > 0 && IsTop(page, listing, total, limit) && page.nextCursor.Some?
    ensures var l := |Take(listing, limit)|;
            && page.hasMore && 0 < l <= |listing| && Take(listing, limit) == listing[..l]
            && page.items != [] && page.items[0] == listing[l - 1] && page.nextCursor.value == page.items[0].id
  {
    ReverseAt(Take(listing, limit), |Take(listing, limit)| - 1);
    ReverseAt(Take(listing, limit), 0);
  }

  lemma ListedStays(tables: seq<seq<Message>>, i: nat)
    requires History(tables) && i < |Newest(tables[0])|
    ensures Newest(tables[0])[i] in TableAt(tables, 1)
  {
    SameRows(tables[0]);
    assert Newest(tables[0])[i] in Newest(tables[0]);
    StaysThere(tables, 0, 1, Newest(tables[0])[i]);
  }

  lemma FirstCursorStays(tables: seq<seq<Message>>, total: nat, limit: Option<int>)
    requires History(tables) && FirstPage(tables, total, limit).nextCursor.Some?
    ensures FirstPage(tables, total, limit).items != []
    ensures FirstPage(tables, total, limit).items[0] in TableAt(tables, 1)
  {
    assert tables != [];
    hide *;
    FirstPageIsTheTop(tables, total, limit);
    TopCursor(FirstPage(tables, total, limit), Newest(tables[0]), total, NormalizedLimit(limit));
    ListedStays(tables, |Take(Newest(tables[0]), NormalizedLimit(limit))| - 1);
  }

  /** The whole walk: the first page, then cursors until a page says there is no more or gives no cursor. */
  function Walk(tables: seq<seq<Message>>, total: nat, limit: Option<int>): seq<Page>
    requires History(tables)
  {
    var page := FirstPage(tables, total, limit);
    if page.hasMore && page.nextCursor.Some? then
      FirstCursorStays(tables, total, limit);
      [page] + Follow(tables, 1, page.items[0], limit)
    else [page]
  }

  /** What was shown from a cursor on: in order, all older than it, and nothing that was there is left out. */
  ghost predicate ShowsOlder(tables: seq<seq<Message>>, k: nat, last: Message, shown: seq<Message>)
    requires tables != []
  {
    && Ascending(shown)
    && (forall m :: m in shown ==> m in Final(tables) && Newer(last, m))
    && (forall m :: m in TableAt(tables, k) && Newer(last, m) ==> m in shown)
  }

  lemma NewerIsTransitive(a: Message, b: Message, c: Message)
    requires Newer(a, b) && Newer(b, c)
    ensures Newer(a, c)
  {
  }

  /** A page, after everything that later requests show. */
  lemma OnePageShowsOlder(tables: seq<seq<Message>>, k: nat, last: Message, page: Page, later: seq<Message>)
    requires History(tables) && IsNext(page.items, page.hasMore, TableAt(tables, k), last)
    requires if page.hasMore then ShowsOlder(tables, k + 1, page.items[0], later) else later == []
    ensures ShowsOlder(tables, k, last, later + page.items)
  {
    assert tables != [];
    var items := page.items;
    var shown := later + items;
    hide Newer, TableAt, History;
    forall i, j | 0 <= i < j < |shown| ensures Newer(shown[j], shown[i]) {
      if i < |later| <= j {
        assert shown[i] in later;
        OldestOrNewer(items, j - |later|);
        if j > |later| {
          NewerIsTransitive(shown[j], items[0], shown[i]);
        }
      }
    }
    forall m | m in shown ensures m in Final(tables) && Newer(last, m) {
      if m in items {
        StaysThere(tables, k, k, m);
      } else {
        assert items[0] in items;
        NewerIsTransitive(last, items[0], m);
      }
    }
    forall m | m in TableAt(tables, k) && Newer(last, m) ensures m in shown {
      StaysThere(tables, k, k + 1, m);
    }
  }

  lemma OldestOrNewer(items: seq<Message>, i: nat)
    requires Ascending(items) && i < |items|
    ensures i == 0 || Newer(items[i], items[0])
  {
  }

  lemma FollowUnfolds(tables: seq<seq<Message>>, k: nat, last: Message, limit: Option<int>)
    returns (page: Page, next: Message, later: seq<Message>)
    requires History(tables) && last in TableAt(tables, k)
    ensures IsNext(page.items, page.hasMore, TableAt(tables, k), last)
    ensures page.hasMore ==> page.items != [] && next == page.items[0] && next in TableAt(tables, k + 1)
    ensures page.hasMore ==> Older(Final(tables), next) < Older(Final(tables), last)
    ensures page.hasMore ==> later == Chronicle(Follow(tables, k + 1, next, limit))
    ensures !page.hasMore ==> later == []
    ensures Chronicle(Follow(tables, k, last, limit)) == later + page.items
  {
    assert tables != [];
    hide DistinctIds, MessagesPage, TableAt, CursorPage, History, Older, IsNext;
    CursorPageIsNext(tables, k, last, limit);
    page := CursorPage(tables, k, last.id, limit).value;
    next, later := last, [];
    var pages := Follow(tables, k, last, limit);
    if page.hasMore {
      NextIsFurther(tables, k, last, page.items);
      next := page.items[0];
      later := Chronicle(Follow(tables, k + 1, next, limit));
      assert pages[1..] == Follow(tables, k + 1, next, limit);
    }
  }

  lemma {:induction false} FollowShowsOlder(tables: seq<seq<Message>>, k: nat, last: Message, limit: Option<int>)
    requires History(tables) && last in TableAt(tables, k)
    ensures ShowsOlder(tables, k, last, Chronicle(Follow(tables, k, last, limit)))
    decreases Older(Final(tables), last)
  {
    assert tables != [];
    hide *;
    var page, next, later := FollowUnfolds(tables, k, last, limit);
    if page.hasMore {
      FollowShowsOlder(tables, k + 1, next, limit);
    }
    OnePageShowsOlder(tables, k, last, page, later);
  }

  /** The listing of the first table, whose rows stay in all later ones. */
  ghost predicate IsFirstListing(tables: seq<seq<Message>>, listing: seq<Message>)
    requires tables != []
  {
    && IsListing(listing)
    && forall m :: m in listing <==> m in tables[0] && m in TableAt(tables, 1) && m in Final(tables)
  }

  lemma FirstListing(tables: seq<seq<Message>>)
    requires History(tables)
    ensures IsFirstListing(tables, Newest(tables[0]))
    ensures forall m :: m in tables[0] ==> m in Newest(tables[0])
  {
    assert DistinctIds(tables[0]);
    NewestIsTheListing(tables[0]);
    SameRows(tables[0]);
    assert forall m :: m in TableAt(tables, 0) <==> m in tables[0];
    TablesGrow(tables, 0, 1);
  }

  /** What a walk shows: in order, nothing that is not there, and in any case all rows of the first table. */
  ghost predicate ShowsAll(tables: seq<seq<Message>>, listing: seq<Message>, last: Message, shown: seq<Message>)
    requires tables != []
  {
    && Ascending(shown)
    && (forall m :: m in listing ==> m in shown)
    && (forall m :: m in shown ==> m in Final(tables) && (m in listing || Newer(last, m)))
  }

  /** The top of a listing, shown after everything that is older than its last row. */
  lemma TopAfterOlder(tables: seq<seq<Message>>, listing: seq<Message>, l: nat, later: seq<Message>)
    requires tables != [] && IsFirstListing(tables, listing) && 0 < l <= |listing|
    requires ShowsOlder(tables, 1, listing[l - 1], later)
    ensures ShowsAll(tables, listing, listing[l - 1], later + Reverse(listing[..l]))
  {
    var top := listing[..l];
    TakeIsListing(listing, l);
    ReverseAscends(top);
    var shown := later + Reverse(top);
    hide Newer, TableAt, Reverse;
    forall i, j | 0 <= i < j < |shown| ensures Newer(shown[j], shown[i]) {
      if i < |later| <= j {
        assert shown[i] in later && shown[j] in Reverse(top);
        TopIsNewer(listing, l, shown[j], shown[i]);
      }
    }
    assert forall m :: m in top ==> m in listing;
    forall m | m in listing ensures m in shown {
      var i :| 0 <= i < |listing| && listing[i] == m;
      if i < l {
        assert top[i] == m;
      }
    }
  }

  /** The walk after a first page that says there is more. */
  lemma WalkGoesOn(tables: seq<seq<Message>>, total: nat, limit: Option<int>)
    requires History(tables)
    requires |Take(Newest(tables[0]), NormalizedLimit(limit))| < total && Newest(tables[0]) != []
    ensures var listing := Newest(tables[0]); var l := |Take(listing, NormalizedLimit(limit))|;
            && 0 < l <= |listing| && listing[l - 1] in TableAt(tables, 1)
            && Chronicle(Walk(tables, total, limit))
               == Chronicle(Follow(tables, 1, listing[l - 1], limit)) + Reverse(listing[..l])
  {
    assert tables != [];
    hide DistinctIds, Newest, NormalizedLimit, MessagesPage, FirstPage, History, TableAt, Reverse, Follow;
    FirstPageIsTheTop(tables, total, limit);
    var page, listing := FirstPage(tables, total, limit), Newest(tables[0]);
    TopCursor(page, listing, total, NormalizedLimit(limit));
    FirstCursorStays(tables, total, limit);
    var pages := Walk(tables, total, limit);
    assert pages[1..] == Follow(tables, 1, page.items[0], limit);
  }

  /** What the walk shows after a first page that says there is more. */
  lemma WalkAfterTheTop(tables: seq<seq<Message>>, total: nat, limit: Option<int>) returns (last: Message)
    requires History(tables)
    requires |Take(Newest(tables[0]), NormalizedLimit(limit))| < total && Newest(tables[0]) != []
    ensures last in Newest(tables[0])
    ensures ShowsAll(tables, Newest(tables[0]), last, Chronicle(Walk(tables, total, limit)))
  {
    assert tables != [];
    hide *;
    WalkGoesOn(tables, total, limit);
    var listing := Newest(tables[0]);
    var l := |Take(listing, NormalizedLimit(limit))|;
    last := listing[l - 1];
    FirstListing(tables);
    FollowShowsOlder(tables, 1, last, limit);
    TopAfterOlder(tables, listing, l, Chronicle(Follow(tables, 1, last, limit)));
  }

  lemma NeverBothNewer(a: Message, b: Message)
    ensures !(Newer(a, b) && Newer(b, a))
  {
  }

  lemma TopIsNewer(listing: seq<Message>, l: nat, onPage: Message, later: Message)
    requires IsListing(listing) && 0 < l <= |listing| && onPage in listing[..l] && Newer(listing[l - 1], later)
    ensures Newer(onPage, later)
  {
    var i :| 0 <= i < l && listing[..l][i] == onPage;
    assert i < l - 1 ==> Newer(listing[i], listing[l - 1]);
  }

  lemma NotAtTheTop(listing: seq<Message>, l: nat)
    requires IsListing(listing) && l < |listing|
    ensures listing[l] !in listing[..l]
  {
    assert forall i :: 0 <= i < l ==> Newer(listing[i], listing[l]);
  }

  /** What the walk shows when the first page says there is no more. */
  lemma WalkOfOnePage(tables: seq<seq<Message>>, total: nat, limit: Option<int>)
    requires History(tables)
    requires !(|Take(Newest(tables[0]), NormalizedLimit(limit))| < total && Newest(tables[0]) != [])
    ensures var shown := Chronicle(Walk(tables, total, limit));
            && Ascending(shown)
            && (forall m :: m in shown ==> m in tables[0])
            && ((forall m :: m in tables[0] ==> m in shown) <==> |tables[0]| <= NormalizedLimit(limit))
  {
    var listing, l := Newest(tables[0]), NormalizedLimit(limit);
    var top := Take(listing, l);
    FirstPageIsTheTop(tables, total, limit);
    NewestIsTheListing(tables[0]);
    SameRows(tables[0]);
    ReverseAscends(top);
    var pages := Walk(tables, total, limit);
    assert Chronicle(pages) == [] + Reverse(top);
    assert forall m :: m in top ==> m in listing;
    if l < |tables[0]| {
      assert listing[l] in tables[0];
      NotAtTheTop(listing, l);
    }
  }

  /**
   * The walk shows messages in order and none twice, and among them is every one
   * that was there at its first request, whatever arrives between the requests
   * and wherever it is sorted in. The one exception is a total counted on an older
   * table that a single page would have covered, while the table listed already
   * needs a second page.
   */
  lemma WalkVisitsEverything(tables: seq<seq<Message>>, total: nat, limit: Option<int>)
    requires History(tables)
    ensures var shown := Chronicle(Walk(tables, total, limit));
            && Ascending(shown)
            && (forall m :: m in shown ==> m in Final(tables))
            && ((forall m :: m in tables[0] ==> m in shown) <==> !(total <= NormalizedLimit(limit) < |tables[0]|))
  {
    assert tables != [] && DistinctIds(tables[0]);
    NewestIsTheListing(tables[0]);
    FirstListing(tables);
    hide Walk, Chronicle, Newest, Ascending, Newer, History, DistinctIds, IsListing;
    if |Take(Newest(tables[0]), NormalizedLimit(limit))| < total && Newest(tables[0]) != [] {
      var _ := WalkAfterTheTop(tables, total, limit);
    } else {
      WalkOfOnePage(tables, total, limit);
    }
  }

  /** Every message that arrives during the walk is newer than all that were there at its first request. */
  ghost predicate ArrivalsAreNewest(tables: seq<seq<Message>>)
    requires tables != []
  {
    forall m, earlier :: m in Final(tables) && m !in tables[0] && earlier in tables[0] ==> Newer(m, earlier)
  }

  lemma {:induction false} AscendingIsUnique(a: seq<Message>, b: seq<Message>)
    requires Ascending(a) && Ascending(b) && forall m :: m in a <==> m in b
    ensures a == b
  {
    BothEmptyOrNeither(a, b);
    if a != [] {
      var x, y := a[|a| - 1], b[|b| - 1];
      LastIsNewest(a, y);
      LastIsNewest(b, x);
      NeverBothNewer(x, y);
      assert x == y;
      var restA, restB := a[..|a| - 1], b[..|b| - 1];
      forall m ensures m in restA <==> m in restB {
        WithoutLast(a, m);
        WithoutLast(b, m);
      }
      AscendingIsUnique(restA, restB);
      assert a == restA + [x] && b == restB + [y];
    }
  }

  lemma BothEmptyOrNeither(a: seq<Message>, b: seq<Message>)
    requires forall m :: m in a <==> m in b
    ensures a == [] <==> b == []
  {
    assert a != [] ==> a[0] in a;
    assert b != [] ==> b[0] in b;
  }

  lemma LastIsNewest(shown: seq<Message>, m: Message)
    requires Ascending(shown) && m in shown
    ensures m == shown[|shown| - 1] || Newer(shown[|shown| - 1], m)
  {
  }

  lemma WithoutLast(shown: seq<Message>, m: Message)
    requires Ascending(shown) && shown != []
    ensures m in shown[..|shown| - 1] <==> m in shown && m != shown[|shown| - 1]
  {
    assert shown == shown[..|shown| - 1] + [shown[|shown| - 1]];
    assert forall i :: 0 <= i < |shown| - 1 ==>
             shown[..|shown| - 1][i] == shown[i] && Newer(shown[|shown| - 1], shown[i]);
  }

  /** Then the walk shows no other ones. */
  lemma OnlyTheFirstTable(tables: seq<seq<Message>>, total: nat, limit: Option<int>)
    requires History(tables) && ArrivalsAreNewest(tables)
    ensures forall m :: m in Chronicle(Walk(tables, total, limit)) ==> m in tables[0]
  {
    assert tables != [];
    FirstListing(tables);
    hide Walk, Chronicle, Newest, Ascending, Newer, History, DistinctIds, IsListing;
    if |Take(Newest(tables[0]), NormalizedLimit(limit))| < total && Newest(tables[0]) != [] {
      var last := WalkAfterTheTop(tables, total, limit);
      forall m | m in Chronicle(Walk(tables, total, limit)) ensures m in tables[0] {
        NeverBothNewer(last, m);
      }
    } else {
      WalkOfOnePage(tables, total, limit);
    }
  }

  /** With arrivals that are all newest, as time stamps usually are, the walk shows the first table and nothing else. */
  lemma WalkShowsTheFirstTable(tables: seq<seq<Message>>, total: nat, limit: Option<int>)
    requires History(tables) && ArrivalsAreNewest(tables)
    ensures Chronicle(Walk(tables, total, limit)) == Reverse(Newest(tables[0]))
        <==> !(total <= NormalizedLimit(limit) < |tables[0]|)
  {
    assert tables != [] && DistinctIds(tables[0]);
    WalkVisitsEverything(tables, total, limit);
    OnlyTheFirstTable(tables, total, limit);
    NewestIsTheListing(tables[0]);
    SameRows(tables[0]);
    ReverseAscends(Newest(tables[0]));
    hide Walk, Chronicle, Newest, Reverse, Ascending, Newer, History, DistinctIds, IsListing;
    var shown := Chronicle(Walk(tables, total, limit));
    if forall m :: m in tables[0] ==> m in shown {
      AscendingIsUnique(shown, Reverse(Newest(tables[0])));
    }
  }

  /** With the total counted on the table that is listed, or on any later one, nothing is ever missed or shown twice. */
  lemma ConsistentTotalMissesNothing(tables: seq<seq<Message>>, total: nat, limit: Option<int>)
    requires History(tables) && total >= |tables[0]|
    ensures var shown := Chronicle(Walk(tables, total, limit));
            && (forall m :: m in tables[0] ==> m in shown)
            && (forall i, j :: 0 <= i < j < |shown| ==> shown[i] != shown[j])
  {
    WalkVisitsEverything(tables, total, limit);
    var shown := Chronicle(Walk(tables, total, limit));
    hide Chronicle, Walk;
    forall i, j | 0 <= i < j < |shown| ensures shown[i] != shown[j] {
      assert Newer(shown[j], shown[i]);
    }
  }

  /** The exception happens: one message arrives between counting and listing, and the oldest is never shown. */
  lemma StaleTotalLosesTheOldest()
    ensures var tables := [[Message(1, 1), Message(2, 2)]];
            History(tables) && Chronicle(Walk(tables, 1, Some(1))) == [Message(2, 2)]
  {
    var oldest, latest := Message(1, 1), Message(2, 2);
    var tables := [[oldest, latest]];
    assert tables[0][..1] == [oldest] && [oldest][..0] == [];
    assert Newest([]) == [];
    assert Newest([oldest]) == [oldest];
    assert Newest(tables[0]) == [latest, oldest];
    FirstPageIsTheTop(tables, 1, Some(1));
    var pages := Walk(tables, 1, Some(1));
    assert Take([latest, oldest], 1) == [latest];
    assert pages == [FirstPage(tables, 1, Some(1))];
    assert Reverse([latest]) == [latest];
  }
}
