/**
 Entries of a result share one object per feed, category and icon
 (internal/storage/entry_feeds.go, the row loop of internal/storage/entry_query_builder.go).
 Every row is scanned into the same scratch objects, which no entry may keep.
 */
module Interning {
  import opened Prelude

  type Id = int

  /** Icon hashes are only compared. */
  type Hash = int

  /** The empty string. */
  const NO_HASH: Hash := 0

  /** One row of the SELECT; `feedCols` and `categoryCols` stand for the columns copied as they are. */
  datatype Row = Row(id: Id, userID: Id, feedID: Id, feedCols: int, categoryID: Id, categoryCols: int,
                     iconID: Option<Id>, iconHash: Option<Hash>)

  predicate HasIcon(row: Row) { row.iconID.Some? && row.iconHash.Some? && row.iconHash.value != NO_HASH }

  /** The icon an entry of the row shows; 0 and the empty hash without an icon. */
  function IconIDOf(row: Row): Id { if HasIcon(row) then row.iconID.value else 0 }

  function IconHashOf(row: Row): Hash { if HasIcon(row) then row.iconHash.value else NO_HASH }

  /** Rows that agree on the id of a feed, category or icon agree on its columns. */
  ghost predicate Agree(r: Row, r': Row) {
    && (r.feedID == r'.feedID ==>
          r.userID == r'.userID && r.feedCols == r'.feedCols && r.categoryID == r'.categoryID
            && IconIDOf(r) == IconIDOf(r'))
    && (r.categoryID == r'.categoryID ==> r.userID == r'.userID && r.categoryCols == r'.categoryCols)
    && (IconIDOf(r) == IconIDOf(r') ==> IconHashOf(r) == IconHashOf(r'))
  }

  ghost predicate Coherent(rows: seq<Row>) {
    forall i, j :: 0 <= i < |rows| && 0 <= j < |rows| ==> Agree(rows[i], rows[j])
  }

  datatype FeedRow = FeedRow(userID: Id, cols: int, categoryID: Id, iconID: Option<Id>)
  datatype CategoryRow = CategoryRow(userID: Id, cols: int)

  /** The joined tables; a feed has at most one icon. */
  datatype Tables = Tables(feeds: map<Id, FeedRow>, categories: map<Id, CategoryRow>, icons: map<Id, Option<Hash>>)

  /** The row the joins deliver for an entry of that id. */
  ghost predicate Joined(t: Tables, row: Row) {
    && row.feedID in t.feeds && row.categoryID in t.categories
    && t.feeds[row.feedID] == FeedRow(row.userID, row.feedCols, row.categoryID, row.iconID)
    && t.categories[row.categoryID] == CategoryRow(row.userID, row.categoryCols)
    && row.iconHash == if row.iconID.Some? && row.iconID.value in t.icons then t.icons[row.iconID.value] else None
  }

  /** Rows of one join are coherent, whichever rows they are: no icon has id 0. */
  lemma JoinsAreCoherent(t: Tables, rows: seq<Row>)
    requires 0 !in t.icons
    requires forall i :: 0 <= i < |rows| ==> Joined(t, rows[i])
    ensures Coherent(rows)
  {
  }

  class Category {
    var id: Id
    var userID: Id
    var cols: int

    constructor () ensures id == 0 { id, userID, cols := 0, 0, 0; }
  }

  class FeedIcon {
    var feedID: Id
    var iconID: Id
    var hash: Hash

    constructor () ensures iconID == 0 { feedID, iconID, hash := 0, 0, NO_HASH; }
  }

  class Feed {
    var id: Id
    var userID: Id
    var cols: int
    var category: Category
    var icon: FeedIcon

    constructor (category: Category, icon: FeedIcon)
      ensures this.category == category && this.icon == icon
    {
      id, userID, cols := 0, 0, 0;
      this.category, this.icon := category, icon;
    }
  }

  class Entry {
    var id: Id
    var userID: Id
    var feedID: Id
    var stored: bool
    var feed: Feed

    constructor (feed: Feed)
      ensures this.feed == feed
    {
      id, userID, feedID, stored := 0, 0, 0, false;
      this.feed := feed;
    }
  }

  ghost predicate CategoryShows(c: Category, row: Row)
    reads c
  {
    c.id == row.categoryID && c.userID == row.userID && c.cols == row.categoryCols
  }

  ghost predicate IconKept(i: FeedIcon, row: Row)
    reads i
  {
    i.iconID == IconIDOf(row) && i.hash == IconHashOf(row)
  }

  /** An icon without an id or a hash is none: id 0 and the empty hash. */
  ghost predicate IconShows(i: FeedIcon, row: Row)
    reads i
  {
    if row.iconID.Some? && row.iconHash.Some? && row.iconHash.value != NO_HASH then
      i.iconID == row.iconID.value && i.hash == row.iconHash.value
    else
      i.iconID == 0 && i.hash == NO_HASH
  }

  /** The feed's own columns, not those of its category and icon. */
  ghost predicate FeedShows(f: Feed, row: Row)
    reads f
  {
    f.id == row.feedID && f.userID == row.userID && f.cols == row.feedCols
  }

  ghost predicate EntryShows(e: Entry, row: Row)
    reads e
  {
    e.id == row.id && e.userID == row.userID && e.feedID == row.feedID && e.stored
  }

  /** The first row that shows the icon of row `j`. */
  function FirstIcon(rows: seq<Row>, j: nat): (i: nat)
    requires j < |rows|
    ensures i <= j && IconIDOf(rows[i]) == IconIDOf(rows[j])
    ensures forall k :: 0 <= k < i ==> IconIDOf(rows[k]) != IconIDOf(rows[j])
  {
    FirstIconFrom(rows, j, 0)
  }

  function FirstIconFrom(rows: seq<Row>, j: nat, k: nat): (i: nat)
    requires k <= j < |rows|
    ensures k <= i <= j && IconIDOf(rows[i]) == IconIDOf(rows[j])
    ensures forall m :: k <= m < i ==> IconIDOf(rows[m]) != IconIDOf(rows[j])
    decreases j - k
  {
    if IconIDOf(rows[k]) == IconIDOf(rows[j]) then k else FirstIconFrom(rows, j, k + 1)
  }

  /** The first of the rows seen so far for each feed, category and icon id. */
  datatype Firsts = Firsts(feeds: map<Id, Row>, categories: map<Id, Row>, icons: map<Id, Row>)

  /** A new feed also brings its category and icon, unless these are known. */
  function With(f: Firsts, row: Row): Firsts {
    if row.feedID in f.feeds then f else
    Firsts(f.feeds[row.feedID := row],
           Plus(f.categories, row.categoryID, row),
           Plus(f.icons, IconIDOf(row), row))
  }

  function Plus(m: map<Id, Row>, id: Id, row: Row): map<Id, Row> { if id in m then m else m[id := row] }

  function FirstsOf(rows: seq<Row>, n: nat): Firsts
    requires n <= |rows|
  {
    if n == 0 then Firsts(map[], map[], map[]) else With(FirstsOf(rows, n - 1), rows[n - 1])
  }

  ghost predicate Covers(f: Firsts, row: Row) {
    row.feedID in f.feeds && row.categoryID in f.categories && IconIDOf(row) in f.icons
  }

  lemma {:induction false} FeedSeen(rows: seq<Row>, n: nat, id: Id) returns (j: nat)
    requires n <= |rows| && id in FirstsOf(rows, n).feeds
    ensures j < n && rows[j] == FirstsOf(rows, n).feeds[id] && rows[j].feedID == id
  {
    if id in FirstsOf(rows, n - 1).feeds { j := FeedSeen(rows, n - 1, id); } else { j := n - 1; }
  }

  lemma {:induction false} CategorySeen(rows: seq<Row>, n: nat, id: Id) returns (j: nat)
    requires n <= |rows| && id in FirstsOf(rows, n).categories
    ensures j < n && rows[j] == FirstsOf(rows, n).categories[id] && rows[j].categoryID == id
  {
    if id in FirstsOf(rows, n - 1).categories { j := CategorySeen(rows, n - 1, id); } else { j := n - 1; }
  }

  lemma {:induction false} Covered(rows: seq<Row>, n: nat, j: nat)
    requires Coherent(rows) && j < n <= |rows|
    ensures Covers(FirstsOf(rows, n), rows[j])
  {
    if j < n - 1 {
      Covered(rows, n - 1, j);
    } else if rows[j].feedID in FirstsOf(rows, n - 1).feeds {
      var i := FeedSeen(rows, n - 1, rows[j].feedID);
      assert Agree(rows[i], rows[j]);
      Covered(rows, n - 1, i);
    }
  }

  lemma {:induction false} IconSeen(rows: seq<Row>, n: nat, id: Id) returns (i: nat)
    requires Coherent(rows) && n <= |rows| && id in FirstsOf(rows, n).icons
    ensures i < n && rows[i] == FirstsOf(rows, n).icons[id] && IconIDOf(rows[i]) == id
    ensures forall k :: 0 <= k < i ==> IconIDOf(rows[k]) != id
  {
    if id in FirstsOf(rows, n - 1).icons {
      i := IconSeen(rows, n - 1, id);
    } else {
      i := n - 1;
      forall k | 0 <= k < i ensures IconIDOf(rows[k]) != id { Covered(rows, n - 1, k); }
    }
  }

  /** In coherent rows the remembered row stands for every row of its id. */
  lemma FirstsStandFor(rows: seq<Row>, n: nat, j: nat)
    requires Coherent(rows) && j < n <= |rows|
    ensures var f, row := FirstsOf(rows, n), rows[j];
      && Covers(f, row)
      && Agree(f.feeds[row.feedID], row) && f.feeds[row.feedID].feedID == row.feedID
      && Agree(f.categories[row.categoryID], row) && f.categories[row.categoryID].categoryID == row.categoryID
      && f.icons[IconIDOf(row)] == rows[FirstIcon(rows, j)]
  {
    Covered(rows, n, j);
    var a := FeedSeen(rows, n, rows[j].feedID);
    var b := CategorySeen(rows, n, rows[j].categoryID);
    var c := IconSeen(rows, n, IconIDOf(rows[j]));
    assert Agree(rows[a], rows[j]) && Agree(rows[b], rows[j]);
    assert c == FirstIcon(rows, j);
  }

  class EntryFeeds {
    const category: Category
    const feed: Feed
    const icon: FeedIcon
    var categories: map<Id, Category>
    var feeds: map<Id, Feed>
    var icons: map<Id, FeedIcon>

    ghost predicate ScratchOK()
      reads this, feed
    {
      feed.category == category && feed.icon == icon
    }

    /** The kept objects show the rows in `f`, through each other and never through the scratch. */
    ghost predicate Valid(f: Firsts)
      reads this, feed, feeds.Values, categories.Values, icons.Values
    {
      ScratchOK() && FeedsShow(f.feeds) && CategoriesShow(f.categories) && IconsShow(f.icons)
    }

    ghost predicate FeedsShow(first: map<Id, Row>)
      reads this, feeds.Values
    {
      && feeds.Keys == first.Keys
      && forall id :: id in feeds ==>
           feeds[id] != feed && FeedShows(feeds[id], first[id]) && HasParts(feeds[id], first[id])
    }

    /** The feed's category and icon are the objects kept for the row's ids. */
    ghost predicate HasParts(f: Feed, row: Row)
      reads this, f
    {
      && row.categoryID in categories && f.category == categories[row.categoryID]
      && IconIDOf(row) in icons && f.icon == icons[IconIDOf(row)]
    }

    ghost predicate CategoriesShow(first: map<Id, Row>)
      reads this, categories.Values
    {
      && categories.Keys == first.Keys
      && forall id :: id in categories ==> categories[id] != category && CategoryShows(categories[id], first[id])
    }

    ghost predicate IconsShow(first: map<Id, Row>)
      reads this, icons.Values
    {
      && icons.Keys == first.Keys
      && forall id :: id in icons ==>
           icons[id] != icon && IconKept(icons[id], first[id]) && icons[id].feedID == first[id].feedID
    }

    constructor ()
      ensures Valid(Firsts(map[], map[], map[])) && fresh(feed) && fresh(category) && fresh(icon)
    {
      var c := new Category();
      var i := new FeedIcon();
      var f := new Feed(c, i);
      category, icon, feed := c, i, f;
      categories, feeds, icons := map[], map[], map[];
    }

    ghost predicate ScratchShows(row: Row)
      reads this, feed, category, icon
    {
      ScratchOK() && FeedShows(feed, row) && CategoryShows(category, row) && IconKept(icon, row)
        && icon.feedID == row.feedID
    }

    /** `NewEntry`, then the scan and the assignments after it: all of it goes to the scratch. */
    method ScanRow(row: Row) returns (entry: Entry)
      requires ScratchOK()
      modifies feed, category, icon
      ensures fresh(entry) && entry.feed == feed && EntryShows(entry, row)
      ensures ScratchShows(row)
    {
      entry := new Entry(feed);
      entry.id, entry.userID, entry.feedID := row.id, row.userID, row.feedID;
      entry.feed.cols := row.feedCols;
      entry.feed.category.id, entry.feed.category.cols := row.categoryID, row.categoryCols;
      if HasIcon(row) {
        entry.feed.icon.feedID, entry.feed.icon.iconID, entry.feed.icon.hash := entry.feedID, row.iconID.value,
          row.iconHash.value;
      } else {
        entry.feed.icon.feedID, entry.feed.icon.iconID, entry.feed.icon.hash := 0, 0, NO_HASH;
      }
      entry.feed.id := entry.feedID;
      entry.feed.userID := entry.userID;
      entry.feed.icon.feedID := entry.feedID;
      entry.feed.category.userID := entry.userID;
      entry.stored := true;
    }

    /** The entry gets the feed object of its id; a new one takes over the scratch values. */
    method ReuseFeed(entry: Entry, ghost f: Firsts, ghost row: Row)
      requires Valid(f) && ScratchShows(row) && entry.feed == feed && entry.feedID == row.feedID
      modifies this`feeds, this`categories, this`icons, entry`feed
      ensures Valid(With(f, row))
      ensures row.feedID in feeds && entry.feed == feeds[row.feedID]
      ensures feeds == if row.feedID in old(feeds) then old(feeds) else old(feeds)[row.feedID := entry.feed]
    {
      var id := entry.feedID;
      if id in feeds {
        assert With(f, row) == f;
        entry.feed := feeds[id];
        return;
      }
      entry.feed := NewFeed(f, row);
    }

    /** The entry shows the row, through the feed object kept for it. */
    ghost predicate Serves(entry: Entry, row: Row)
      reads this, entry
    {
      EntryShows(entry, row) && row.feedID in feeds && entry.feed == feeds[row.feedID]
    }

    ghost predicate ServesAll(entries: seq<Entry>, rows: seq<Row>)
      reads this, entries
    {
      && |entries| <= |rows|
      && forall k :: 0 <= k < |entries| ==> Serves(entries[k], rows[k])
    }

    method ReadRow(row: Row, ghost f: Firsts) returns (entry: Entry)
      requires Valid(f)
      modifies this, feed, category, icon
      ensures Valid(With(f, row)) && Extends(old(feeds), feeds)
      ensures fresh(entry) && Serves(entry, row)
    {
      entry := ScanRow(row);
      ReuseFeed(entry, f, row);
    }

    /** One turn of the row loop. */
    method ReadNext(rows: seq<Row>, entries: seq<Entry>, ghost f: Firsts) returns (entry: Entry)
      requires |entries| < |rows| && Valid(f) && ServesAll(entries, rows)
      modifies this, feed, category, icon
      ensures Valid(With(f, rows[|entries|])) && ServesAll(entries + [entry], rows)
    {
      entry := ReadRow(rows[|entries|], f);
      assert forall k :: 0 <= k < |entries| ==> Serves(entries[k], rows[k]);
    }

    method NewFeed(ghost f: Firsts, ghost row: Row) returns (copy: Feed)
      requires Valid(f) && ScratchShows(row) && row.feedID !in feeds
      modifies this`feeds, this`categories, this`icons
      ensures Valid(With(f, row)) && feeds == old(feeds)[row.feedID := copy]
    {
      copy := CopyScratch(f, row);
      KeepFeed(f.feeds, copy, row);
    }

    /** A feed of its own with the scratch values, for a feed id seen for the first time. */
    method CopyScratch(ghost f: Firsts, ghost row: Row) returns (copy: Feed)
      requires Valid(f) && ScratchShows(row)
      modifies this`categories, this`icons
      ensures fresh(copy) && FeedShows(copy, row) && HasParts(copy, row)
      ensures FeedsShow(f.feeds) && CategoriesShow(Plus(f.categories, row.categoryID, row))
        && IconsShow(Plus(f.icons, IconIDOf(row), row))
    {
      copy := new Feed(feed.category, feed.icon);
      copy.id, copy.userID, copy.cols := feed.id, feed.userID, feed.cols;
      ReuseCategory(copy, f.categories, row);
      ReuseIcon(copy, f.icons, row);
      KeepsFeeds(f.feeds);
    }

    /** More categories and icons leave the kept feeds as they are. */
    twostate lemma KeepsFeeds(first: map<Id, Row>)
      requires old(FeedsShow(first)) && feeds == old(feeds)
      requires forall id :: id in feeds ==> unchanged(feeds[id])
      requires Extends(old(categories), categories) && Extends(old(icons), icons)
      ensures FeedsShow(first)
    {
    }

    method KeepFeed(ghost first: map<Id, Row>, copy: Feed, ghost row: Row)
      requires FeedsShow(first) && copy.id !in feeds
      requires copy != feed && FeedShows(copy, row) && HasParts(copy, row)
      modifies this`feeds
      ensures FeedsShow(first[row.feedID := row]) && feeds == old(feeds)[row.feedID := copy]
    {
      feeds := feeds[copy.id := copy];
    }

    method ReuseCategory(copy: Feed, ghost first: map<Id, Row>, ghost row: Row)
      requires copy.category == category && CategoryShows(category, row) && CategoriesShow(first)
      modifies this`categories, copy`category
      ensures CategoriesShow(Plus(first, row.categoryID, row))
      ensures row.categoryID in categories && copy.category == categories[row.categoryID]
      ensures Extends(old(categories), categories)
    {
      var id := copy.category.id;
      if id in categories {
        copy.category := categories[id];
        return;
      }
      var own := new Category();
      own.id, own.userID, own.cols := category.id, category.userID, category.cols;
      categories := categories[id := own];
      copy.category := own;
    }

    method ReuseIcon(copy: Feed, ghost first: map<Id, Row>, ghost row: Row)
      requires copy.icon == icon && IconKept(icon, row) && icon.feedID == row.feedID && IconsShow(first)
      modifies this`icons, copy`icon
      ensures IconsShow(Plus(first, IconIDOf(row), row))
      ensures IconIDOf(row) in icons && copy.icon == icons[IconIDOf(row)]
      ensures Extends(old(icons), icons)
    {
      var id := copy.icon.iconID;
      if id in icons {
        copy.icon := icons[id];
        return;
      }
      var own := new FeedIcon();
      own.feedID, own.iconID, own.hash := icon.feedID, icon.iconID, icon.hash;
      icons := icons[id := own];
      copy.icon := own;
    }
  }

  /** Nothing is lost or replaced. */
  ghost predicate Extends<T>(m: map<Id, T>, m': map<Id, T>) {
    forall id :: id in m ==> id in m' && m'[id] == m[id]
  }

  /** `entry` shows the row, through objects of the row's own ids. */
  ghost predicate Shows(entry: Entry, rows: seq<Row>, k: nat)
    requires k < |rows|
    reads entry, entry.feed, entry.feed.category, entry.feed.icon
  {
    && EntryShows(entry, rows[k]) && FeedShows(entry.feed, rows[k])
    && CategoryShows(entry.feed.category, rows[k])
    && IconShows(entry.feed.icon, rows[k])
    && entry.feed.icon.feedID == rows[FirstIcon(rows, k)].feedID
  }

  /** Two entries share their feed, category or icon object exactly when the ids are equal. */
  ghost predicate SharesById(e: Entry, e': Entry, r: Row, r': Row)
    reads e, e', e.feed, e'.feed, e.feed.icon, e'.feed.icon
  {
    && (e.feed == e'.feed <==> r.feedID == r'.feedID)
    && (e.feed.category == e'.feed.category <==> r.categoryID == r'.categoryID)
    && (e.feed.icon == e'.feed.icon <==> e.feed.icon.iconID == e'.feed.icon.iconID)
  }

  /** The entry refers to none of the objects that every row is scanned into. */
  ghost predicate Avoids(e: Entry, scratch: Feed)
    reads e, e.feed, scratch
  {
    e.feed != scratch && e.feed.category != scratch.category && e.feed.icon != scratch.icon
  }

  /** The loop over the rows the database delivered; `scratch` is the feed of every `NewEntry`. */
  method GetEntries(rows: seq<Row>) returns (entries: seq<Entry>, ghost scratch: Feed)
    requires Coherent(rows)
    ensures |entries| == |rows|
    ensures forall k :: 0 <= k < |rows| ==> Shows(entries[k], rows, k)
    ensures forall j, k :: 0 <= j < |rows| && 0 <= k < |rows| ==> SharesById(entries[j], entries[k], rows[j], rows[k])
    ensures forall k :: 0 <= k < |rows| ==> Avoids(entries[k], scratch)
  {
    var feeds := new EntryFeeds();
    entries := [];
    for i := 0 to |rows|
      invariant feeds.Valid(FirstsOf(rows, i))
      invariant |entries| == i && feeds.ServesAll(entries, rows)
    {
      var entry := feeds.ReadNext(rows, entries, FirstsOf(rows, i));
      entries := entries + [entry];
    }
    AllServed(feeds, rows, entries);
    NoneIsScratch(feeds, rows, entries);
    scratch := feeds.feed;
  }

  lemma NoneIsScratch(feeds: EntryFeeds, rows: seq<Row>, entries: seq<Entry>)
    requires feeds.Valid(FirstsOf(rows, |rows|)) && |entries| == |rows| && feeds.ServesAll(entries, rows)
    ensures forall k :: 0 <= k < |rows| ==> Avoids(entries[k], feeds.feed)
  {
    forall k | 0 <= k < |rows| ensures Avoids(entries[k], feeds.feed) {
      assert feeds.Serves(entries[k], rows[k]);
    }
  }

  lemma KeptShow(feeds: EntryFeeds, rows: seq<Row>, entry: Entry, k: nat)
    requires Coherent(rows) && feeds.Valid(FirstsOf(rows, |rows|)) && k < |rows|
    requires feeds.Serves(entry, rows[k])
    ensures Shows(entry, rows, k)
  {
    FirstsStandFor(rows, |rows|, k);
  }

  lemma PairShares(feeds: EntryFeeds, rows: seq<Row>, e: Entry, e': Entry, j: nat, k: nat)
    requires Coherent(rows) && feeds.Valid(FirstsOf(rows, |rows|)) && j < |rows| && k < |rows|
    requires feeds.Serves(e, rows[j]) && feeds.Serves(e', rows[k])
    ensures SharesById(e, e', rows[j], rows[k])
  {
    KeptShow(feeds, rows, e, j);
    KeptShow(feeds, rows, e', k);
    FirstsStandFor(rows, |rows|, j);
    FirstsStandFor(rows, |rows|, k);
  }

  lemma AllServed(feeds: EntryFeeds, rows: seq<Row>, entries: seq<Entry>)
    requires Coherent(rows) && feeds.Valid(FirstsOf(rows, |rows|)) && |entries| == |rows|
    requires feeds.ServesAll(entries, rows)
    ensures forall k :: 0 <= k < |rows| ==> Shows(entries[k], rows, k)
    ensures forall j, k :: 0 <= j < |rows| && 0 <= k < |rows| ==> SharesById(entries[j], entries[k], rows[j], rows[k])
  {
    forall k | 0 <= k < |rows| ensures Shows(entries[k], rows, k) { KeptShow(feeds, rows, entries[k], k); }
    forall j, k | 0 <= j < |rows| && 0 <= k < |rows| ensures SharesById(entries[j], entries[k], rows[j], rows[k]) {
      PairShares(feeds, rows, entries[j], entries[k], j, k);
    }
  }
}
