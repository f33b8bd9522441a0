/**
 Replacing categories by title in one transaction (internal/storage/category.go). Deleting a
 category deletes its feeds with it, so they have to be moved first.
 */
module Categories {
  import opened Prelude

  type Id = int

  /** Titles are only compared and ordered. */
  type Title = int

  datatype Category = Category(userID: Id, title: Title)
  datatype Feed = Feed(userID: Id, categoryID: Id, content: int)

  type CategoryTable = map<Id, Category>
  type FeedTable = map<Id, Feed>

  /** The unique (user_id, title) index. */
  ghost predicate UniqueTitles(cs: CategoryTable) {
    forall a, b :: a in cs && b in cs && a != b ==> cs[a] != cs[b]
  }

  /** Every feed is in an existing category of its user. */
  ghost predicate FeedsInOwnCategory(cs: CategoryTable, fs: FeedTable) {
    forall f :: f in fs ==> fs[f].categoryID in cs && cs[fs[f].categoryID].userID == fs[f].userID
  }

  predicate Doomed(c: Category, user: Id, titles: seq<Title>) { c.userID == user && c.title in titles }

  predicate Remains(c: Category, user: Id, titles: seq<Title>) { c.userID == user && c.title !in titles }

  ghost predicate SomeRemain(cs: CategoryTable, user: Id, titles: seq<Title>) {
    exists c :: c in cs && Remains(cs[c], user, titles)
  }

  function Remaining(cs: CategoryTable, user: Id, titles: seq<Title>): set<Id> {
    set c | c in cs && Remains(cs[c], user, titles)
  }

  lemma RemainingMeans(cs: CategoryTable, user: Id, titles: seq<Title>)
    ensures |Remaining(cs, user, titles)| >= 1 <==> SomeRemain(cs, user, titles)
  {
    if SomeRemain(cs, user, titles) {
      var c :| c in cs && Remains(cs[c], user, titles);
      assert c in Remaining(cs, user, titles);
    } else {
      forall c ensures c !in Remaining(cs, user, titles) {
        assert c in cs ==> !Remains(cs[c], user, titles);
      }
      assert Remaining(cs, user, titles) == {};
    }
  }

  /** `c` is the user's remaining category with the first title. */
  predicate IsFirst(cs: CategoryTable, user: Id, titles: seq<Title>, c: Id) {
    && c in cs && Remains(cs[c], user, titles)
    && forall d :: d in cs && Remains(cs[d], user, titles) ==> cs[c].title <= cs[d].title
  }

  lemma {:induction false} FirstExists(cs: CategoryTable, user: Id, titles: seq<Title>) returns (c: Id)
    requires SomeRemain(cs, user, titles)
    ensures IsFirst(cs, user, titles, c)
    decreases |cs|
  {
    c :| c in cs && Remains(cs[c], user, titles);
    if d :| d in cs && Remains(cs[d], user, titles) && cs[d].title < cs[c].title {
      var later := c;
      var fewer := map k | k in cs && k != later :: cs[k];
      assert d in fewer && Remains(fewer[d], user, titles);
      assert fewer.Keys == cs.Keys - {later};
      c := FirstExists(fewer, user, titles);
      forall e | e in cs && Remains(cs[e], user, titles) ensures cs[c].title <= cs[e].title {
        assert e != later ==> e in fewer && Remains(fewer[e], user, titles);
        assert fewer[c].title <= fewer[d].title;
      }
    }
  }

  /** What the transaction leaves in the feeds. */
  ghost predicate Moved(cs: CategoryTable, fs: FeedTable, fs': FeedTable, user: Id, titles: seq<Title>) {
    && fs'.Keys == fs.Keys
    && forall f :: f in fs ==>
         if fs[f].categoryID in cs && Doomed(cs[fs[f].categoryID], user, titles)
         then IsFirst(cs, user, titles, fs'[f].categoryID) && fs'[f] == fs[f].(categoryID := fs'[f].categoryID)
         else fs'[f] == fs[f]
  }

  class Storage {
    var categories: CategoryTable
    var feeds: FeedTable

    ghost predicate Valid()
      reads this
    {
      UniqueTitles(categories) && FeedsInOwnCategory(categories, feeds)
    }

    /** DELETE FROM categories: the feeds of the deleted ones go with them. */
    method DeleteCategories(doomed: set<Id>)
      modifies this
      ensures categories == old(categories) - doomed
      ensures feeds == map f | f in old(feeds) && old(feeds)[f].categoryID !in doomed :: old(feeds)[f]
    {
      categories := categories - doomed;
      feeds := map f | f in feeds && feeds[f].categoryID !in doomed :: feeds[f];
    }

    /** The UPDATE: feeds of the doomed categories move to the first remaining one. */
    method MoveFeeds(user: Id, titles: seq<Title>)
      requires Valid() && SomeRemain(categories, user, titles)
      modifies this`feeds
      ensures Moved(categories, old(feeds), feeds, user, titles)
    {
      ghost var _ := FirstExists(categories, user, titles);
      var first :| first in categories && IsFirst(categories, user, titles, first);
      feeds := map f | f in feeds ::
        if feeds[f].userID == user && feeds[f].categoryID in categories
          && Doomed(categories[feeds[f].categoryID], user, titles)
        then feeds[f].(categoryID := first) else feeds[f];
    }

    /**
     Commits or changes nothing; statement `failAt` of the transaction fails, the earlier ones
     succeed. On success the doomed categories are gone and no feed is.
     */
    method RemoveAndReplaceCategoriesByName(user: Id, titles: seq<Title>, failAt: Option<nat>) returns (ok: bool)
      requires Valid()
      modifies this
      ensures Valid()
      ensures ok <==> SomeRemain(old(categories), user, titles) && (failAt.None? || failAt.value > 2)
      ensures !ok ==> categories == old(categories) && feeds == old(feeds)
      ensures ok ==>
        categories == map c | c in old(categories) && !Doomed(old(categories)[c], user, titles) :: old(categories)[c]
      ensures ok ==> SomeRemain(categories, user, titles) && Moved(old(categories), old(feeds), feeds, user, titles)
    {
      if failAt == Some(0) {
        return false;
      }
      var remaining := Remaining(categories, user, titles);
      RemainingMeans(categories, user, titles);
      var count := |remaining|;
      if count < 1 {
        return false;
      }
      if failAt == Some(1) {
        return false;
      }
      var saved := feeds;
      MoveFeeds(user, titles);
      if failAt == Some(2) {
        feeds := saved;
        return false;
      }
      var doomed := set c | c in categories && Doomed(categories[c], user, titles);
      assert forall f :: f in feeds ==> feeds[f].categoryID !in doomed;
      ghost var c :| c in categories && Remains(categories[c], user, titles);
      DeleteCategories(doomed);
      assert c in categories && Remains(categories[c], user, titles);
      assert feeds.Keys == saved.Keys;
      ok := true;
    }

    /** Without the move a deleted category takes its feeds with it. */
    method RemoveCategory(user: Id, category: Id) returns (removed: bool)
      requires Valid()
      modifies this
      ensures Valid()
      ensures removed <==> category in old(categories) && old(categories)[category].userID == user
      ensures categories == if removed then old(categories) - {category} else old(categories)
      ensures feeds ==
        if removed then map f | f in old(feeds) && old(feeds)[f].categoryID != category :: old(feeds)[f]
        else old(feeds)
    {
      removed := category in categories && categories[category].userID == user;
      if removed {
        DeleteCategories({category});
      }
    }
  }

  /** The category the feeds move to is determined, because titles are unique. */
  lemma FirstIsUnique(cs: CategoryTable, user: Id, titles: seq<Title>, c: Id, d: Id)
    requires UniqueTitles(cs) && IsFirst(cs, user, titles, c) && IsFirst(cs, user, titles, d)
    ensures c == d
  {
  }
}
