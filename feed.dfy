/**
 * The feed derivation of the root component (App.tsx, `filteredVideos`): a search
 * filter that overrides everything else, or a subscriptions filter followed by a
 * category filter, and then a copy sorted newest-first or most-viewed-first.
 */
module Feed {
  import opened Wrappers
  import opened Types
  import opened Seqs
  import opened Text

  /** The number a feed order compares: the timestamp or the view count. */
  function Key(v: Video, order: FeedSort): int
  {
    match order
    case ByDate => v.timestamp
    case ByViews => v.views
  }

  /** Keys never increase along the sequence. */
  ghost predicate SortedBy(s: seq<Video>, order: FeedSort)
  {
    forall i, j :: 0 <= i < j < |s| ==> Key(s[i], order) >= Key(s[j], order)
  }

  /** A sorted sequence stays sorted under a head whose key bounds all of its keys. */
  lemma SortedCons(h: Video, s: seq<Video>, order: FeedSort)
    requires SortedBy(s, order)
    requires forall y :: y in s ==> Key(h, order) >= Key(y, order)
    ensures SortedBy([h] + s, order)
  {
    var r := [h] + s;
    forall i, j | 0 <= i < j < |r| ensures Key(r[i], order) >= Key(r[j], order) {
      assert r[j] == s[j - 1];
      if i > 0 {
        assert r[i] == s[i - 1];
      }
    }
  }

  /** Insert `x` into a sorted sequence, in front of the first element whose key is not larger. */
  function Insert(x: Video, s: seq<Video>, order: FeedSort): (r: seq<Video>)
    requires SortedBy(s, order)
    ensures |r| == |s| + 1
    ensures multiset(r) == multiset(s) + multiset{x}
    ensures SortedBy(r, order)
    decreases |s|
  {
    if s == [] then [x]
    else if Key(x, order) >= Key(s[0], order) then
      SortedCons(x, s, order);
      [x] + s
    else
      var rest := Insert(x, s[1..], order);
      assert s == [s[0]] + s[1..];
      assert forall y :: y in rest ==> Key(s[0], order) >= Key(y, order) by {
        forall y | y in rest ensures Key(s[0], order) >= Key(y, order) {
          assert y in multiset(rest);
          assert y == x || y in s[1..];
        }
      }
      SortedCons(s[0], rest, order);
      [s[0]] + rest
  }

  /**
   * `res.sort((a, b) => key(b) - key(a))` on a copy: a stable sort into
   * non-increasing key order (the standard requires `Array.prototype.sort` to be stable).
   */
  function SortBy(s: seq<Video>, order: FeedSort): (r: seq<Video>)
    ensures |r| == |s|
    ensures multiset(r) == multiset(s)
    ensures SortedBy(r, order)
    decreases |s|
  {
    if s == [] then []
    else
      assert s == [s[0]] + s[1..];
      Insert(s[0], SortBy(s[1..], order), order)
  }

  /** The test "the key of this video is `k`". */
  function HasKey(order: FeedSort, k: int): Video -> bool
  {
    (v: Video) => Key(v, order) == k
  }

  /** The videos of `s` whose key equals `k`, in their order in `s`. */
  function KeyClass(s: seq<Video>, order: FeedSort, k: int): seq<Video>
  {
    Filter(s, HasKey(order, k))
  }

  lemma KeyClassSingleton(x: Video, order: FeedSort, k: int)
    ensures KeyClass([x], order, k) == if Key(x, order) == k then [x] else []
  {
    assert [x][1..] == [];
  }

  lemma KeyClassConcat(a: seq<Video>, b: seq<Video>, order: FeedSort, k: int)
    ensures KeyClass(a + b, order, k) == KeyClass(a, order, k) + KeyClass(b, order, k)
  {
    FilterConcat(a, b, HasKey(order, k));
  }

  lemma SwapAroundEmpty(a: seq<Video>, b: seq<Video>, c: seq<Video>)
    requires a == [] || b == []
    ensures a + (b + c) == b + (a + c)
  {
    if a == [] {
      assert a + (b + c) == b + c;
      assert a + c == c;
    } else {
      assert b + c == c;
      assert b + (a + c) == a + c;
    }
  }

  lemma {:induction false} InsertKeyClass(x: Video, s: seq<Video>, order: FeedSort, k: int)
    requires SortedBy(s, order)
    ensures KeyClass(Insert(x, s, order), order, k) == KeyClass([x], order, k) + KeyClass(s, order, k)
    decreases |s|
  {
    if s == [] {
      assert Insert(x, s, order) == [x];
      assert KeyClass(s, order, k) == [];
    } else if Key(x, order) >= Key(s[0], order) {
      assert Insert(x, s, order) == [x] + s;
      KeyClassConcat([x], s, order, k);
    } else {
      var h, t := s[0], s[1..];
      assert s == [h] + t;
      var rest := Insert(x, t, order);
      assert Insert(x, s, order) == [h] + rest;
      var kh, kx, kt := KeyClass([h], order, k), KeyClass([x], order, k), KeyClass(t, order, k);
      calc {
        KeyClass([h] + rest, order, k);
        { KeyClassConcat([h], rest, order, k); }
        kh + KeyClass(rest, order, k);
        { InsertKeyClass(x, t, order, k); }
        kh + (kx + kt);
        { KeyClassSingleton(h, order, k);
          KeyClassSingleton(x, order, k);
          SwapAroundEmpty(kh, kx, kt); }
        kx + (kh + kt);
        { KeyClassConcat([h], t, order, k); }
        kx + KeyClass(s, order, k);
      }
    }
  }

  /** The sort is stable: videos with equal keys keep their relative order. */
  lemma {:induction false} SortStable(s: seq<Video>, order: FeedSort, k: int)
    ensures KeyClass(SortBy(s, order), order, k) == KeyClass(s, order, k)
    decreases |s|
  {
    if s == [] {
      assert SortBy(s, order) == [];
    } else {
      var h, t := s[0], s[1..];
      assert s == [h] + t;
      assert SortBy(s, order) == Insert(h, SortBy(t, order), order);
      SortStable(t, order, k);
      InsertKeyClass(h, SortBy(t, order), order, k);
      KeyClassConcat([h], t, order, k);
    }
  }

  /** Step 1: title or description contains the query, ignoring ASCII case. */
  function SearchResults(videos: seq<Video>, query: string): (r: seq<Video>)
    ensures forall v :: multiset(r)[v] == if MatchesQuery(v.title, v.description, query) then multiset(videos)[v] else 0
  {
    Filter(videos, (v: Video) => MatchesQuery(v.title, v.description, query))
  }

  /** Step 2: the uploader is among the given subscriptions. */
  function FromSubscriptions(videos: seq<Video>, subscriptions: seq<string>): (r: seq<Video>)
    ensures forall v :: multiset(r)[v] == if v.uploaderId in subscriptions then multiset(videos)[v] else 0
  {
    Filter(videos, (v: Video) => v.uploaderId in subscriptions)
  }

  /** Step 3: the video's category label is the selected one. */
  function InCategory(videos: seq<Video>, category: VideoCategory): (r: seq<Video>)
    ensures forall v :: multiset(r)[v] == if v.category == category.Label() then multiset(videos)[v] else 0
  {
    Filter(videos, (v: Video) => v.category == category.Label())
  }

  /** Steps 1 to 3: the videos the feed shows, in the order of the collection. */
  function Selected(videos: seq<Video>, view: ViewState, category: VideoCategory, mode: FeedMode,
                    currentUser: Option<User>): seq<Video>
  {
    if view.Search? then SearchResults(videos, view.query)
    else
      var bySubscriptions :=
        if mode == Subscriptions && currentUser.Some? then FromSubscriptions(videos, currentUser.value.subscriptions)
        else videos;
      if category.Label() != AllLabel then InCategory(bySubscriptions, category) else bySubscriptions
  }

  /** Outside search, the test a video must pass to be shown. */
  predicate ShownOutsideSearch(v: Video, category: VideoCategory, mode: FeedMode, currentUser: Option<User>)
  {
    && (mode == Subscriptions && currentUser.Some? ==> v.uploaderId in currentUser.value.subscriptions)
    && (category != All ==> v.category == category.Label())
  }

  /** `filteredVideos`: the selected videos, sorted by the chosen key in non-increasing order. */
  function FilteredVideos(videos: seq<Video>, view: ViewState, category: VideoCategory, mode: FeedMode,
                          sort: FeedSort, currentUser: Option<User>): (r: seq<Video>)
    ensures multiset(r) == multiset(Selected(videos, view, category, mode, currentUser))
    ensures SortedBy(r, sort)
  {
    SortBy(Selected(videos, view, category, mode, currentUser), sort)
  }

  /** In a search view the feed holds exactly the matching videos, with their multiplicities. */
  lemma SearchFeedExact(videos: seq<Video>, query: string, category: VideoCategory, mode: FeedMode,
                        sort: FeedSort, currentUser: Option<User>)
    ensures var r := FilteredVideos(videos, Search(query), category, mode, sort, currentUser);
      && (forall v :: multiset(r)[v] == if MatchesQuery(v.title, v.description, query) then multiset(videos)[v] else 0)
      && (forall v :: v in r <==> v in videos && MatchesQuery(v.title, v.description, query))
  {
  }

  /** In a search view the feed mode, the category and the signed-in user play no part. */
  lemma SearchIgnoresOtherFilters(videos: seq<Video>, query: string, sort: FeedSort,
                                  category1: VideoCategory, mode1: FeedMode, user1: Option<User>,
                                  category2: VideoCategory, mode2: FeedMode, user2: Option<User>)
    ensures FilteredVideos(videos, Search(query), category1, mode1, sort, user1)
         == FilteredVideos(videos, Search(query), category2, mode2, sort, user2)
  {
  }

  /** Outside search the feed holds exactly the videos passing both filters, with their multiplicities. */
  lemma BrowseFeedExact(videos: seq<Video>, view: ViewState, category: VideoCategory, mode: FeedMode,
                        sort: FeedSort, currentUser: Option<User>)
    requires !view.Search?
    ensures var r := FilteredVideos(videos, view, category, mode, sort, currentUser);
      && (forall v :: multiset(r)[v] == if ShownOutsideSearch(v, category, mode, currentUser) then multiset(videos)[v] else 0)
      && (forall v :: v in r <==> v in videos && ShownOutsideSearch(v, category, mode, currentUser))
  {
    var r := FilteredVideos(videos, view, category, mode, sort, currentUser);
    var bySubscriptions :=
      if mode == Subscriptions && currentUser.Some? then FromSubscriptions(videos, currentUser.value.subscriptions)
      else videos;
    assert category.Label() != AllLabel <==> category != All;
    forall v
      ensures multiset(r)[v] == if ShownOutsideSearch(v, category, mode, currentUser) then multiset(videos)[v] else 0
    {
      assert multiset(bySubscriptions)[v] ==
        if mode == Subscriptions && currentUser.Some? && v.uploaderId !in currentUser.value.subscriptions then 0
        else multiset(videos)[v];
    }
  }

  /** With either order, adjacent videos of the feed have non-increasing keys. */
  lemma FeedSortedAdjacent(videos: seq<Video>, view: ViewState, category: VideoCategory, mode: FeedMode,
                           sort: FeedSort, currentUser: Option<User>, i: nat)
    requires i + 1 < |FilteredVideos(videos, view, category, mode, sort, currentUser)|
    ensures var r := FilteredVideos(videos, view, category, mode, sort, currentUser);
      Key(r[i], sort) >= Key(r[i + 1], sort)
  {
  }

  /** Videos that tie on the sort key appear in the feed in their collection order. */
  lemma FeedStable(videos: seq<Video>, view: ViewState, category: VideoCategory, mode: FeedMode,
                   sort: FeedSort, currentUser: Option<User>, k: int)
    ensures KeyClass(FilteredVideos(videos, view, category, mode, sort, currentUser), sort, k)
         == KeyClass(Selected(videos, view, category, mode, currentUser), sort, k)
  {
    SortStable(Selected(videos, view, category, mode, currentUser), sort, k);
  }

  /** A category holding a single video yields a one-video feed, whichever order is chosen. */
  lemma CategoryOfOneVideo(videos: seq<Video>, view: ViewState, category: VideoCategory, sort: FeedSort,
                           currentUser: Option<User>, i: nat)
    requires !view.Search? && category != All
    requires i < |videos| && videos[i].category == category.Label()
    requires forall j :: 0 <= j < |videos| && j != i ==> videos[j].category != category.Label()
    ensures FilteredVideos(videos, view, category, AllVideos, sort, currentUser) == [videos[i]]
  {
    FilterSingleMatch(videos, (v: Video) => v.category == category.Label(), i);
    assert Selected(videos, view, category, AllVideos, currentUser) == [videos[i]];
    assert SortBy([videos[i]], sort) == [videos[i]];
  }

  /** Signed out, the subscriptions mode shows the same feed as the all-videos mode. */
  lemma SignedOutSubscriptionsShowAll(videos: seq<Video>, view: ViewState, category: VideoCategory, sort: FeedSort)
    ensures FilteredVideos(videos, view, category, Subscriptions, sort, None)
         == FilteredVideos(videos, view, category, AllVideos, sort, None)
  {
  }
}
