/**
 * Read-only figures the pages compute from the store: the creator dashboard's totals
 * and best video, the home page's featured video, and partner eligibility.
 */
module Dashboard {
  import opened Wrappers
  import opened Types
  import opened Seqs
  import opened Feed
  import Store

  /** `videos.filter(v => v.uploaderId === uploaderId)`: the creator's own videos. */
  function UploadedBy(videos: seq<Video>, uploaderId: string): (r: seq<Video>)
    ensures forall v :: multiset(r)[v] == if v.uploaderId == uploaderId then multiset(videos)[v] else 0
  {
    Filter(videos, (v: Video) => v.uploaderId == uploaderId)
  }

  /** `reduce((acc, v) => acc + v.views, 0)`, a left fold. */
  function TotalViews(videos: seq<Video>): (r: int)
    ensures (forall j :: 0 <= j < |videos| ==> videos[j].views >= 0) ==> r >= 0
    decreases |videos|
  {
    if videos == [] then 0 else TotalViews(videos[..|videos| - 1]) + videos[|videos| - 1].views
  }

  /** `reduce((acc, v) => acc + v.likes.length, 0)`, a left fold. */
  function TotalLikes(videos: seq<Video>): (r: int)
    ensures r >= 0
    decreases |videos|
  {
    if videos == [] then 0 else TotalLikes(videos[..|videos| - 1]) + |videos[|videos| - 1].likes|
  }

  lemma {:induction false} TotalsConcat(a: seq<Video>, b: seq<Video>)
    ensures TotalViews(a + b) == TotalViews(a) + TotalViews(b)
    ensures TotalLikes(a + b) == TotalLikes(a) + TotalLikes(b)
    decreases |b|
  {
    if b == [] {
      assert a + b == a;
    } else {
      var b' := b[..|b| - 1];
      assert (a + b)[..|a + b| - 1] == a + b';
      TotalsConcat(a, b');
    }
  }

  /** Both totals are sums over the videos: they do not depend on the videos' order. */
  lemma {:induction false} TotalsOfPrepend(v: Video, videos: seq<Video>)
    ensures TotalViews([v] + videos) == v.views + TotalViews(videos)
    ensures TotalLikes([v] + videos) == |v.likes| + TotalLikes(videos)
  {
    TotalsConcat([v], videos);
    assert [v][..0] == [];
  }

  /** Two collections that agree on every video's views (likes) have the same total views (likes). */
  lemma {:induction false} TotalsPointwise(a: seq<Video>, b: seq<Video>)
    requires |a| == |b|
    ensures (forall i :: 0 <= i < |a| ==> a[i].views == b[i].views) ==> TotalViews(a) == TotalViews(b)
    ensures (forall i :: 0 <= i < |a| ==> |a[i].likes| == |b[i].likes|) ==> TotalLikes(a) == TotalLikes(b)
    decreases |a|
  {
    if a != [] {
      TotalsPointwise(a[..|a| - 1], b[..|b| - 1]);
    }
  }

  /** With no negative view counts, the total is at least the views of each video. */
  lemma {:induction false} TotalViewsBounds(videos: seq<Video>, i: nat)
    requires forall j :: 0 <= j < |videos| ==> videos[j].views >= 0
    requires i < |videos|
    ensures TotalViews(videos) >= videos[i].views >= 0
    decreases |videos|
  {
    var n := |videos| - 1;
    if i < n {
      TotalViewsBounds(videos[..n], i);
    } else {
      assert forall j :: 0 <= j < n ==> videos[..n][j].views >= 0;
    }
  }

  /** A creator's total views over a non-empty collection: its first video's share plus the rest. */
  lemma CreatorViewsCons(s: seq<Video>, uploaderId: string)
    requires s != []
    ensures TotalViews(UploadedBy(s, uploaderId))
         == (if s[0].uploaderId == uploaderId then s[0].views else 0) + TotalViews(UploadedBy(s[1..], uploaderId))
  {
    var v, rest := s[0], s[1..];
    assert s == [v] + rest;
    var r := UploadedBy(rest, uploaderId);
    var first := UploadedBy([v], uploaderId);
    FilterConcat([v], rest, (w: Video) => w.uploaderId == uploaderId);
    assert [v][1..] == [];
    TotalsConcat(first, r);
    if v.uploaderId == uploaderId {
      assert first == [v];
      TotalsOfPrepend(v, []);
    } else {
      assert first == [];
    }
  }

  /**
   * Two collections that agree, index by index, on every video's uploader and views give
   * every creator the same dashboard total of views.
   */
  lemma {:induction false} CreatorViewsPointwise(a: seq<Video>, b: seq<Video>, uploaderId: string)
    requires |a| == |b|
    requires forall i :: 0 <= i < |a| ==> a[i].uploaderId == b[i].uploaderId && a[i].views == b[i].views
    ensures TotalViews(UploadedBy(a, uploaderId)) == TotalViews(UploadedBy(b, uploaderId))
    decreases |a|
  {
    if a != [] {
      CreatorViewsPointwise(a[1..], b[1..], uploaderId);
      CreatorViewsCons(a, uploaderId);
      CreatorViewsCons(b, uploaderId);
    }
  }

  /** The ids of a list of videos, in order (`map(v => v.id)`). */
  function Ids(videos: seq<Video>): (r: seq<string>)
    ensures |r| == |videos|
    ensures forall i :: 0 <= i < |videos| ==> r[i] == videos[i].id
  {
    seq(|videos|, i requires 0 <= i < |videos| => videos[i].id)
  }

  /** The comments whose video is one of `videos`. */
  function CommentsOn(comments: seq<Comment>, videos: seq<Video>): (r: seq<Comment>)
    ensures forall c :: c in r <==> c in comments && exists i :: 0 <= i < |videos| && videos[i].id == c.videoId
    ensures forall c :: multiset(r)[c] == if c.videoId in Ids(videos) then multiset(comments)[c] else 0
  {
    var ids := Ids(videos);
    assert forall c: Comment :: c.videoId in ids <==> exists i :: 0 <= i < |videos| && videos[i].id == c.videoId by {
      forall c: Comment | c.videoId in ids ensures exists i :: 0 <= i < |videos| && videos[i].id == c.videoId {
        var i :| 0 <= i < |ids| && ids[i] == c.videoId;
        assert videos[i].id == c.videoId;
      }
    }
    Filter(comments, (c: Comment) => c.videoId in ids)
  }

  /** `comments.filter(c => myVideoIds.includes(c.videoId)).length`. */
  function TotalComments(comments: seq<Comment>, videos: seq<Video>): (r: nat)
    ensures r <= |comments|
    ensures videos == [] ==> r == 0
  {
    |CommentsOn(comments, videos)|
  }

  /** When every comment is on one video of the list, the count is the number of comments. */
  lemma AllCommentsOnOneVideo(comments: seq<Comment>, videos: seq<Video>, v: Video)
    requires v in videos
    requires forall j :: 0 <= j < |comments| ==> comments[j].videoId == v.id
    ensures TotalComments(comments, videos) == |comments|
  {
    var i :| 0 <= i < |videos| && videos[i] == v;
    assert Ids(videos)[i] == v.id;
    FilterKeepsAll(comments, (c: Comment) => c.videoId in Ids(videos));
  }

  /** When no comment is on a video of the list, the count is zero. */
  lemma NoCommentsOnVideos(comments: seq<Comment>, videos: seq<Video>)
    requires forall j, k :: 0 <= j < |comments| && 0 <= k < |videos| ==> comments[j].videoId != videos[k].id
    ensures TotalComments(comments, videos) == 0
  {
  }

  /** A new comment raises the count by one exactly when it is on one of the videos. */
  lemma CommentCountsOnce(c: Comment, comments: seq<Comment>, videos: seq<Video>)
    ensures TotalComments([c] + comments, videos)
         == TotalComments(comments, videos) + (if c.videoId in Ids(videos) then 1 else 0)
  {
    assert ([c] + comments)[1..] == comments;
  }

  /** `[...videos].sort((a, b) => b.views - a.views)[0]`; undefined when there are none. */
  function TopVideo(videos: seq<Video>): (r: Option<Video>)
    ensures r.None? <==> videos == []
    ensures r.Some? ==> r.value in videos && forall v :: v in videos ==> v.views <= r.value.views
  {
    var sorted := SortBy(videos, ByViews);
    if sorted == [] then None
    else
      assert sorted[0] in multiset(videos);
      assert forall v :: v in videos ==> v.views <= sorted[0].views by {
        forall v | v in videos ensures v.views <= sorted[0].views {
          assert v in multiset(sorted);
          var j :| 0 <= j < |sorted| && sorted[j] == v;
          assert j == 0 || Key(sorted[0], ByViews) >= Key(sorted[j], ByViews);
        }
      }
      Some(sorted[0])
  }

  /** Among the most-viewed videos, the dashboard's best video is the first one in collection order. */
  lemma TopVideoIsFirstMostViewed(videos: seq<Video>)
    requires videos != []
    ensures exists i :: (0 <= i < |videos| && TopVideo(videos) == Some(videos[i])
                         && forall j :: 0 <= j < i ==> videos[j].views < videos[i].views)
  {
    var sorted := SortBy(videos, ByViews);
    var top := sorted[0];
    var m := top.views;
    var p := HasKey(ByViews, m);
    assert TopVideo(videos) == Some(top);
    assert KeyClass(videos, ByViews, m)[0] == top by {
      assert sorted == [top] + sorted[1..];
      KeyClassConcat([top], sorted[1..], ByViews, m);
      KeyClassSingleton(top, ByViews, m);
      SortStable(videos, ByViews, m);
    }
    FilterHeadIsFirstMatch(videos, p);
    var i := FindIndex(videos, p).value;
    assert videos[i] == top;
    forall j | 0 <= j < i ensures videos[j].views < videos[i].views {
      assert !p(videos[j]);
      assert videos[j] in videos;
    }
  }

  /**
   * The index `videos.reduce((prev, cur) => prev.views > cur.views ? prev : cur)` lands on:
   * a most-viewed video, and the last of them, since a tie keeps the later element.
   */
  function FeaturedIndex(videos: seq<Video>): (k: nat)
    requires |videos| > 0
    ensures k < |videos|
    ensures forall j :: 0 <= j < |videos| ==> videos[j].views <= videos[k].views
    ensures forall j :: k < j < |videos| ==> videos[j].views < videos[k].views
    decreases |videos|
  {
    var n := |videos| - 1;
    if n == 0 then 0
    else
      var prev := FeaturedIndex(videos[..n]);
      assert videos[..n][prev] == videos[prev];
      if videos[prev].views > videos[n].views then prev else n
  }

  /** The home page's featured video. */
  function Featured(videos: seq<Video>): (r: Video)
    requires |videos| > 0
    ensures r in videos
  {
    videos[FeaturedIndex(videos)]
  }

  /** Subscriber count that unlocks the partner programme. */
  const PartnerThreshold: nat := 1000

  /** `currentUser.subscribers.length >= 1000`. */
  predicate IsEligible(u: User)
  {
    |u.subscribers| >= PartnerThreshold
  }

  /** A fresh upload adds no views and no likes to its creator's dashboard totals. */
  lemma UploadKeepsCreatorTotals(draft: VideoDraft, generated: string, uploaderId: string, id: string,
                                 thumbnail: string, videoUrl: string, now: int, videos: seq<Video>)
    ensures var upload := Store.NewVideo(draft, generated, uploaderId, id, thumbnail, videoUrl, now);
      && UploadedBy([upload] + videos, uploaderId) == [upload] + UploadedBy(videos, uploaderId)
      && TotalViews(UploadedBy([upload] + videos, uploaderId)) == TotalViews(UploadedBy(videos, uploaderId))
      && TotalLikes(UploadedBy([upload] + videos, uploaderId)) == TotalLikes(UploadedBy(videos, uploaderId))
  {
    var upload := Store.NewVideo(draft, generated, uploaderId, id, thumbnail, videoUrl, now);
    assert ([upload] + videos)[1..] == videos;
    TotalsOfPrepend(upload, UploadedBy(videos, uploaderId));
  }

  /** Liking changes neither the collection's total views nor any creator's dashboard total. */
  lemma LikeKeepsTotalViews(videos: seq<Video>, videoId: string, userId: string, uploaderId: string)
    ensures TotalViews(Store.WithLike(videos, videoId, userId)) == TotalViews(videos)
    ensures TotalViews(UploadedBy(Store.WithLike(videos, videoId, userId), uploaderId))
         == TotalViews(UploadedBy(videos, uploaderId))
  {
    var liked := Store.WithLike(videos, videoId, userId);
    TotalsPointwise(liked, videos);
    assert forall i :: 0 <= i < |liked| ==> liked[i].uploaderId == videos[i].uploaderId && liked[i].views == videos[i].views by {
      forall i | 0 <= i < |liked| ensures liked[i].uploaderId == videos[i].uploaderId && liked[i].views == videos[i].views {
        if videos[i].id == videoId {
          assert liked[i].(likes := videos[i].likes) == videos[i];
        }
      }
    }
    CreatorViewsPointwise(liked, videos, uploaderId);
  }

  /** A new subscriber never costs a target its eligibility, and the 1000th one grants it. */
  lemma SubscribeKeepsEligibility(users: seq<User>, targetId: string, callerId: string, i: nat)
    requires i < |users| && users[i].id == targetId
    ensures var after := Store.WithSubscriber(users, targetId, callerId, false)[i];
      && (IsEligible(users[i]) ==> IsEligible(after))
      && (|users[i].subscribers| == PartnerThreshold - 1 ==> IsEligible(after))
  {
    Store.SubscribeCountsOne(users, targetId, callerId, i);
  }
}
