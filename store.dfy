/**
 * The simulated backend held by the root component (App.tsx): the collections, the
 * signed-in user's copy of their record, the view, and the handlers that replace them.
 */
module Store {
  import opened Wrappers
  import opened Types
  import opened Seqs
  import Feed

  /** `users.find(u => u.email === email)`, as the index of the first match. */
  function FindByEmail(users: seq<User>, email: string): (r: Option<nat>)
    ensures r.Some? ==> r.value < |users| && users[r.value].email == email
                        && forall j :: 0 <= j < r.value ==> users[j].email != email
    ensures r.None? ==> forall j :: 0 <= j < |users| ==> users[j].email != email
  {
    FindIndex(users, (u: User) => u.email == email)
  }

  /** `users.find(u => u.id === id) || null`: the first user with that id, or none. */
  function FindById(users: seq<User>, id: string): (r: Option<User>)
    ensures r.None? <==> forall j :: 0 <= j < |users| ==> users[j].id != id
    ensures r.Some? ==> exists j :: 0 <= j < |users| && users[j] == r.value && r.value.id == id
                                    && forall k :: 0 <= k < j ==> users[k].id != id
  {
    match FindIndex(users, (u: User) => u.id == id)
    case None => None
    case Some(i) => Some(users[i])
  }

  /** Title given to an upload whose title is empty. */
  const UntitledTitle: string := "Sans titre"

  /** Duration shown for a fresh upload. */
  const FreshDuration: string := "00:00"

  /**
   * The description an upload keeps: the supplied one when it is non-empty, otherwise the
   * generated text when a title was given, otherwise the empty string.
   */
  function UploadDescription(draft: VideoDraft, generated: string): (r: string)
    ensures draft.description.Some? && draft.description.value != "" ==> r == draft.description.value
    ensures OrElse(draft.description, "") == "" && OrElse(draft.title, "") != "" ==> r == generated
    ensures OrElse(draft.description, "") == "" && OrElse(draft.title, "") == "" ==> r == ""
  {
    var description := OrElse(draft.description, "");
    if description == "" && OrElse(draft.title, "") != "" then generated else description
  }

  /** The video an upload prepends; `id`, `thumbnail`, `videoUrl` and `now` stand for the clock and the blob URL. */
  function NewVideo(draft: VideoDraft, generated: string, uploaderId: string, id: string,
                    thumbnail: string, videoUrl: string, now: int): (v: Video)
    ensures v.id == id && v.uploaderId == uploaderId && v.timestamp == now
    ensures v.views == 0 && v.likes == [] && v.dislikes == []
    ensures v.title != "" && v.category != ""
    ensures draft.title.Some? && draft.title.value != "" ==> v.title == draft.title.value
    ensures (draft.title.None? || draft.title.value == "") ==> v.title == UntitledTitle
    ensures draft.category.Some? && draft.category.value != "" ==> v.category == draft.category.value
    ensures (draft.category.None? || draft.category.value == "") ==> v.category == AllLabel
    ensures v.thumbnail == thumbnail && v.videoUrl == videoUrl && v.duration == FreshDuration
    ensures v.description == UploadDescription(draft, generated)
  {
    Video(id, uploaderId, OrElse(draft.title, UntitledTitle), UploadDescription(draft, generated),
          thumbnail, videoUrl, 0, [], [], now, OrElse(draft.category, AllLabel), FreshDuration)
  }

  /** `videos.map(...)` of the like handler: the user's like is toggled on the videos with that id. */
  function WithLike(videos: seq<Video>, videoId: string, userId: string): (r: seq<Video>)
    ensures |r| == |videos|
    ensures forall i :: 0 <= i < |videos| && videos[i].id != videoId ==> r[i] == videos[i]
    ensures forall i :: 0 <= i < |videos| && videos[i].id == videoId ==>
      && r[i].(likes := videos[i].likes) == videos[i]
      && (userId in r[i].likes <==> userId !in videos[i].likes)
      && (forall w :: w != userId ==> (w in r[i].likes <==> w in videos[i].likes))
  {
    seq(|videos|, i requires 0 <= i < |videos| =>
      if videos[i].id == videoId then videos[i].(likes := Toggle(videos[i].likes, userId)) else videos[i])
  }

  /** A like appends one id when absent and removes every occurrence when present. */
  lemma LikeAppendsOrRemovesAll(videos: seq<Video>, videoId: string, userId: string, i: nat)
    requires i < |videos| && videos[i].id == videoId
    ensures var r := WithLike(videos, videoId, userId);
      && (userId !in videos[i].likes ==> r[i].likes == videos[i].likes + [userId])
      && (userId in videos[i].likes ==> r[i].likes == Remove(videos[i].likes, userId))
  {
  }

  /** Liking and then un-liking, from a state where the user liked none of the videos with that id, restores the collection. */
  lemma LikeThenUnlikeRestores(videos: seq<Video>, videoId: string, userId: string)
    requires forall i :: 0 <= i < |videos| && videos[i].id == videoId ==> userId !in videos[i].likes
    ensures WithLike(WithLike(videos, videoId, userId), videoId, userId) == videos
  {
    var once := WithLike(videos, videoId, userId);
    var twice := WithLike(once, videoId, userId);
    forall i | 0 <= i < |videos| ensures twice[i] == videos[i] {
      if videos[i].id == videoId {
        ToggleTwiceFromAbsent(videos[i].likes, userId);
        assert once[i] == videos[i].(likes := Toggle(videos[i].likes, userId));
        assert twice[i] == once[i].(likes := Toggle(once[i].likes, userId));
      }
    }
  }

  /** The caller's copy after subscribing, with presence decided by `isSubscribed`. */
  function WithSubscription(caller: User, targetId: string, isSubscribed: bool): (r: User)
    ensures r.(subscriptions := caller.subscriptions) == caller
    ensures targetId in r.subscriptions <==> !isSubscribed
    ensures forall w :: w != targetId ==> (w in r.subscriptions <==> w in caller.subscriptions)
  {
    caller.(subscriptions := Flip(caller.subscriptions, targetId, isSubscribed))
  }

  /** `users.map(...)` of the subscribe handler: the caller is added to or removed from the target's subscribers. */
  function WithSubscriber(users: seq<User>, targetId: string, callerId: string, isSubscribed: bool): (r: seq<User>)
    ensures |r| == |users|
    ensures forall i :: 0 <= i < |users| && users[i].id != targetId ==> r[i] == users[i]
    ensures forall i :: 0 <= i < |users| && users[i].id == targetId ==>
      && r[i].(subscribers := users[i].subscribers) == users[i]
      && (callerId in r[i].subscribers <==> !isSubscribed)
      && (forall w :: w != callerId ==> (w in r[i].subscribers <==> w in users[i].subscribers))
  {
    seq(|users|, i requires 0 <= i < |users| =>
      if users[i].id == targetId then users[i].(subscribers := Flip(users[i].subscribers, callerId, isSubscribed))
      else users[i])
  }

  /**
   * The signed-in user's copy and every other record agree: the caller is among a user's
   * subscribers exactly when that user is among the caller's subscriptions. The caller's
   * own entry in `users` is left out: the subscribe handler never updates it.
   */
  ghost predicate Mutual(caller: User, users: seq<User>)
  {
    forall i :: 0 <= i < |users| && users[i].id != caller.id ==>
      (caller.id in users[i].subscribers <==> users[i].id in caller.subscriptions)
  }

  /** After a subscribe, the target agrees with the caller's copy whatever the state before. */
  lemma SubscribeAgreesOnTarget(caller: User, users: seq<User>, targetId: string, i: nat)
    requires i < |users| && users[i].id == targetId
    ensures var isSubscribed := targetId in caller.subscriptions;
      (caller.id in WithSubscriber(users, targetId, caller.id, isSubscribed)[i].subscribers
       <==> targetId in WithSubscription(caller, targetId, isSubscribed).subscriptions)
  {
  }

  /** A subscribe by a signed-in user to someone else keeps the caller's copy and the other records in agreement. */
  lemma SubscribePreservesMutual(caller: User, users: seq<User>, targetId: string)
    requires caller.id != targetId
    requires Mutual(caller, users)
    ensures var isSubscribed := targetId in caller.subscriptions;
      Mutual(WithSubscription(caller, targetId, isSubscribed), WithSubscriber(users, targetId, caller.id, isSubscribed))
  {
    var isSubscribed := targetId in caller.subscriptions;
    var caller' := WithSubscription(caller, targetId, isSubscribed);
    var users' := WithSubscriber(users, targetId, caller.id, isSubscribed);
    forall i | 0 <= i < |users'| && users'[i].id != caller'.id
      ensures caller'.id in users'[i].subscribers <==> users'[i].id in caller'.subscriptions
    {
      if users[i].id != targetId {
        assert users'[i] == users[i];
      }
    }
  }

  /** Subscribing and then unsubscribing, from an unsubscribed state, restores the caller's copy and every record. */
  lemma SubscribeThenUnsubscribeRestores(caller: User, users: seq<User>, targetId: string)
    requires targetId !in caller.subscriptions
    requires forall i :: 0 <= i < |users| && users[i].id == targetId ==> caller.id !in users[i].subscribers
    ensures var caller1 := WithSubscription(caller, targetId, false);
      var users1 := WithSubscriber(users, targetId, caller.id, false);
      && targetId in caller1.subscriptions
      && WithSubscription(caller1, targetId, true) == caller
      && WithSubscriber(users1, targetId, caller.id, true) == users
  {
    var users1 := WithSubscriber(users, targetId, caller.id, false);
    var users2 := WithSubscriber(users1, targetId, caller.id, true);
    ToggleTwiceFromAbsent(caller.subscriptions, targetId);
    forall i | 0 <= i < |users| ensures users2[i] == users[i] {
      if users[i].id == targetId {
        ToggleTwiceFromAbsent(users[i].subscribers, caller.id);
        assert users1[i] == users[i].(subscribers := users[i].subscribers + [caller.id]);
      }
    }
  }

  /** A user who joins a target's subscribers raises its subscriber count by exactly one. */
  lemma SubscribeCountsOne(users: seq<User>, targetId: string, callerId: string, i: nat)
    requires i < |users| && users[i].id == targetId
    ensures |WithSubscriber(users, targetId, callerId, false)[i].subscribers| == |users[i].subscribers| + 1
  {
  }

  /**
   * The caller's own entry in `users` goes stale: after "a" subscribes to "b", a fresh
   * lookup of "a" (as the next login does) still has no subscriptions, while "b" lists "a".
   */
  lemma CallerRecordGoesStale()
    ensures var a := User("a", "A", "a@mail", "", None, [], [], None, None);
      var b := User("b", "B", "b@mail", "", None, [], [], None, None);
      var users := WithSubscriber([a, b], "b", "a", false);
      var relogged := FindByEmail(users, "a@mail");
      && "b" in WithSubscription(a, "b", false).subscriptions
      && "a" in users[1].subscribers
      && relogged == Some(0)
      && "b" !in users[relogged.value].subscriptions
      && !Mutual(users[relogged.value], users)
  {
    var a := User("a", "A", "a@mail", "", None, [], [], None, None);
    var b := User("b", "B", "b@mail", "", None, [], [], None, None);
    var users := WithSubscriber([a, b], "b", "a", false);
    assert users[0] == a;
    assert users[1].id == "b" && "a" in users[1].subscribers;
    assert !Mutual(a, users) by {
      assert users[1].id != a.id;
      assert users[1].id !in a.subscriptions;
    }
  }

  /** The root component's state: the mock backend and the feed settings. */
  class Store {
    var currentUser: Option<User>
    var videos: seq<Video>
    var users: seq<User>
    var comments: seq<Comment>
    var view: ViewState
    var selectedCategory: VideoCategory
    var feedMode: FeedMode
    var feedSort: FeedSort

    /** The initial state: the given collections, the configured user signed in if found, the home page. */
    constructor (initialVideos: seq<Video>, initialUsers: seq<User>, initialComments: seq<Comment>, signedInId: string)
      ensures videos == initialVideos && users == initialUsers && comments == initialComments
      ensures currentUser == FindById(initialUsers, signedInId)
      ensures view == Home && selectedCategory == All && feedMode == AllVideos && feedSort == ByDate
    {
      videos, users, comments := initialVideos, initialUsers, initialComments;
      currentUser := FindById(initialUsers, signedInId);
      view, selectedCategory, feedMode, feedSort := Home, All, AllVideos, ByDate;
    }

    /** The derived feed (`filteredVideos`). */
    function DisplayedFeed(): (r: seq<Video>)
      reads this
      ensures multiset(r) == multiset(Feed.Selected(videos, view, selectedCategory, feedMode, currentUser))
      ensures Feed.SortedBy(r, feedSort)
    {
      Feed.FilteredVideos(videos, view, selectedCategory, feedMode, feedSort, currentUser)
    }

    /** Sign in as the first user with exactly this email and go home; on a miss nothing changes. */
    method HandleLogin(email: string) returns (found: bool)
      modifies this`currentUser, this`view
      ensures found <==> FindByEmail(users, email).Some?
      ensures found ==> currentUser == Some(users[FindByEmail(users, email).value]) && view == Home
      ensures !found ==> currentUser == old(currentUser) && view == old(view)
    {
      var index := FindByEmail(users, email);
      found := index.Some?;
      if found {
        currentUser := Some(users[index.value]);
        view := Home;
      }
    }

    /** Sign out and show the login page. */
    method HandleLogout()
      modifies this`currentUser, this`view
      ensures currentUser == None && view == LoginPage
    {
      currentUser := None;
      view := LoginPage;
    }

    /**
     * Prepend a video owned by the signed-in user and open its watch page; signed out, nothing
     * changes. `generated` is the text-generation service's answer for the title.
     */
    method HandleUpload(draft: VideoDraft, generated: string, id: string, thumbnail: string, videoUrl: string, now: int)
      modifies this`videos, this`view
      ensures currentUser.None? ==> videos == old(videos) && view == old(view)
      ensures currentUser.Some? ==>
        && videos == [NewVideo(draft, generated, currentUser.value.id, id, thumbnail, videoUrl, now)] + old(videos)
        && view == Watch(id)
    {
      if currentUser.None? {
        return;
      }
      var video := NewVideo(draft, generated, currentUser.value.id, id, thumbnail, videoUrl, now);
      videos := [video] + videos;
      view := Watch(video.id);
    }

    /** Toggle the signed-in user's like on the video; signed out, show the login page instead. */
    method HandleLike(videoId: string)
      modifies this`videos, this`view
      ensures currentUser.None? ==> view == LoginPage && videos == old(videos)
      ensures currentUser.Some? ==> videos == WithLike(old(videos), videoId, currentUser.value.id) && view == old(view)
    {
      if currentUser.None? {
        view := LoginPage;
        return;
      }
      videos := WithLike(videos, videoId, currentUser.value.id);
    }

    /**
     * Toggle a subscription, deciding presence once from the caller's copy; updates that copy
     * and the target's record, never the caller's own record in `users`.
     */
    method HandleSubscribe(targetId: string)
      modifies this`currentUser, this`users, this`view
      ensures old(currentUser).None? ==> view == LoginPage && currentUser == old(currentUser) && users == old(users)
      ensures old(currentUser).Some? && old(currentUser).value.id == targetId ==>
        currentUser == old(currentUser) && users == old(users) && view == old(view)
      ensures old(currentUser).Some? && old(currentUser).value.id != targetId ==>
        var caller := old(currentUser).value;
        var isSubscribed := targetId in caller.subscriptions;
        && currentUser == Some(WithSubscription(caller, targetId, isSubscribed))
        && users == WithSubscriber(old(users), targetId, caller.id, isSubscribed)
        && view == old(view)
    {
      if currentUser.None? {
        view := LoginPage;
        return;
      }
      var caller := currentUser.value;
      if caller.id == targetId {
        return;
      }
      var isSubscribed := targetId in caller.subscriptions;
      currentUser := Some(WithSubscription(caller, targetId, isSubscribed));
      users := WithSubscriber(users, targetId, caller.id, isSubscribed);
    }

    /** Prepend a comment by the signed-in user with no likes; signed out, nothing changes. */
    method HandleComment(videoId: string, text: string, id: string, now: int)
      modifies this`comments
      ensures currentUser.None? ==> comments == old(comments)
      ensures currentUser.Some? ==> comments == [Comment(id, videoId, currentUser.value.id, text, now, 0)] + old(comments)
    {
      if currentUser.None? {
        return;
      }
      comments := [Comment(id, videoId, currentUser.value.id, text, now, 0)] + comments;
    }

    /** The effect that drops the subscriptions feed once nobody is signed in. */
    method ResetFeedMode()
      modifies this`feedMode
      ensures currentUser.None? ==> feedMode == AllVideos
      ensures currentUser.Some? ==> feedMode == old(feedMode)
      ensures DisplayedFeed() == old(DisplayedFeed())
    {
      if currentUser.None? && feedMode == Subscriptions {
        Feed.SignedOutSubscriptionsShowAll(videos, view, selectedCategory, feedSort);
        feedMode := AllVideos;
      }
    }
  }
}
