# NeoTube simulated backend, modelled in Dafny

NeoTube is a single-page video-sharing client. All of its "backend" lives in the root
component `App` (App.tsx). There are three in-memory collections: users, videos and
comments. There is a copy of the signed-in user's record, a tagged view state, and the
feed settings (category, feed mode, sort order). On top of these sit:

- the derived feed, `filteredVideos`;
- six handlers: login and logout set the signed-in user and the view; upload, like, subscribe and
  comment replace the collections they change;
- an effect that drops the subscriptions feed once nobody is signed in;
- a few read-only figures: dashboard totals, best video, featured video and partner eligibility.

The model has one module per concern:

- `Wrappers` (wrappers.dfy): the `Option` type.
- `Types` (types.dfy): the records `User`, `Video` and `Comment`, the `VideoCategory`
  enumeration, the `ViewState` sum type, feed mode and sort order, and the partial video an
  upload form supplies (`VideoDraft`). JavaScript's `s || fallback` on strings is `OrElse`.
- `Seqs` (seqs.dfy): the array operations the source builds everything from.
  `Filter` is `filter`. `Remove` is "filter out every occurrence". `Flip` and `Toggle` are the
  append-or-remove toggles of the like and subscribe handlers. `FindIndex` is `find`.
- `Text` (text.dfy): ASCII `toLowerCase` and `String.prototype.includes`. `Includes` is proved
  equal to "occurs at some index".
- `Feed` (feed.dfy): `filteredVideos`. The search filter takes priority, then the subscriptions
  filter, then the category filter. The sort is stable and non-increasing, as
  `Array.prototype.sort` with a `b.key - a.key` comparator gives.
- `Store` (store.dfy): the class `Store`, whose fields are the root component's state variables.
  Each handler is a method with a `modifies` frame on exactly the fields it sets. Its `ensures`
  tie the new state to pure transition functions: `WithLike`, `WithSubscription`,
  `WithSubscriber` and `NewVideo`. The lemmas about those functions state what the source promises.
- `Dashboard` (dashboard.dfy): the creator dashboard's figures, the featured video and partner
  eligibility.
- `Fixtures` (fixtures.dfy): the mock data of constants.ts, with facts proved about it.

Quirks of the source that the model keeps:

- The signed-in user is a separate copy of a record. Subscribing updates that copy and the
  target's record in `users`. It never updates the caller's own record.
  `Store.CallerRecordGoesStale` shows the consequence: a later lookup of the caller, as the next
  login does, finds no subscription, yet the target lists the caller as a subscriber.
  `Store.Mutual` therefore relates the signed-in copy to every other record.
- Liking and subscribing append without a duplicate check. Un-liking and unsubscribing remove
  every occurrence. Liking twice from a liked state does not restore the sequence:
  `Seqs.ToggleTwiceFromPresentReorders` shows `[x, y]` coming back as `[y, x]`.
- The subscribe handler decides presence once, from the caller's copy, and applies that decision
  to the target's subscribers too (`Flip` with one `isSubscribed` flag).
- `"Tout"` is both the "no filter" category and a real label. A video whose category is
  `"Tout"` shows only when no category is selected.
- App.tsx has no delete-video handler, so the model has none.
- The `Video` type in types.ts has no analytics record, so the model's `Video` has none either.
- Subscriber and subscription lists are not kept symmetric in general. A subscribe preserves
  `Store.Mutual`, the agreement between the signed-in copy and every other record
  (`Store.SubscribePreservesMutual`). A later login loads the caller's stale record from `users`
  and can break it (`Store.CallerRecordGoesStale`).
- The partner test (App.tsx:514) reads `currentUser.subscribers`. No handler changes the
  signed-in copy's subscribers, so within a session the test never changes.
  `Dashboard.SubscribeKeepsEligibility` is about the target's record in `users`, which is what the
  target's copy holds after the target next signs in.

Clock readings, generated ids, thumbnail URLs and the object URL of the uploaded file are
method parameters (`id`, `now`, `thumbnail`, `videoUrl`). The text-generation service's answer
is the `generated` parameter of `HandleUpload`.

## Model

| member | source | states |
|---|---|---|
| `Types.VideoCategory.Label` | types.ts:39-47 | the label is "Tout" exactly for the `All` category |
| `Types.LabelInjective` | types.ts:39-47 | distinct categories have distinct labels, so the category filter selects one category |
| `Types.OrElse` | App.tsx:195-211 | `s \|\| fallback`: a present non-empty string is kept; an absent or empty one yields the fallback |
| `Seqs.Filter` | App.tsx:148-160 | `filter` keeps each element satisfying the test with its full multiplicity and drops the rest; never longer than the input |
| `Seqs.FilterConcat` | App.tsx:148-160 | filtering distributes over concatenation, so the original order is kept |
| `Seqs.FilterSingleMatch` | App.tsx:158-161 | when exactly one element passes the test, the filter yields just that element |
| `Seqs.FilterHeadIsFirstMatch` | App.tsx:178 | the first element `filter` keeps is the one `find` would return |
| `Seqs.Remove` | App.tsx:226 | `filter(id => id !== x)` removes every occurrence of `x` and keeps all other elements with their counts |
| `Seqs.Flip` | App.tsx:240-253 | for a "present" flag it removes every occurrence; otherwise it appends one more; no other element is affected |
| `Seqs.Toggle` | App.tsx:224-227 | membership of the toggled id is inverted; membership of every other id is unchanged |
| `Seqs.ToggleTwiceFromAbsent` | App.tsx:219-231 | toggling an absent id on and off again restores the exact original sequence |
| `Seqs.ToggleTwiceSameMembers` | App.tsx:219-231 | toggling twice always restores membership of every id |
| `Seqs.ToggleTwiceFromPresentReorders` | App.tsx:224-227 | from a present state, toggling twice need not restore the order: `[x, y]` becomes `[y, x]` |
| `Seqs.FindIndex` | App.tsx:178 | `find` returns the first index satisfying the test, or none when no element satisfies it |
| `Text.LowerChar` | App.tsx:149-150 | ASCII lowering maps 'A'..'Z' to 'a'..'z' and leaves every other character alone |
| `Text.Lower` | App.tsx:149-150 | `toLowerCase` keeps the length and lowers each character |
| `Text.LowerIdempotent` | App.tsx:149-150 | lowering an already lowered string changes nothing |
| `Text.Includes` | App.tsx:149-150 | `includes` is true exactly when the needle occurs at some index of the haystack |
| `Text.IncludesEmpty` | App.tsx:149-150 | the empty query occurs in every string |
| `Text.MatchesQuery` | App.tsx:148-150 | the search test: the lowered query occurs in the lowered title or the lowered description; a predicate without a contract, whose properties are `Text.MatchesIgnoresQueryCase` and `Feed.SearchFeedExact` |
| `Text.MatchesIgnoresQueryCase` | App.tsx:147-151 | searching for a query and for its lowered form give the same answer |
| `Feed.Insert` | App.tsx:167-171 | insertion into a non-increasing sequence keeps it non-increasing and adds exactly the one element |
| `Feed.SortBy` | App.tsx:165-171 | the sorted copy is a permutation of its input with non-increasing keys |
| `Feed.SortStable` | App.tsx:165-171 | the sort is stable: videos with equal keys keep their input order |
| `Feed.SearchResults` | App.tsx:147-151 | keeps exactly the videos whose lowered title or description contains the lowered query, with multiplicity |
| `Feed.FromSubscriptions` | App.tsx:154-156 | keeps exactly the videos whose uploader is among the subscriptions, with multiplicity |
| `Feed.InCategory` | App.tsx:159-161 | keeps exactly the videos whose category equals the selected label, with multiplicity |
| `Feed.Selected` | App.tsx:144-162 | steps 1 to 3 of the feed, in collection order; a function without a contract, whose meaning `Feed.SearchFeedExact` and `Feed.BrowseFeedExact` state |
| `Feed.ShownOutsideSearch` | App.tsx:152-162 | the subscriptions test (only when that mode is on and someone is signed in) and the category test (unless `All`); a predicate without a contract, used by `Feed.BrowseFeedExact` |
| `Feed.FilteredVideos` | App.tsx:143-174 | the feed is a permutation of the filtered selection, sorted by the chosen key in non-increasing order |
| `Feed.SearchFeedExact` | App.tsx:147-151 | in a search view the feed holds exactly the matching videos of the collection, with multiplicity |
| `Feed.SearchIgnoresOtherFilters` | App.tsx:147-162 | in a search view, feed mode, category and signed-in user do not affect the feed |
| `Feed.BrowseFeedExact` | App.tsx:152-162 | outside search the feed holds exactly the videos passing the subscriptions test (when selected and signed in) and the category test (unless `All`) |
| `Feed.FeedSortedAdjacent` | App.tsx:167-171 | adjacent feed entries have non-increasing timestamps (date order) or view counts (views order) |
| `Feed.FeedStable` | App.tsx:165-171 | feed entries that tie on the key appear in collection order |
| `Feed.CategoryOfOneVideo` | App.tsx:158-171 | outside search, in the all-videos feed, a selected category with a single video gives a one-video feed under either order (the subscriptions feed can be empty instead) |
| `Feed.SignedOutSubscriptionsShowAll` | App.tsx:154 | signed out, subscriptions mode shows the same feed as all-videos mode |
| `Store.FindByEmail` | App.tsx:178 | the first user whose email equals the given one exactly, or none when no user has it |
| `Store.FindById` | App.tsx:110 | `find(...) \|\| null`: the first user with the given id, or none exactly when no user has it |
| `Store.UploadDescription` | App.tsx:195-198 | a non-empty supplied description is kept; otherwise a title yields the generated text; with neither the description is empty |
| `Store.NewVideo` | App.tsx:200-213 | the upload has the caller as uploader, the given id, clock reading, thumbnail and file URL, 0 views, no likes or dislikes, duration "00:00", the given title or "Sans titre", the given category or "Tout" |
| `Store.WithLike` | App.tsx:221-230 | only videos with the matching id change, and only in `likes`; there the user's membership flips and nobody else's changes |
| `Store.LikeAppendsOrRemovesAll` | App.tsx:224-227 | an absent user is appended once; a present user has every occurrence removed |
| `Store.LikeThenUnlikeRestores` | App.tsx:219-231 | liking then un-liking from a not-liked state restores the collection exactly |
| `Store.WithSubscription` | App.tsx:239-244 | the caller's copy changes only in `subscriptions`; the target is present exactly when it was not believed subscribed |
| `Store.WithSubscriber` | App.tsx:246-256 | only records with the target id change, and only in `subscribers`; all other users are unchanged |
| `Store.SubscribeAgreesOnTarget` | App.tsx:237-256 | after a subscribe, the caller is in the target's subscribers exactly when the target is in the caller's subscriptions |
| `Store.SubscribePreservesMutual` | App.tsx:233-257 | a subscribe keeps the caller's copy and every other record in agreement |
| `Store.SubscribeThenUnsubscribeRestores` | App.tsx:233-257 | subscribing then unsubscribing from an unsubscribed state restores the caller's copy and every record |
| `Store.SubscribeCountsOne` | App.tsx:251-253 | a new subscriber raises the target's subscriber count by one |
| `Store.CallerRecordGoesStale` | App.tsx:177-182 | the caller's own record is never updated, so a later lookup loses the subscription while the target still lists the caller |
| `Store.Store.constructor` | App.tsx:110-124 | the initial state holds the given collections, the first user with the configured id if any, the home view, category "Tout", all videos, date order |
| `Store.Store.DisplayedFeed` | App.tsx:143-174 | the derived feed (`filteredVideos`) is a sorted permutation of the selection from the current state |
| `Store.Store.HandleLogin` | App.tsx:177-185 | on a hit: the first user with that email is signed in and the view is home; on a miss: nothing changes |
| `Store.Store.HandleLogout` | App.tsx:187-190 | no user is signed in and the view is the login page |
| `Store.Store.HandleUpload` | App.tsx:192-217 | signed out: nothing changes; signed in: the new video is prepended and the view shows it |
| `Store.Store.HandleLike` | App.tsx:219-231 | signed out: login view and videos unchanged; signed in: videos become `WithLike` of the old ones |
| `Store.Store.HandleSubscribe` | App.tsx:233-257 | signed out: login view; self: nothing changes; otherwise the caller's copy and the target's record are toggled with one `isSubscribed` test |
| `Store.Store.HandleComment` | App.tsx:259-270 | signed out: nothing changes; signed in: a comment by the caller with 0 likes is prepended |
| `Store.Store.ResetFeedMode` | App.tsx:136-140 | signed out, the feed mode becomes all videos; the derived feed is unchanged |
| `Dashboard.UploadedBy` | App.tsx:957 | the creator's own videos, with multiplicity |
| `Dashboard.TotalViews` | App.tsx:958 | the sum of the views; non-negative when every count is; its sum laws are `Dashboard.TotalsConcat`, `Dashboard.TotalsOfPrepend` and `Dashboard.TotalsPointwise` |
| `Dashboard.TotalLikes` | App.tsx:959 | the sum of the like-list lengths, never negative; its sum laws are the same three lemmas |
| `Dashboard.TotalsConcat` | App.tsx:958-959 | total views and total likes add up over concatenated lists |
| `Dashboard.TotalsOfPrepend` | App.tsx:958-959 | a prepended video adds its views and its like count to the totals |
| `Dashboard.TotalsPointwise` | App.tsx:958-959 | lists that agree on every video's views (like count) have equal total views (likes) |
| `Dashboard.TotalViewsBounds` | App.tsx:958 | with non-negative counts, the total is at least each video's views |
| `Dashboard.CreatorViewsCons` | App.tsx:957-958 | a creator's total views over a collection is the first video's views (when it is theirs) plus the total over the rest |
| `Dashboard.CreatorViewsPointwise` | App.tsx:957-958 | collections that agree index by index on uploader and views give each creator the same total views |
| `Dashboard.Ids` | App.tsx:962 | the ids of the videos, index by index |
| `Dashboard.CommentsOn` | App.tsx:962-963 | exactly the comments whose video is one of the given videos, each with its full multiplicity |
| `Dashboard.TotalComments` | App.tsx:963 | the number of comments on the given videos: at most the number of comments, and zero without videos |
| `Dashboard.CommentCountsOnce` | App.tsx:963 | a new comment raises the count by one exactly when it is on one of the creator's videos |
| `Dashboard.AllCommentsOnOneVideo` | App.tsx:962-963 | when every comment is on one of the creator's videos, the count is the number of comments |
| `Dashboard.NoCommentsOnVideos` | App.tsx:962-963 | when no comment is on one of the creator's videos, the count is zero |
| `Dashboard.TopVideo` | App.tsx:966 | no top video exactly when there are no videos; otherwise a video of the list with maximal views |
| `Dashboard.TopVideoIsFirstMostViewed` | App.tsx:966 | the top video is the first most-viewed video in collection order |
| `Dashboard.FeaturedIndex` | App.tsx:408 | the featured index has maximal views, and every later video has strictly fewer views (a tie keeps the later one) |
| `Dashboard.Featured` | App.tsx:408 | the featured video is one of the videos |
| `Dashboard.UploadKeepsCreatorTotals` | App.tsx:192-217 | an upload prepends to the creator's list and leaves total views and likes unchanged |
| `Dashboard.LikeKeepsTotalViews` | App.tsx:219-231 | liking changes neither the collection's total views nor the total views on any creator's dashboard |
| `Dashboard.IsEligible` | App.tsx:514 | the partner test, at least 1000 subscribers; a predicate without a contract, whose property is `Dashboard.SubscribeKeepsEligibility` |
| `Dashboard.SubscribeKeepsEligibility` | App.tsx:514 | a new subscriber keeps the target's eligibility (at least 1000 subscribers), and the 1000th grants it |
| `Fixtures.InitialUserIsNeoUser` | constants.ts:4-16 | the start-up lookup of `user_1` finds NeoUser |
| `Fixtures.MockUsers` | constants.ts:6-40 | the three fixture users; data without a contract, described by the fixture lemmas |
| `Fixtures.MockVideos` | constants.ts:43-114 | the five fixture videos, timestamps relative to `now`; data without a contract |
| `Fixtures.MockComments` | constants.ts:116-133 | the two fixture comments, both on `vid_1`; data without a contract |
| `Fixtures.InitialStore` | App.tsx:110-124 | the start-up state holds the fixture collections, NeoUser signed in, the home view, category "Tout", all videos and date order |
| `Fixtures.NeoUserUploadsOnlyVid4` | constants.ts:43-114 | NeoUser's own videos are exactly `vid_4` |
| `Fixtures.TechMasterCommentCount` | constants.ts:116-133 | TechMaster's dashboard counts both fixture comments, which are on its `vid_1` |
| `Fixtures.NeoUserCommentCount` | constants.ts:116-133 | NeoUser's dashboard counts no comment, since `vid_4` has none |
| `Fixtures.InitialStateIsMutual` | constants.ts:6-40 | the fixture's subscription records agree with the signed-in user's |
| `Fixtures.SportsByViewsShowsOneVideo` | constants.ts:43-114 | the derived feed (`filteredVideos`) for category "Sports", all videos, sorted by views, is exactly `[vid_5]`, the 99000-view video |
| `Fixtures.FeaturedFixtureIsFootball` | constants.ts:100-113 | the featured fixture video is `vid_5`, the most viewed |

## Left out

- Rendering, CSS classes, the sidebar and dark-mode toggles, and the `document.documentElement` class (App.tsx:127-133) are UI only.
- `alert` on a login miss (App.tsx:183) is a browser side effect. The model returns `found == false` and leaves state unchanged.
- `Date.now()`-based ids, timestamps and thumbnails, and `URL.createObjectURL` (App.tsx:201-210), are parameters of `HandleUpload` and `HandleComment`.
- services/geminiService.ts is not part of this model. Its answer, including its fixed fallback strings, is the `generated` argument of `HandleUpload`. The `await` suspension is not modelled either. The handler reads `videos` from before the await, so an update made during the await would be lost. The model runs the handler as one step.
- Store.Store.HandleUpload: does not model the asynchrony just described.
- Text.LowerChar: lowers ASCII letters only. Unicode `toLowerCase` (for example 'É' to 'é') is not modelled.
- Floating-point display math is left out: the monetization progress percentage (App.tsx:515), like rate, `toFixed` and `toLocaleString`. `revenue` is carried as a `real` and never computed with.
- View counts and timestamps are unbounded integers. JavaScript numbers are doubles, so precision loss above 2^53 is not modelled.
- React mechanics (`useState`, `useMemo`, `useEffect` scheduling) are left out. The reset effect is a method to call after a state change. Calling `setCurrentUser` with an updater uses the settled previous value, which equals the copy the handler read.
- UI-only setters that just assign a field (view navigation, category, feed mode, sort) have no handler logic and are not modelled as methods.
- Dashboard.Featured: requires a non-empty collection, as `reduce` without an initial value throws on an empty array. The fixture has five videos, no handler removes one, and upload only prepends.
- The constants.ts fixture is data. Its video URLs are shortened to file names in `Fixtures.MockVideos`; the thumbnail, avatar and banner URLs are kept in full.
- Store.Store.DisplayedFeed: is the derived list `filteredVideos`, not the rendered grid. The home grid also drops the featured video (App.tsx:477), and the featured hero has its own condition (App.tsx:414); neither is modelled.
