/** Records, enumerations and the tagged view state of the video platform (types.ts). */
module Types {
  import opened Wrappers

  /** A registered account. `subscribers` and `subscriptions` hold user ids, in insertion order. */
  datatype User = User(
    id: string,
    username: string,
    email: string,
    avatar: string,
    banner: Option<string>,
    subscribers: seq<string>,
    subscriptions: seq<string>,
    isPartner: Option<bool>,
    revenue: Option<real>)

  /** A comment on a video; its like count is a bare number, not tied to voters. */
  datatype Comment = Comment(
    id: string,
    videoId: string,
    userId: string,
    text: string,
    timestamp: int,
    likes: int)

  /** A video record. `likes` and `dislikes` hold user ids; `category` is a category label. */
  datatype Video = Video(
    id: string,
    uploaderId: string,
    title: string,
    description: string,
    thumbnail: string,
    videoUrl: string,
    views: int,
    likes: seq<string>,
    dislikes: seq<string>,
    timestamp: int,
    category: string,
    duration: string)

  /** The category enumeration; `All` ("Tout") is both the "no filter" value and a real label. */
  datatype VideoCategory = All | Gaming | Music | Tech | Sports | Education | Comedy
  {
    function Label(): (s: string)
      ensures s == "Tout" <==> this == All
    {
      match this
      case All => "Tout"
      case Gaming => "Gaming"
      case Music => "Musique"
      case Tech => "Tech"
      case Sports => "Sports"
      case Education => "Éducation"
      case Comedy => "Humour"
    }
  }

  /** Each category has its own label, so the category filter selects one category. */
  lemma LabelInjective(c1: VideoCategory, c2: VideoCategory)
    ensures c1.Label() == c2.Label() ==> c1 == c2
  {
    var l1, l2 := c1.Label(), c2.Label();
    assert |l1| >= 4 && |l2| >= 4;
    if c1 != c2 {
      assert |l1| != |l2| || l1[0] != l2[0] || l1[1] != l2[1];
    }
  }

  /** The label of the "no filter" category. */
  const AllLabel: string := "Tout"

  /** The page being shown, with the identifier that page needs. */
  datatype ViewState =
    | Home
    | Watch(videoId: string)
    | Profile(userId: string)
    | UploadPage
    | LoginPage
    | Signup
    | Search(query: string)
    | DashboardPage
    | Monetization

  /** Feed mode: every video, or only those of subscribed uploaders. */
  datatype FeedMode = AllVideos | Subscriptions

  /** The two feed orders: newest first, or most viewed first. */
  datatype FeedSort = ByDate | ByViews

  /** The fields an upload form supplies (a partial video); absent and empty are both falsy. */
  datatype VideoDraft = VideoDraft(title: Option<string>, description: Option<string>, category: Option<string>)

  /** JavaScript's `s || fallback` on an optional string: undefined and "" both fall back. */
  function OrElse(s: Option<string>, fallback: string): (r: string)
    ensures s.Some? && s.value != "" ==> r == s.value
    ensures (s.None? || s.value == "") ==> r == fallback
  {
    if s.Some? && s.value != "" then s.value else fallback
  }
}
