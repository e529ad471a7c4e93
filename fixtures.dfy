/**
 * The mock data the app starts from (constants.ts), with the clock reading `now` standing
 * for `Date.now()`, and concrete facts about the feed and store over it.
 */
module Fixtures {
  import opened Wrappers
  import opened Types
  import opened Seqs
  import opened Feed
  import opened Dashboard
  import opened Store

  const CurrentUserId: string := "user_1"

  function MockUsers(): seq<User>
  {
    [ User("user_1", "NeoUser", "user@neotube.com", "https://picsum.photos/id/64/200/200",
           Some("https://picsum.photos/id/180/1200/300"), [], ["user_2"], Some(true), Some(1250.45)),
      User("user_2", "TechMaster", "tech@master.com", "https://picsum.photos/id/2/200/200",
           Some("https://picsum.photos/id/20/1200/300"), ["user_1"], [], Some(true), Some(4500.00)),
      User("user_3", "GamerPro", "gamer@pro.com", "https://picsum.photos/id/3/200/200",
           Some("https://picsum.photos/id/45/1200/300"), [], [], Some(false), Some(0.0)) ]
  }

  function MockVideos(now: int): seq<Video>
  {
    [ Video("vid_1", "user_2", "Le Futur de la Technologie en 2025",
            "Découvrez les innovations incroyables qui nous attendent. IA, Quantique, et plus encore !",
            "https://picsum.photos/id/1/640/360", "BigBuckBunny.mp4",
            12543, ["user_1", "user_3"], [], now - 86400000, Tech.Label(), "10:34"),
      Video("vid_2", "user_3", "Gameplay Exclusif: Cyber Adventure",
            "On teste le nouveau jeu du moment en ultra settings.",
            "https://picsum.photos/id/96/640/360", "ElephantsDream.mp4",
            8420, [], [], now - 172800000, Gaming.Label(), "24:12"),
      Video("vid_3", "user_2", "Tutoriel React 18 pour débutants",
            "Apprenez React de zéro avec ce guide complet.",
            "https://picsum.photos/id/60/640/360", "ForBiggerBlazes.mp4",
            45002, ["user_1"], [], now - 604800000, Education.Label(), "45:00"),
      Video("vid_4", "user_1", "Vlog Voyage: Japon",
            "Une semaine à Tokyo, entre tradition et modernité.",
            "https://picsum.photos/id/122/640/360", "ForBiggerJoyrides.mp4",
            1200, [], [], now - 43200000, All.Label(), "12:20"),
      Video("vid_5", "user_3", "Les meilleurs buts de la saison",
            "Compilation incroyable de football.",
            "https://picsum.photos/id/160/640/360", "ForBiggerEscapes.mp4",
            99000, ["user_1", "user_2"], [], now - 200000, Sports.Label(), "08:45") ]
  }

  function MockComments(now: int): seq<Comment>
  {
    [ Comment("c_1", "vid_1", "user_1", "Super vidéo ! Très instructif.", now - 40000, 12),
      Comment("c_2", "vid_1", "user_3", "La qualité est dingue.", now - 20000, 5) ]
  }

  /** The signed-in user at start-up (`MOCK_USERS.find(u => u.id === CURRENT_USER_ID)`). */
  lemma InitialUserIsNeoUser()
    ensures FindById(MockUsers(), CurrentUserId) == Some(MockUsers()[0])
  {
    assert MockUsers()[0].id == CurrentUserId;
  }

  /** The root component's state at start-up: the fixture collections and the configured user. */
  method InitialStore(now: int) returns (s: Store)
    ensures fresh(s)
    ensures s.videos == MockVideos(now) && s.users == MockUsers() && s.comments == MockComments(now)
    ensures s.currentUser == Some(MockUsers()[0])
    ensures s.view == Home && s.selectedCategory == All && s.feedMode == AllVideos && s.feedSort == ByDate
  {
    s := new Store(MockVideos(now), MockUsers(), MockComments(now), CurrentUserId);
    InitialUserIsNeoUser();
  }

  /** `vid_1` is TechMaster's upload. */
  lemma FirstVideoIsTechMasters(now: int)
    ensures MockVideos(now)[0] in UploadedBy(MockVideos(now), "user_2")
    ensures MockVideos(now)[0].id == "vid_1"
  {
  }

  /** Both fixture comments are on `vid_1`. */
  lemma CommentsAreOnFirstVideo(now: int)
    ensures forall j :: 0 <= j < |MockComments(now)| ==> MockComments(now)[j].videoId == "vid_1"
  {
  }

  /** NeoUser's only upload is `vid_4`. */
  lemma NeoUserUploadsOnlyVid4(now: int)
    ensures UploadedBy(MockVideos(now), "user_1") == [MockVideos(now)[3]]
    ensures MockVideos(now)[3].id == "vid_4"
  {
    var vs := MockVideos(now);
    forall j | 0 <= j < |vs| && j != 3 ensures vs[j].uploaderId != "user_1" {
      if j == 0 { assert vs[0].uploaderId == "user_2"; }
      else if j == 1 { assert vs[1].uploaderId == "user_3"; }
      else if j == 2 { assert vs[2].uploaderId == "user_2"; }
      else { assert vs[4].uploaderId == "user_3"; }
    }
    FilterSingleMatch(vs, (v: Video) => v.uploaderId == "user_1", 3);
  }

  /** TechMaster's dashboard counts both fixture comments: they are on its `vid_1`. */
  lemma TechMasterCommentCount(now: int)
    ensures TotalComments(MockComments(now), UploadedBy(MockVideos(now), "user_2")) == 2
  {
    FirstVideoIsTechMasters(now);
    CommentsAreOnFirstVideo(now);
    AllCommentsOnOneVideo(MockComments(now), UploadedBy(MockVideos(now), "user_2"), MockVideos(now)[0]);
  }

  /** No fixture comment is on `vid_4`. */
  lemma NoCommentOnVid4(now: int)
    ensures TotalComments(MockComments(now), [MockVideos(now)[3]]) == 0
  {
    var v := MockVideos(now)[3];
    assert v.id == "vid_4";
    CommentsAreOnFirstVideo(now);
    NoCommentsOnVideos(MockComments(now), [v]);
  }

  /** NeoUser's dashboard counts no comment: its only upload, `vid_4`, has none. */
  lemma NeoUserCommentCount(now: int)
    ensures TotalComments(MockComments(now), UploadedBy(MockVideos(now), "user_1")) == 0
  {
    NeoUserUploadsOnlyVid4(now);
    NoCommentOnVid4(now);
  }

  /** The fixture's subscription records agree with the signed-in user's. */
  lemma InitialStateIsMutual()
    ensures Mutual(MockUsers()[0], MockUsers())
  {
    var us := MockUsers();
    assert us[1].id == "user_2" && us[2].id == "user_3";
  }

  /** The derived feed (`filteredVideos`) for category "Sports", all videos, sorted by views, is exactly `[vid_5]`. */
  lemma SportsByViewsShowsOneVideo(now: int, currentUser: Option<User>)
    ensures FilteredVideos(MockVideos(now), Home, Sports, AllVideos, ByViews, currentUser) == [MockVideos(now)[4]]
  {
    var vs := MockVideos(now);
    LabelInjective(Tech, Sports);
    LabelInjective(Gaming, Sports);
    LabelInjective(Education, Sports);
    LabelInjective(All, Sports);
    forall j | 0 <= j < |vs| && j != 4 ensures vs[j].category != Sports.Label() {
      if j == 0 { assert vs[0].category == Tech.Label(); }
      else if j == 1 { assert vs[1].category == Gaming.Label(); }
      else if j == 2 { assert vs[2].category == Education.Label(); }
      else { assert vs[3].category == All.Label(); }
    }
    CategoryOfOneVideo(vs, Home, Sports, ByViews, currentUser, 4);
  }

  /** The home page features the most-viewed fixture video. */
  lemma FeaturedFixtureIsFootball(now: int)
    ensures Featured(MockVideos(now)).id == "vid_5"
  {
    var vs := MockVideos(now);
    var k := FeaturedIndex(vs);
    assert vs[k].views >= vs[4].views;
  }
}
