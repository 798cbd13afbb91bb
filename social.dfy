/**
 * The social page: a feed of posts that can be liked and unliked, a row of
 * stories that can be viewed, and two tabs ('feed' and 'moods').
 */
module Social {
  datatype Story = Story(id: string, username: string, isViewed: bool)

  datatype Post = Post(id: string, username: string, caption: string, likes: int, comments: nat,
                       isLiked: bool, timeAgo: string, era: string)

  const InitialStories: seq<Story> := [
    Story("1", "swiftie_forever", false),
    Story("2", "taylor_era_13", true),
    Story("3", "folklore_vibes", false)
  ]

  /** The seed feed (captions shortened). */
  const InitialPosts: seq<Post> := [
    Post("1", "swiftie_forever", "Shaking off the bad vibes...", 1547, 89, false, "2 hours ago", "1989"),
    Post("2", "reputation_stan", "Look what you made me do...", 2341, 156, true, "4 hours ago", "Reputation"),
    Post("3", "folklore_vibes", "Cardigan weather is here...", 987, 67, false, "6 hours ago", "Folklore"),
    Post("4", "midnights_lover", "It's me, hi, I'm the problem...", 3456, 234, true, "8 hours ago", "Midnights")
  ]

  /** One post's like button: flip `isLiked`, and move `likes` one step the same way. */
  function ToggledPost(p: Post): (r: Post)
    ensures r.isLiked == !p.isLiked
    ensures r.likes - p.likes == (if r.isLiked then 1 else -1)
    ensures r.(isLiked := p.isLiked, likes := p.likes) == p
  {
    p.(isLiked := !p.isLiked, likes := if p.isLiked then p.likes - 1 else p.likes + 1)
  }

  /** `handleLike(postId)`: toggles the posts with that id; the others keep their place and value. */
  function ToggleLike(posts: seq<Post>, postId: string): (r: seq<Post>)
    ensures |r| == |posts|
    ensures forall i :: 0 <= i < |r| ==> r[i] == (if posts[i].id == postId then ToggledPost(posts[i]) else posts[i])
  {
    if posts == [] then []
    else [if posts[0].id == postId then ToggledPost(posts[0]) else posts[0]] + ToggleLike(posts[1..], postId)
  }

  /** Liking twice restores the feed. */
  lemma ToggleLikeTwice(posts: seq<Post>, postId: string)
    ensures ToggleLike(ToggleLike(posts, postId), postId) == posts
  {
    var r := ToggleLike(ToggleLike(posts, postId), postId);
    assert forall i :: 0 <= i < |r| ==> r[i] == posts[i];
  }

  /** A post's count is never negative, and a liked post counts its own like. */
  predicate CountsConsistent(posts: seq<Post>) {
    forall i :: 0 <= i < |posts| ==> posts[i].likes >= (if posts[i].isLiked then 1 else 0)
  }

  lemma InitialPostsConsistent()
    ensures CountsConsistent(InitialPosts)
  {
  }

  /** Toggling keeps every count consistent, so an unlike never drives a count below 0. */
  lemma {:induction false} ToggleLikeKeepsCounts(posts: seq<Post>, postId: string)
    requires CountsConsistent(posts)
    ensures CountsConsistent(ToggleLike(posts, postId))
  {
    var r := ToggleLike(posts, postId);
    forall i | 0 <= i < |r|
      ensures r[i].likes >= (if r[i].isLiked then 1 else 0)
    {
      if posts[i].id == postId {
        assert r[i] == ToggledPost(posts[i]);
      }
    }
  }

  /** `handleStoryView(storyId)`: marks the stories with that id viewed. */
  function ViewStory(stories: seq<Story>, storyId: string): (r: seq<Story>)
    ensures |r| == |stories|
    ensures forall i :: 0 <= i < |r| && stories[i].id == storyId ==> r[i] == stories[i].(isViewed := true)
    ensures forall i :: 0 <= i < |r| && stories[i].id != storyId ==> r[i] == stories[i]
  {
    if stories == [] then []
    else
      [if stories[0].id == storyId then stories[0].(isViewed := true) else stories[0]]
      + ViewStory(stories[1..], storyId)
  }

  /** Viewing a story twice is viewing it once. */
  lemma ViewStoryIdempotent(stories: seq<Story>, storyId: string)
    ensures ViewStory(ViewStory(stories, storyId), storyId) == ViewStory(stories, storyId)
  {
    var once := ViewStory(stories, storyId);
    var twice := ViewStory(once, storyId);
    assert forall i :: 0 <= i < |twice| ==> twice[i] == once[i];
  }

  /** No story is ever marked unviewed, and only the matching ones become viewed. */
  lemma ViewStoryMonotone(stories: seq<Story>, storyId: string)
    ensures var r := ViewStory(stories, storyId);
            forall i :: 0 <= i < |r| ==> (r[i].isViewed <==> stories[i].isViewed || stories[i].id == storyId)
  {
  }

  /** The page's state. */
  class SocialPage {
    var feedPosts: seq<Post>
    var feedStories: seq<Story>
    var activeTab: string

    ghost predicate Valid()
      reads this
    {
      (activeTab == "feed" || activeTab == "moods") && CountsConsistent(feedPosts)
    }

    constructor ()
      ensures Valid()
      ensures feedPosts == InitialPosts && feedStories == InitialStories && activeTab == "feed"
    {
      feedPosts := InitialPosts;
      feedStories := InitialStories;
      activeTab := "feed";
      InitialPostsConsistent();
    }

    method HandleLike(postId: string)
      requires Valid()
      modifies this
      ensures Valid()
      ensures feedPosts == ToggleLike(old(feedPosts), postId)
      ensures feedStories == old(feedStories) && activeTab == old(activeTab)
    {
      ToggleLikeKeepsCounts(feedPosts, postId);
      feedPosts := ToggleLike(feedPosts, postId);
    }

    method HandleStoryView(storyId: string)
      requires Valid()
      modifies this
      ensures Valid()
      ensures feedStories == ViewStory(old(feedStories), storyId)
      ensures feedPosts == old(feedPosts) && activeTab == old(activeTab)
    {
      feedStories := ViewStory(feedStories, storyId);
    }

    /** The 'SwiftFeed' tab button. */
    method ShowFeed()
      requires Valid()
      modifies this
      ensures Valid() && activeTab == "feed"
      ensures feedPosts == old(feedPosts) && feedStories == old(feedStories)
    {
      activeTab := "feed";
    }

    /** The 'Mood Boards' tab button. */
    method ShowMoods()
      requires Valid()
      modifies this
      ensures Valid() && activeTab == "moods"
      ensures feedPosts == old(feedPosts) && feedStories == old(feedStories)
    {
      activeTab := "moods";
    }
  }
}
