// The club feed (app/components/feed/ClubFeed.tsx): the list of posts with
// their like flags and counts, the score highlight, and the composer sheet.
module ClubFeed {
  import opened Js
  import opened Theme

  datatype PostKind = ScorePost | PhotoPost | MessagePost

  datatype PostScore = PostScore(value: int, par: int, course: string)

  datatype FeedPost = FeedPost(
    id: string,
    kind: PostKind,
    author: string,
    content: string,
    images: seq<string>,
    score: Option<PostScore>,
    likes: int,
    comments: int,
    timestamp: string,
    isLiked: bool)

  /** The sample posts; post 1 ends in its emoji exactly as the source file's text stores it, mis-encoded, one character at a time. */
  const SamplePosts: seq<FeedPost> := [
    FeedPost("1", ScorePost, "John Smith", "Just finished a great round! \U{f8ff}\U{fc}\U{e8}\U{e5}\U{d4}\U{220f}\U{e8}\U{201a}\U{c4}\U{e7}\U{201a}\U{f4}\U{c7}\U{d4}\U{220f}\U{e8}", [],
             Some(PostScore(72, 72, "DLF Championship Course")), 24, 8, "2 hours ago", false),
    FeedPost("2", PhotoPost, "Sarah Williams", "Perfect morning for golf! The course is looking amazing today.",
             ["https://images.unsplash.com/photo-1587174486073-ae5e5cff23aa",
              "https://images.unsplash.com/photo-1535131749006-b7f58c99034b"],
             None, 45, 12, "4 hours ago", true),
    FeedPost("3", MessagePost, "Club Admin",
             "The weekend tournament schedule has been updated. Check the events section for more details!",
             [], None, 18, 5, "6 hours ago", false)
  ]

  /** One post after a tap on its heart: the flag flips and the count follows it. */
  function LikedPost(p: FeedPost): (q: FeedPost)
    ensures q.isLiked == !p.isLiked
    ensures q.likes == (if p.isLiked then p.likes - 1 else p.likes + 1)
    ensures q == p.(isLiked := q.isLiked, likes := q.likes)
  {
    p.(isLiked := !p.isLiked, likes := if p.isLiked then p.likes - 1 else p.likes + 1)
  }

  /** `posts.map(post => post.id === postId ? liked(post) : post)`. */
  function Liked(posts: seq<FeedPost>, postId: string): (r: seq<FeedPost>)
    ensures |r| == |posts|
    ensures forall i | 0 <= i < |posts| :: r[i] == (if posts[i].id == postId then LikedPost(posts[i]) else posts[i])
  {
    seq(|posts|, i requires 0 <= i < |posts| => if posts[i].id == postId then LikedPost(posts[i]) else posts[i])
  }

  /** Liking a post twice gives back every post as it was. */
  lemma LikeTwice(posts: seq<FeedPost>, postId: string)
    ensures Liked(Liked(posts, postId), postId) == posts
  {
    var twice := Liked(Liked(posts, postId), postId);
    forall i | 0 <= i < |posts| ensures twice[i] == posts[i] {
      if posts[i].id == postId {
        assert LikedPost(LikedPost(posts[i])) == posts[i];
      }
    }
  }

  /** Like counts and flags move together: a liked post's count is one more than its unliked self. */
  lemma LikeKeepsTally(posts: seq<FeedPost>, postId: string)
    ensures var r := Liked(posts, postId);
      forall i | 0 <= i < |posts| ::
        (r[i].likes - (if r[i].isLiked then 1 else 0)) == (posts[i].likes - (if posts[i].isLiked then 1 else 0))
  {
  }

  /**
   * The colour of the number on a post's score card: the card shows only on
   * a score post that carries a score, and the number is emerald exactly
   * when it is at most par, white otherwise.
   */
  function ScoreCardColour(p: FeedPost): (c: Option<TextColour>)
    ensures c.Some? <==> p.kind == ScorePost && p.score.Some?
    ensures c == Some(Emerald) <==> p.kind == ScorePost && p.score.Some? && p.score.value.value <= p.score.value.par
    ensures c == Some(White) <==> p.kind == ScorePost && p.score.Some? && p.score.value.value > p.score.value.par
  {
    if p.kind == ScorePost && p.score.Some? then
      Some(if p.score.value.value <= p.score.value.par then Emerald else White)
    else None
  }

  /** The feed's state. */
  class Feed {
    var posts: seq<FeedPost>
    var showPostModal: bool
    var postType: PostKind

    constructor ()
      ensures posts == SamplePosts && !showPostModal && postType == MessagePost
    {
      posts := SamplePosts;
      showPostModal := false;
      postType := MessagePost;
    }

    /** `handleLike(postId)`. */
    method HandleLike(postId: string)
      modifies this
      ensures posts == Liked(old(posts), postId)
      ensures showPostModal == old(showPostModal) && postType == old(postType)
    {
      posts := Liked(posts, postId);
    }

    /** The three composer buttons: choose the kind of post and open the sheet. */
    method OpenComposer(kind: PostKind)
      modifies this
      ensures showPostModal && postType == kind && posts == old(posts)
    {
      postType := kind;
      showPostModal := true;
    }

    /** The backdrop and the close button. */
    method CloseComposer()
      modifies this
      ensures !showPostModal && postType == old(postType) && posts == old(posts)
    {
      showPostModal := false;
    }
  }
}
