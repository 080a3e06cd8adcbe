// A post card of the home feed (app/components/home/SocialFeedCard.tsx): the
// like, bookmark and read-more toggles, and the choice of picture and avatar.
module SocialFeedCard {
  import opened Js

  datatype PostType = AchievementPost | ScorePost | ChallengePost

  datatype ImageData = ImageData(url: string, width: int, height: int)

  /** The three stock pictures of each post type, in key order. */
  function DefaultImages(t: PostType): (images: seq<ImageData>)
    ensures |images| == 3
  {
    match t
    case AchievementPost => [
      ImageData("/images/achievements/trophy.jpg", 800, 600),
      ImageData("/images/achievements/celebration.jpg", 800, 600),
      ImageData("/images/achievements/sunset.jpg", 800, 600)]
    case ScorePost => [
      ImageData("/images/scores/course.jpg", 800, 600),
      ImageData("/images/scores/scorecard.jpg", 800, 600),
      ImageData("/images/scores/putting.jpg", 800, 600)]
    case ChallengePost => [
      ImageData("/images/challenges/action.jpg", 800, 600),
      ImageData("/images/challenges/bunker.jpg", 800, 600),
      ImageData("/images/challenges/approach.jpg", 800, 600)]
  }

  const DefaultAvatars: seq<ImageData> := [
    ImageData("/images/avatars/default-1.jpg", 200, 200),
    ImageData("/images/avatars/default-2.jpg", 200, 200),
    ImageData("/images/avatars/default-3.jpg", 200, 200)
  ]

  /** A string prop is truthy when it is given and not empty. */
  predicate Given(s: Option<string>) { s.Some? && s.value != "" }

  /**
   * `selectedImage`. `pick` stands for `Math.floor(Math.random() * 3)`.
   * A local path and an external URL are treated alike.
   */
  function SelectedImage(image: Option<string>, t: PostType, pick: nat): (r: ImageData)
    requires pick < 3
    ensures Given(image) ==> r == ImageData(image.value, 800, 600)
    ensures !Given(image) ==> r in DefaultImages(t)
  {
    if Given(image) && |image.value| > 0 && image.value[0] == '/' then ImageData(image.value, 800, 600)
    else if Given(image) then ImageData(image.value, 800, 600)
    else DefaultImages(t)[pick]
  }

  /** `selectedAvatar`, with `pick` standing for the random index into the three defaults. */
  function SelectedAvatar(avatar: Option<string>, pick: nat): (r: ImageData)
    requires pick < |DefaultAvatars|
    ensures Given(avatar) ==> r == ImageData(avatar.value, 200, 200)
    ensures !Given(avatar) ==> r in DefaultAvatars
  {
    if Given(avatar) && |avatar.value| > 0 && avatar.value[0] == '/' then ImageData(avatar.value, 200, 200)
    else if Given(avatar) then ImageData(avatar.value, 200, 200)
    else DefaultAvatars[pick]
  }

  /** Only a missing picture or avatar depends on the random pick. */
  lemma ChoiceIgnoresPickWhenGiven(image: Option<string>, t: PostType, p: nat, q: nat)
    requires p < 3 && q < 3
    ensures Given(image) ==> SelectedImage(image, t, p) == SelectedImage(image, t, q)
    ensures Given(image) ==> SelectedAvatar(image, p) == SelectedAvatar(image, q)
    ensures !Given(image) ==> SelectedImage(image, t, p).width == 800 && SelectedImage(image, t, p).height == 600
    ensures !Given(image) ==> SelectedAvatar(image, p).width == 200 && SelectedAvatar(image, p).height == 200
  {
  }

  /** The like flag and count of a card. */
  datatype Likes = Likes(liked: bool, count: int)

  /** One tap on the heart: the flag flips, the count rises when turning on and falls when turning off. */
  function Tapped(s: Likes): (r: Likes)
    ensures r.liked == !s.liked
    ensures r.count == s.count + (if r.liked then 1 else -1)
  {
    Likes(!s.liked, if s.liked then s.count - 1 else s.count + 1)
  }

  /** Two taps restore both the flag and the count. */
  lemma TappedTwice(s: Likes)
    ensures Tapped(Tapped(s)) == s
  {
  }

  /** The card's own state; `content` and the initial count are its props. */
  class Card {
    const content: string
    const initialLikes: int
    var isLiked: bool
    var likes: int
    var isBookmarked: bool
    var isExpanded: bool

    /** The shown count is the initial count plus one while the card is liked. */
    ghost predicate Valid()
      reads this
    {
      likes == initialLikes + (if isLiked then 1 else 0)
    }

    constructor (content: string, initialLikes: int)
      ensures Valid()
      ensures this.content == content && this.initialLikes == initialLikes
      ensures !isLiked && likes == initialLikes && !isBookmarked && !isExpanded
    {
      this.content := content;
      this.initialLikes := initialLikes;
      isLiked := false;
      likes := initialLikes;
      isBookmarked := false;
      isExpanded := false;
    }

    /** `handleLike`, state part: both updates read the flag as it was before the tap. */
    method HandleLike()
      requires Valid()
      modifies this
      ensures Valid()
      ensures Likes(isLiked, likes) == Tapped(old(Likes(isLiked, likes)))
      ensures isBookmarked == old(isBookmarked) && isExpanded == old(isExpanded)
    {
      var wasLiked := isLiked;
      isLiked := !wasLiked;
      likes := if wasLiked then likes - 1 else likes + 1;
    }

    method HandleBookmark()
      modifies this
      ensures isBookmarked == !old(isBookmarked)
      ensures isLiked == old(isLiked) && likes == old(likes) && isExpanded == old(isExpanded)
    {
      isBookmarked := !isBookmarked;
    }

    /** The read-more control is rendered only for content longer than 100 characters. */
    predicate ShowsReadMore()
      reads this
    {
      |content| > 100
    }

    method ToggleReadMore()
      requires ShowsReadMore()
      modifies this
      ensures isExpanded == !old(isExpanded)
      ensures isLiked == old(isLiked) && likes == old(likes) && isBookmarked == old(isBookmarked)
    {
      isExpanded := !isExpanded;
    }
  }
}
