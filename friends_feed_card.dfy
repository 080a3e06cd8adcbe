// The friends' activity card on the home screen
// (app/components/home/FriendsFeedCard.tsx): which content blocks an item
// shows, the like toggle and the like count it displays.
module FriendsFeedCard {
  import opened Js
  import opened LikeSet

  datatype ItemKind = ScoreItem | AchievementItem | PhotoItem | MilestoneItem

  datatype Achievement = Achievement(title: string, icon: string)

  /** One feed item; absent optional properties are `None`. */
  datatype FeedItem = FeedItem(
    id: string,
    kind: ItemKind,
    text: string,
    image: Option<string>,
    score: Option<int>,
    course: Option<string>,
    achievement: Option<Achievement>,
    likes: int,
    comments: int)

  /** `item.type === 'score' && item.content.score`: a score of 0 is falsy and shows nothing. */
  predicate ShowsScoreCard(item: FeedItem) {
    item.kind == ScoreItem && item.score.Some? && item.score.value != 0
  }

  /** `item.type === 'achievement' && item.content.achievement`. */
  predicate ShowsAchievementCard(item: FeedItem) {
    item.kind == AchievementItem && item.achievement.Some?
  }

  /** `item.type === 'photo' && item.content.image`: an empty URL is falsy. */
  predicate ShowsPhoto(item: FeedItem) {
    item.kind == PhotoItem && item.image.Some? && item.image.value != ""
  }

  /** An item shows at most one of the three content blocks, and a milestone shows none. */
  lemma AtMostOneBlock(item: FeedItem)
    ensures !(ShowsScoreCard(item) && ShowsPhoto(item))
    ensures !(ShowsScoreCard(item) && ShowsAchievementCard(item))
    ensures !(ShowsPhoto(item) && ShowsAchievementCard(item))
    ensures item.kind == MilestoneItem ==> !ShowsScoreCard(item) && !ShowsPhoto(item) && !ShowsAchievementCard(item)
  {
  }

  /** `item.likes + (likedItems.has(item.id) ? 1 : 0)`. */
  function DisplayedLikes(likes: int, liked: bool): (n: int)
    ensures liked ==> n == likes + 1
    ensures !liked ==> n == likes
  {
    likes + (if liked then 1 else 0)
  }

  /** A tap on an item's heart moves its displayed count by exactly one, and back on a second tap. */
  lemma TapMovesCountByOne(liked: set<string>, item: FeedItem)
    ensures var after := Toggled(liked, item.id);
      && DisplayedLikes(item.likes, item.id in after)
        == DisplayedLikes(item.likes, item.id in liked) + (if item.id in liked then -1 else 1)
      && DisplayedLikes(item.likes, item.id in Toggled(after, item.id)) == DisplayedLikes(item.likes, item.id in liked)
      && item.likes <= DisplayedLikes(item.likes, item.id in after) <= item.likes + 1
  {
    ToggleTwice(liked, item.id);
  }

  /** The card's state: the liked ids. */
  class FeedCard {
    var likedItems: StringSet

    constructor ()
      ensures likedItems.elems == {}
    {
      likedItems := new StringSet.Empty();
    }

    function IsLiked(id: string): bool
      reads this, likedItems
    {
      likedItems.Has(id)
    }

    /** `handleLike(id)`: the state becomes a toggled copy of the previous set. */
    method HandleLike(id: string)
      modifies this
      ensures fresh(likedItems)
      ensures likedItems.elems == Toggled(old(likedItems.elems), id)
      ensures old(likedItems).elems == old(likedItems.elems)
    {
      likedItems := ToggledCopy(likedItems, id);
    }
  }
}
