// One row of the leaderboard card (app/components/leaderboard/LeaderboardCard.tsx):
// the rank movement marker and the avatar with its fallback initial.
module LeaderboardCard {
  import opened Js

  /** A player; handicap and average score, decimals, are left out. */
  datatype PlayerStats = PlayerStats(rank: int, previousRank: int, name: string, roundsPlayed: int, profileImage: Option<string>)

  datatype Marker = DownMarker | UpMarker | NoMarker

  /** The chevron under the rank: down when the previous rank was better (smaller), up when it was worse. */
  function Movement(p: PlayerStats): (m: Marker)
    ensures m == DownMarker <==> p.previousRank < p.rank
    ensures m == UpMarker <==> p.previousRank > p.rank
    ensures m == NoMarker <==> p.previousRank == p.rank
  {
    if p.previousRank < p.rank then DownMarker
    else if p.previousRank > p.rank then UpMarker
    else NoMarker
  }

  /** Swapping the two ranks turns an up marker into a down marker and back. */
  lemma MovementReverses(p: PlayerStats)
    ensures var q := p.(rank := p.previousRank, previousRank := p.rank);
      (Movement(p) == UpMarker <==> Movement(q) == DownMarker)
      && (Movement(p) == NoMarker <==> Movement(q) == NoMarker)
  {
  }

  datatype Avatar = Photo(url: string) | Initial(text: string)

  /** The profile picture when one is given and not empty, otherwise `name.charAt(0)`. */
  function AvatarOf(p: PlayerStats): (a: Avatar)
    ensures a.Photo? <==> p.profileImage.Some? && p.profileImage.value != ""
    ensures a.Photo? ==> a.url == p.profileImage.value
    ensures a.Initial? ==> a.text <= p.name && |a.text| == (if p.name == "" then 0 else 1)
  {
    if p.profileImage.Some? && p.profileImage.value != "" then Photo(p.profileImage.value)
    else Initial(CharAt0(p.name))
  }
}
