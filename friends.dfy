// The friends page (app/friends/page.tsx): the friends list with its rank
// arrows and score highlight, and the challenge list with its status filter.
module Friends {
  import opened Js
  import opened Theme

  datatype RecentScore = RecentScore(score: int, par: int, course: string)

  /** A friend; the handicap and average, decimals, are left out. */
  datatype Friend = Friend(id: string, name: string, recentScore: RecentScore, rankChange: int, lastPlayed: string)

  const Friends: seq<Friend> := [
    Friend("1", "Mike Johnson", RecentScore(72, 72, "DLF Championship"), 2, "2 days ago"),
    Friend("2", "Sarah Williams", RecentScore(75, 72, "DLF Valley"), -1, "3 days ago"),
    Friend("3", "John Smith", RecentScore(71, 72, "DLF Championship"), 1, "1 day ago")
  ]

  datatype Arrow = Up | Down

  /** The rank marker: nothing at 0, an up arrow for a gain and a down arrow for a loss. */
  function RankArrow(rankChange: int): (a: Option<Arrow>)
    ensures a == Some(Up) <==> rankChange > 0
    ensures a == Some(Down) <==> rankChange < 0
    ensures a == None <==> rankChange == 0
  {
    if rankChange != 0 then Some(if rankChange > 0 then Up else Down) else None
  }

  /** The last-round score: emerald at or under par, white over par. */
  function RecentScoreColour(s: RecentScore): (c: TextColour)
    ensures c == Emerald <==> s.score <= s.par
    ensures c == White <==> s.score > s.par
  {
    if s.score <= s.par then Emerald else White
  }

  // ---------------------------------------------------------------------------
  // Challenges

  datatype Status = Active | Upcoming | Completed

  function StatusName(s: Status): string {
    match s
    case Active => "active"
    case Upcoming => "upcoming"
    case Completed => "completed"
  }

  /** A challenge; reward, requirements and milestones are left out. */
  datatype Challenge = Challenge(id: string, title: string, status: Status, participants: int, deadline: string)

  const Challenges: seq<Challenge> := [
    Challenge("1", "Break 80 Challenge", Active, 24, "5 days left"),
    Challenge("2", "Summer Tournament", Upcoming, 32, "Starts in 2 weeks"),
    Challenge("3", "Putting Master", Active, 45, "10 days left")
  ]

  /** The filter buttons: 'all' or one status. */
  datatype ChallengeFilter = AllChallenges | Only(status: Status)

  function Keep(f: ChallengeFilter): Challenge -> bool {
    (c: Challenge) => f == AllChallenges || c.status == f.status
  }

  /** `filteredChallenges`. */
  function FilteredChallenges(challenges: seq<Challenge>, f: ChallengeFilter): seq<Challenge> {
    Filter(challenges, Keep(f))
  }

  lemma AllKeepsEverything(challenges: seq<Challenge>)
    ensures FilteredChallenges(challenges, AllChallenges) == challenges
  {
    FilterKeepsAll(challenges, Keep(AllChallenges));
  }

  /** A status filter lists exactly the challenges of that status, in their order. */
  lemma FilteredChallengesSpec(challenges: seq<Challenge>, s: Status, c: Challenge)
    ensures c in FilteredChallenges(challenges, Only(s)) <==> c in challenges && c.status == s
    ensures IsSubsequence(FilteredChallenges(challenges, Only(s)), challenges)
  {
    FilterMembers(challenges, Keep(Only(s)), c);
    FilterIsSubsequence(challenges, Keep(Only(s)));
  }

  /** Between them the three status filters list every challenge exactly once. */
  lemma StatusFiltersPartition(challenges: seq<Challenge>)
    ensures multiset(FilteredChallenges(challenges, Only(Active)))
      + multiset(FilteredChallenges(challenges, Only(Upcoming)))
      + multiset(FilteredChallenges(challenges, Only(Completed))) == multiset(challenges)
  {
    FiltersPartition(challenges, Keep(Only(Active)), Keep(Only(Upcoming)), Keep(Only(Completed)));
  }

  /** `s.charAt(0).toUpperCase() + s.slice(1)`. */
  function Capitalised(s: string): (r: string)
    ensures |r| == |s|
    ensures |s| > 0 ==> r[0] == UpperChar(s[0]) && r[1..] == s[1..]
  {
    if |s| > 0 then [UpperChar(s[0])] + s[1..] else ""
  }

  /** The button captions and the status badges. */
  lemma Captions()
    ensures Capitalised("all") == "All"
    ensures Capitalised(StatusName(Active)) == "Active"
    ensures Capitalised(StatusName(Upcoming)) == "Upcoming"
    ensures Capitalised(StatusName(Completed)) == "Completed"
  {
    assert "all"[1..] == "ll";
    assert "active"[1..] == "ctive";
    assert "upcoming"[1..] == "pcoming";
    assert "completed"[1..] == "ompleted";
  }

  datatype Tab = LeaderboardTab | ChatsTab | ChallengesTab

  /** The page's state: the tab and the challenge filter. */
  class FriendsPage {
    var activeTab: Tab
    var challengeFilter: ChallengeFilter

    constructor ()
      ensures activeTab == LeaderboardTab && challengeFilter == AllChallenges
    {
      activeTab := LeaderboardTab;
      challengeFilter := AllChallenges;
    }

    method SelectTab(t: Tab)
      modifies this
      ensures activeTab == t && challengeFilter == old(challengeFilter)
    {
      activeTab := t;
    }

    method SelectFilter(f: ChallengeFilter)
      modifies this
      ensures challengeFilter == f && activeTab == old(activeTab)
    {
      challengeFilter := f;
    }

    function Shown(): seq<Challenge>
      reads this
    {
      FilteredChallenges(Challenges, challengeFilter)
    }
  }
}
