// The recent-rounds chart of the statistics panel
// (app/components/stats/StatsOverview.tsx): each round's colour and text
// relative to par, and the highest and lowest score the chart is scaled by.
module StatsOverview {
  import opened Js
  import opened Theme

  datatype RoundData = RoundData(date: string, score: int, par: int, course: string)

  const RecentRounds: seq<RoundData> := [
    RoundData("Mar 15", 72, 72, "DLF Championship"),
    RoundData("Mar 12", 75, 72, "DLF Valley"),
    RoundData("Mar 8", 71, 72, "DLF Championship"),
    RoundData("Mar 5", 73, 72, "DLF Links"),
    RoundData("Mar 1", 70, 72, "DLF Championship")
  ]

  /** `getScoreColor`: emerald under par, white at par, red over par. */
  function ScoreColour(score: int, par: int): (c: TextColour)
    ensures c == Emerald <==> score < par
    ensures c == White <==> score == par
    ensures c == Red <==> score > par
  {
    var diff := score - par;
    if diff < 0 then Emerald
    else if diff == 0 then White
    else Red
  }

  /**
   * `getScoreLabel` as rendered: 'E' at par, `+${diff}` over par, and the
   * negative number itself (shown with its '-') under par.
   */
  function ScoreLabel(score: int, par: int): (text: string)
    ensures text == "E" <==> score == par
    ensures score != par ==> ParseInt(text) == Int(score - par)
    ensures |text| > 0 && (text[0] == '+' <==> score > par) && (text[0] == '-' <==> score < par)
  {
    VsParLabelFaithful(score - par, 0);
    VsParLabel(score - par)
  }

  /** Two rounds get the same text exactly when they are the same distance from par. */
  lemma ScoreLabelInjective(a: RoundData, b: RoundData)
    ensures ScoreLabel(a.score, a.par) == ScoreLabel(b.score, b.par) <==> a.score - a.par == b.score - b.par
  {
    VsParLabelFaithful(a.score - a.par, b.score - b.par);
  }

  /** `recentRounds.map(round => round.score)`. */
  function Scores(rounds: seq<RoundData>): (s: seq<int>)
    ensures |s| == |rounds| && forall i | 0 <= i < |rounds| :: s[i] == rounds[i].score
  {
    seq(|rounds|, i requires 0 <= i < |rounds| => rounds[i].score)
  }

  /** `Math.max(...s)` over a non-empty list: an element at least every element. */
  function MaxScore(s: seq<int>): (m: int)
    requires |s| > 0
    ensures m in s && forall i | 0 <= i < |s| :: s[i] <= m
  {
    if |s| == 1 then s[0]
    else
      var rest := MaxScore(s[1..]);
      assert forall i | 1 <= i < |s| :: s[i] == s[1..][i - 1];
      if s[0] >= rest then s[0] else rest
  }

  /** `Math.min(...s)` over a non-empty list: an element at most every element. */
  function MinScore(s: seq<int>): (m: int)
    requires |s| > 0
    ensures m in s && forall i | 0 <= i < |s| :: m <= s[i]
  {
    if |s| == 1 then s[0]
    else
      var rest := MinScore(s[1..]);
      assert forall i | 1 <= i < |s| :: s[i] == s[1..][i - 1];
      if s[0] <= rest then s[0] else rest
  }

  /** `scoreRange`. */
  function ScoreRange(s: seq<int>): (r: int)
    requires |s| > 0
    ensures r >= 0
    ensures forall i, j | 0 <= i < |s| && 0 <= j < |s| :: s[i] - s[j] <= r
    ensures exists i, j | 0 <= i < |s| && 0 <= j < |s| :: s[i] - s[j] == r
  {
    var hi, lo := MaxScore(s), MinScore(s);
    assert exists i | 0 <= i < |s| :: s[i] == hi;
    assert exists j | 0 <= j < |s| :: s[j] == lo;
    hi - lo
  }

  /** Over the five recent rounds the chart spans 70 to 75. */
  lemma RecentRange()
    ensures MaxScore(Scores(RecentRounds)) == 75
    ensures MinScore(Scores(RecentRounds)) == 70
    ensures ScoreRange(Scores(RecentRounds)) == 5
  {
    RecentScores();
    FiveExtremes([72, 75, 71, 73, 70]);
  }

  lemma RecentScores()
    ensures Scores(RecentRounds) == [72, 75, 71, 73, 70]
  {
  }

  lemma FiveExtremes(s: seq<int>)
    requires s == [72, 75, 71, 73, 70]
    ensures MaxScore(s) == 75 && MinScore(s) == 70
  {
    var hi, lo := MaxScore(s), MinScore(s);
    assert hi >= s[1] && lo <= s[4];
    assert hi in s && lo in s;
  }
}
