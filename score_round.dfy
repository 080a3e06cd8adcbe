// The hole-by-hole scoring screen of a round (app/play/score/page.tsx): the
// user's per-hole records, the simulated friends, the round summary and the
// live leaderboard.
module ScoreRound {
  import opened Js
  import opened Theme

  datatype Hole = Hole(number: int, par: int, distance: int, handicap: int)

  /** The nine holes of the course, in playing order. */
  const Holes: seq<Hole> := [
    Hole(1, 4, 420, 7), Hole(2, 5, 540, 1), Hole(3, 3, 180, 15),
    Hole(4, 4, 410, 5), Hole(5, 4, 380, 11), Hole(6, 5, 520, 3),
    Hole(7, 3, 170, 17), Hole(8, 4, 430, 9), Hole(9, 4, 400, 13)
  ]

  function Par(number: int): int
    requires 1 <= number <= |Holes|
  {
    Holes[number - 1].par
  }

  /**
   * The user's record of one hole. Every property may be absent: an entry
   * created by an edit on a hole with no record holds only what that edit
   * wrote. `fairwayHit` is `null` (None) for "not applicable".
   */
  datatype Score = Score(
    strokes: Field<Number>,
    putts: Field<Number>,
    fairwayHit: Field<Option<bool>>,
    gir: Field<bool>,
    notes: Field<string>)

  /** The record shown for a hole with no entry. */
  const DefaultScore := Score(Present(Int(0)), Present(Int(0)), Present(None), Present(false), Present(""))

  /** What `...undefined` spreads: nothing. */
  const NoFields := Score(Missing, Missing, Missing, Missing, Missing)

  const MockScores: map<int, Score> := map[
    1 := Score(Present(Int(4)), Present(Int(2)), Present(Some(true)), Present(true),
               Present("Good drive, approach to 15 feet, two-putt par")),
    2 := Score(Present(Int(5)), Present(Int(2)), Present(Some(false)), Present(false),
               Present("Drive in rough, layup, wedge and two-putt")),
    3 := Score(Present(Int(3)), Present(Int(1)), Present(None), Present(true),
               Present("Perfect 7-iron to 10 feet, made the birdie putt!"))
  ]

  /** A leaderboard entry; also the shape of each simulated friend. */
  datatype PlayerScore = PlayerScore(
    id: string,
    name: string,
    currentHole: int,
    totalScore: int,
    scores: seq<int>,
    vsParTotal: int,
    thruHole: int)

  const ZeroCard: seq<int> := seq(|Holes|, _ => 0)

  const DummyFriends: seq<PlayerScore> := [
    PlayerScore("1", "Mike Johnson", 1, 0, ZeroCard, 0, 0),
    PlayerScore("2", "Sarah Williams", 1, 0, ZeroCard, 0, 0),
    PlayerScore("3", "John Smith", 1, 0, ZeroCard, 0, 0)
  ]

  /** Every key of the score map is a hole number (the score page only ever writes the current hole). */
  predicate KeysAreHoles(scores: map<int, Score>) {
    forall k | k in scores :: 1 <= k <= |Holes|
  }

  /** The record the screen shows and edits for hole `h`. */
  function Current(scores: map<int, Score>, h: int): Score {
    if h in scores then scores[h] else DefaultScore
  }

  function Min(a: int, b: int): int { if a <= b then a else b }
  function Max(a: int, b: int): int { if a >= b then a else b }

  // ---------------------------------------------------------------------------
  // Round summary (the stats panel)

  /** The two numeric properties the stats panel adds up. */
  datatype Stat = Strokes | Putts

  function Pick(s: Score, stat: Stat): Field<Number> {
    match stat
    case Strokes => s.strokes
    case Putts => s.putts
  }

  /** `Object.values(scores).reduce((sum, s) => sum + s[stat], 0)` over holes 1..n in key order. */
  function NumberTotal(scores: map<int, Score>, n: nat, stat: Stat): Number
  {
    if n == 0 then Int(0)
    else Add(NumberTotal(scores, n - 1, stat), if n in scores then Read(Pick(scores[n], stat)) else Int(0))
  }

  function TotalScore(scores: map<int, Score>): Number {
    NumberTotal(scores, |Holes|, Strokes)
  }

  function TotalPutts(scores: map<int, Score>): Number {
    NumberTotal(scores, |Holes|, Putts)
  }

  /** `score.strokes - hole.par` for the entry of hole k. */
  function StrokesOverPar(s: Score, k: int): Number
    requires 1 <= k <= |Holes|
  {
    Add(Read(s.strokes), Int(-Par(k)))
  }

  function VsParThrough(scores: map<int, Score>, n: nat): Number
    requires n <= |Holes|
  {
    if n == 0 then Int(0)
    else Add(VsParThrough(scores, n - 1), if n in scores then StrokesOverPar(scores[n], n) else Int(0))
  }

  function VsParTotal(scores: map<int, Score>): Number {
    VsParThrough(scores, |Holes|)
  }

  /** The two yes/no properties the stats panel counts. */
  datatype Tally = Fairways | Greens

  /** `s.fairwayHit` and `s.gir` as the filters test them (truthiness). */
  predicate Counts(s: Score, tally: Tally) {
    match tally
    case Fairways => s.fairwayHit == Present(Some(true))
    case Greens => s.gir == Present(true)
  }

  /** How many of holes 1..n have an entry that counts. */
  function CountEntries(scores: map<int, Score>, n: nat, tally: Tally): nat
  {
    if n == 0 then 0
    else CountEntries(scores, n - 1, tally) + (if n in scores && Counts(scores[n], tally) then 1 else 0)
  }

  function FairwaysHit(scores: map<int, Score>): nat {
    CountEntries(scores, |Holes|, Fairways)
  }

  function GreensInReg(scores: map<int, Score>): nat {
    CountEntries(scores, |Holes|, Greens)
  }

  /** `scores[k]?.strokes || 0`: the stroke count the leaderboard shows for hole k. */
  function StrokesAt(scores: map<int, Score>, k: int): int {
    if k in scores then OrZero(scores[k].strokes) else 0
  }

  /** The stroke count of every recorded hole is a number. */
  predicate StrokesRecorded(scores: map<int, Score>, n: nat) {
    forall k | 1 <= k <= n && k in scores :: Read(scores[k].strokes).Int?
  }

  /** Σ par over the recorded holes among 1..n. */
  function RecordedPar(scores: map<int, Score>, n: nat): int
    requires n <= |Holes|
  {
    if n == 0 then 0 else RecordedPar(scores, n - 1) + (if n in scores then Par(n) else 0)
  }

  lemma StrokesRecordedStep(scores: map<int, Score>, n: nat)
    requires n > 0
    ensures StrokesRecorded(scores, n) <==>
      StrokesRecorded(scores, n - 1) && (n in scores ==> Read(scores[n].strokes).Int?)
  {
    if StrokesRecorded(scores, n - 1) && (n in scores ==> Read(scores[n].strokes).Int?) {
      forall k | 1 <= k <= n && k in scores ensures Read(scores[k].strokes).Int? {
        if k < n {
          assert 1 <= k <= n - 1;
        }
      }
    }
  }

  /** The term hole n adds to the stroke total, when it is a number, is what the leaderboard shows. */
  lemma StrokesTerm(scores: map<int, Score>, n: nat)
    requires n in scores && Read(scores[n].strokes).Int?
    ensures Read(scores[n].strokes) == Int(StrokesAt(scores, n))
  {
  }

  lemma CardSumStep(scores: map<int, Score>, n: nat)
    requires n > 0
    ensures Sum(PersonalCard(scores, n)) == Sum(PersonalCard(scores, n - 1)) + StrokesAt(scores, n)
  {
    var card := PersonalCard(scores, n);
    assert card[..n - 1] == PersonalCard(scores, n - 1);
  }

  /**
   * The stats panel's total is NaN exactly when some recorded hole has no
   * numeric stroke count; otherwise it is the sum the leaderboard row of the
   * user shows over the same holes.
   */
  lemma {:induction false} TotalScoreIsSum(scores: map<int, Score>, n: nat)
    requires n <= |Holes|
    ensures NumberTotal(scores, n, Strokes).Int? <==> StrokesRecorded(scores, n)
    ensures StrokesRecorded(scores, n) ==>
      NumberTotal(scores, n, Strokes) == Int(Sum(PersonalCard(scores, n)))
  {
    if n > 0 {
      TotalScoreIsSum(scores, n - 1);
      StrokesRecordedStep(scores, n);
      CardSumStep(scores, n);
      if n in scores && Read(scores[n].strokes).Int? {
        StrokesTerm(scores, n);
      }
    }
  }

  /** The summary's vs-par figure is the total strokes less the par of the recorded holes. */
  lemma {:induction false} VsParIsTotalLessPar(scores: map<int, Score>, n: nat)
    requires n <= |Holes|
    ensures VsParThrough(scores, n).Int? <==> StrokesRecorded(scores, n)
    ensures StrokesRecorded(scores, n) ==>
      VsParThrough(scores, n) == Int(Sum(PersonalCard(scores, n)) - RecordedPar(scores, n))
  {
    if n > 0 {
      VsParIsTotalLessPar(scores, n - 1);
      StrokesRecordedStep(scores, n);
      CardSumStep(scores, n);
      if n in scores && Read(scores[n].strokes).Int? {
        StrokesTerm(scores, n);
      }
    }
  }

  /** The number of recorded holes among 1..n. */
  function Recorded(scores: map<int, Score>, n: nat): nat {
    if n == 0 then 0 else Recorded(scores, n - 1) + (if n in scores then 1 else 0)
  }

  lemma {:induction false} RecordedIsKeyCount(scores: map<int, Score>, n: nat)
    ensures Recorded(scores, n) == |set k | k in scores && 1 <= k <= n|
  {
    var upto := set k | k in scores && 1 <= k <= n;
    if n == 0 {
      assert upto == {};
    } else {
      RecordedIsKeyCount(scores, n - 1);
      var below := set k | k in scores && 1 <= k <= n - 1;
      if n in scores {
        assert upto == below + {n};
      } else {
        assert upto == below;
      }
    }
  }

  lemma {:induction false} CountBelowRecorded(scores: map<int, Score>, n: nat, tally: Tally)
    ensures CountEntries(scores, n, tally) <= Recorded(scores, n)
  {
    if n > 0 {
      CountBelowRecorded(scores, n - 1, tally);
    }
  }

  /**
   * The panel shows "fairwaysHit/Object.keys(scores).length" and likewise for
   * greens: each count is at most the number of entries.
   */
  lemma SummaryCountsBounded(scores: map<int, Score>)
    requires KeysAreHoles(scores)
    ensures FairwaysHit(scores) <= |scores.Keys|
    ensures GreensInReg(scores) <= |scores.Keys|
  {
    RecordedIsKeyCount(scores, |Holes|);
    assert (set k | k in scores && 1 <= k <= |Holes|) == scores.Keys;
    CountBelowRecorded(scores, |Holes|, Fairways);
    CountBelowRecorded(scores, |Holes|, Greens);
  }

  /** A tally over holes 1..n counts exactly the entries among them that it tallies. */
  lemma {:induction false} CountEntriesIsKeyCount(scores: map<int, Score>, n: nat, tally: Tally)
    ensures CountEntries(scores, n, tally) == |set k | k in scores && 1 <= k <= n && Counts(scores[k], tally)|
  {
    var upto := set k | k in scores && 1 <= k <= n && Counts(scores[k], tally);
    if n == 0 {
      assert upto == {};
    } else {
      CountEntriesIsKeyCount(scores, n - 1, tally);
      var below := set k | k in scores && 1 <= k <= n - 1 && Counts(scores[k], tally);
      if n in scores && Counts(scores[n], tally) {
        assert upto == below + {n};
      } else {
        assert upto == below;
      }
    }
  }

  /**
   * When every entry is a hole of the course, `fairwaysHit` is the number of
   * entries whose fairway was hit and `greensInReg` the number of entries
   * marked GIR.
   */
  lemma SummaryCountsExact(scores: map<int, Score>)
    requires KeysAreHoles(scores)
    ensures FairwaysHit(scores) == |set k | k in scores && scores[k].fairwayHit == Present(Some(true))|
    ensures GreensInReg(scores) == |set k | k in scores && scores[k].gir == Present(true)|
  {
    CountEntriesIsKeyCount(scores, |Holes|, Fairways);
    CountEntriesIsKeyCount(scores, |Holes|, Greens);
    assert (set k | k in scores && 1 <= k <= |Holes| && Counts(scores[k], Fairways))
      == (set k | k in scores && scores[k].fairwayHit == Present(Some(true)));
    assert (set k | k in scores && 1 <= k <= |Holes| && Counts(scores[k], Greens))
      == (set k | k in scores && scores[k].gir == Present(true));
  }

  // ---------------------------------------------------------------------------
  // Leaderboard

  /** `holes.slice(0, h).map((_, i) => scores[i + 1]?.strokes || 0)`. */
  function PersonalCard(scores: map<int, Score>, h: nat): (card: seq<int>)
    ensures |card| == h
    ensures forall i | 0 <= i < h :: card[i] == StrokesAt(scores, i + 1)
  {
    seq(h, i requires 0 <= i < h => StrokesAt(scores, i + 1))
  }

  lemma PersonalCardStep(scores: map<int, Score>, n: nat)
    requires n > 0
    ensures PersonalCard(scores, n) == PersonalCard(scores, n - 1) + [StrokesAt(scores, n)]
  {
  }

  /** `s.slice(0, n)` for 0 <= n. */
  function Prefix(s: seq<int>, n: nat): (r: seq<int>)
    ensures |r| == Min(n, |s|) && r == s[..|r|]
  {
    if n <= |s| then s[..n] else s
  }

  /** `s.reduce((total, x, idx) => total + ((x || 0) - holes[idx].par), 0)`. */
  function VsParOf(s: seq<int>): int
    requires |s| <= |Holes|
  {
    if s == [] then 0 else VsParOf(s[..|s| - 1]) + (s[|s| - 1] - Holes[|s| - 1].par)
  }

  /** Σ par of the first n holes. */
  function ParThrough(n: nat): int
    requires n <= |Holes|
  {
    if n == 0 then 0 else ParThrough(n - 1) + Holes[n - 1].par
  }

  /** A row's vs-par is its total less the par of as many holes as it has slots (an empty slot counts -par). */
  lemma {:induction false} VsParOfIsSumLessPar(s: seq<int>)
    requires |s| <= |Holes|
    ensures VsParOf(s) == Sum(s) - ParThrough(|s|)
  {
    if s != [] {
      VsParOfIsSumLessPar(s[..|s| - 1]);
    }
  }

  /** The leaderboard form of a player: cut to the first h slots, totals recomputed. */
  function Row(p: PlayerScore, h: nat): (r: PlayerScore)
    requires h <= |Holes|
    ensures r.scores == Prefix(p.scores, h)
    ensures r.totalScore == Sum(r.scores)
    ensures r.vsParTotal == Sum(r.scores) - ParThrough(|r.scores|)
    ensures r.id == p.id && r.name == p.name && r.currentHole == p.currentHole && r.thruHole == p.thruHole
  {
    var cut := Prefix(p.scores, h);
    VsParOfIsSumLessPar(cut);
    p.(scores := cut, totalScore := Sum(cut), vsParTotal := VsParOf(cut))
  }

  /**
   * The user's entry. Its own totals (lines 154-165) are replaced by the
   * row computation before anything reads them, so they are stated here as
   * the sum of its card.
   */
  function Personal(scores: map<int, Score>, h: nat): (p: PlayerScore)
    requires h <= |Holes|
    ensures |p.scores| == h && p.name == "You"
  {
    var card := PersonalCard(scores, h);
    PlayerScore("me", "You", h, Sum(card), card, VsParOf(card), h - 1)
  }

  /** The comparator's key: the sum of a row's slots. */
  function Key(p: PlayerScore): int { Sum(p.scores) }

  predicate SortedByKey(s: seq<PlayerScore>) {
    forall i, j | 0 <= i < j < |s| :: Key(s[i]) <= Key(s[j])
  }

  /** Place x before the first element whose key is not smaller. */
  function Insert(x: PlayerScore, t: seq<PlayerScore>): seq<PlayerScore>
  {
    if t == [] || Key(x) <= Key(t[0]) then [x] + t else [t[0]] + Insert(x, t[1..])
  }

  /** `Array.prototype.sort` with the comparator `(a, b) => Key(a) - Key(b)`: a stable sort. */
  function SortByKey(s: seq<PlayerScore>): seq<PlayerScore>
  {
    if s == [] then [] else Insert(s[0], SortByKey(s[1..]))
  }

  /** The rows of a sequence whose key is k, in order. */
  function HasKey(k: int): PlayerScore -> bool {
    (p: PlayerScore) => Key(p) == k
  }

  function WithKey(s: seq<PlayerScore>, k: int): seq<PlayerScore> {
    Filter(s, HasKey(k))
  }

  predicate AllAtLeast(s: seq<PlayerScore>, b: int) {
    forall i | 0 <= i < |s| :: b <= Key(s[i])
  }

  lemma {:induction false} InsertAtLeast(x: PlayerScore, t: seq<PlayerScore>, b: int)
    requires b <= Key(x) && AllAtLeast(t, b)
    ensures AllAtLeast(Insert(x, t), b)
  {
    if t != [] && Key(x) > Key(t[0]) {
      InsertAtLeast(x, t[1..], b);
      var r := Insert(x, t[1..]);
      assert forall i | 1 <= i < |[t[0]] + r| :: ([t[0]] + r)[i] == r[i - 1];
    }
  }

  lemma {:induction false} InsertSorted(x: PlayerScore, t: seq<PlayerScore>)
    requires SortedByKey(t)
    ensures SortedByKey(Insert(x, t))
  {
    if t == [] || Key(x) <= Key(t[0]) {
      var r := [x] + t;
      forall i, j | 0 <= i < j < |r| ensures Key(r[i]) <= Key(r[j]) {
        if i > 0 {
          assert r[i] == t[i - 1] && r[j] == t[j - 1];
        } else {
          assert r[j] == t[j - 1];
          assert Key(t[0]) <= Key(t[j - 1]);
        }
      }
    } else {
      var rest := Insert(x, t[1..]);
      assert SortedByKey(t[1..]) by {
        forall i, j | 0 <= i < j < |t[1..]| ensures Key(t[1..][i]) <= Key(t[1..][j]) {
          assert t[1..][i] == t[i + 1] && t[1..][j] == t[j + 1];
        }
      }
      InsertSorted(x, t[1..]);
      assert AllAtLeast(t[1..], Key(t[0])) by {
        forall i | 0 <= i < |t[1..]| ensures Key(t[0]) <= Key(t[1..][i]) {
          assert t[1..][i] == t[i + 1];
        }
      }
      InsertAtLeast(x, t[1..], Key(t[0]));
      var r := [t[0]] + rest;
      forall i, j | 0 <= i < j < |r| ensures Key(r[i]) <= Key(r[j]) {
        assert r[j] == rest[j - 1];
        if i > 0 {
          assert r[i] == rest[i - 1];
        }
      }
    }
  }

  lemma {:induction false} InsertPermutes(x: PlayerScore, t: seq<PlayerScore>)
    ensures multiset(Insert(x, t)) == multiset(t) + multiset{x}
  {
    if t != [] && Key(x) > Key(t[0]) {
      InsertPermutes(x, t[1..]);
      assert t == [t[0]] + t[1..];
    }
  }

  lemma {:induction false} SortByKeySorted(s: seq<PlayerScore>)
    ensures SortedByKey(SortByKey(s))
    ensures multiset(SortByKey(s)) == multiset(s)
  {
    if s != [] {
      SortByKeySorted(s[1..]);
      InsertSorted(s[0], SortByKey(s[1..]));
      InsertPermutes(s[0], SortByKey(s[1..]));
      assert s == [s[0]] + s[1..];
    }
  }

  lemma {:induction false} InsertStable(x: PlayerScore, t: seq<PlayerScore>, k: int)
    requires SortedByKey(t)
    ensures WithKey(Insert(x, t), k) == (if Key(x) == k then [x] else []) + WithKey(t, k)
  {
    if t == [] || Key(x) <= Key(t[0]) {
      var r := [x] + t;
      assert r[0] == x && r[1..] == t;
      FilterStep(r, HasKey(k));
    } else {
      // x goes after t[0], whose key is smaller; if x has key k, t[0] has not.
      var rest := Insert(x, t[1..]);
      assert SortedByKey(t[1..]) by {
        forall i, j | 0 <= i < j < |t[1..]| ensures Key(t[1..][i]) <= Key(t[1..][j]) {
          assert t[1..][i] == t[i + 1] && t[1..][j] == t[j + 1];
        }
      }
      InsertStable(x, t[1..], k);
      var r := [t[0]] + rest;
      assert r[0] == t[0] && r[1..] == rest;
      FilterStep(r, HasKey(k));
      FilterStep(t, HasKey(k));
      if Key(x) != k && Key(t[0]) == k {
        AppendAssoc([t[0]], [], WithKey(t[1..], k));
      }
    }
  }

  /** Stability: the rows of every key keep their input order. */
  lemma {:induction false} SortByKeyStable(s: seq<PlayerScore>, k: int)
    ensures WithKey(SortByKey(s), k) == WithKey(s, k)
  {
    if s != [] {
      SortByKeyStable(s[1..], k);
      SortByKeySorted(s[1..]);
      InsertStable(s[0], SortByKey(s[1..]), k);
    }
  }

  lemma WithKeyAppend(s: seq<PlayerScore>, t: seq<PlayerScore>, k: int)
    ensures WithKey(s + t, k) == WithKey(s, k) + WithKey(t, k)
  {
    FilterAppend(s, t, HasKey(k));
  }

  /** The rows before sorting: every friend, then the user, each cut to h slots. */
  function Rows(friends: seq<PlayerScore>, scores: map<int, Score>, h: nat): (rows: seq<PlayerScore>)
    requires h <= |Holes|
    ensures |rows| == |friends| + 1
    ensures forall i | 0 <= i < |friends| :: rows[i] == Row(friends[i], h)
    ensures rows[|friends|] == Row(Personal(scores, h), h)
  {
    var everyone := friends + [Personal(scores, h)];
    seq(|everyone|, i requires 0 <= i < |everyone| => Row(everyone[i], h))
  }

  function AllScores(friends: seq<PlayerScore>, scores: map<int, Score>, h: nat): seq<PlayerScore>
    requires h <= |Holes|
  {
    SortByKey(Rows(friends, scores, h))
  }

  /**
   * The leaderboard is ordered by total, holds exactly one row per player,
   * each row's total is the sum of its first h slots, and among rows with the
   * same total the user's row, built last, comes last.
   */
  lemma Leaderboard(friends: seq<PlayerScore>, scores: map<int, Score>, h: nat)
    requires h <= |Holes|
    ensures var board := AllScores(friends, scores, h);
      && SortedByKey(board)
      && multiset(board) == multiset(Rows(friends, scores, h))
      && (forall i | 0 <= i < |board| :: board[i].totalScore == Sum(board[i].scores) && |board[i].scores| <= h)
      && var you := Row(Personal(scores, h), h);
         var ties := WithKey(board, Key(you));
         |ties| > 0 && ties[|ties| - 1] == you
  {
    var rows := Rows(friends, scores, h);
    SortByKeySorted(rows);
    RowsShaped(friends, scores, h);
    ShapedSurvivesSort(SortByKey(rows), rows, h);
    SortByKeyStable(rows, Key(Row(Personal(scores, h), h)));
    YouLastAmongTies(friends, scores, h);
  }

  /** A row as the board shows it: its total is the sum of at most h slots. */
  predicate Shaped(p: PlayerScore, h: nat) {
    p.totalScore == Sum(p.scores) && |p.scores| <= h
  }

  lemma RowsShaped(friends: seq<PlayerScore>, scores: map<int, Score>, h: nat)
    requires h <= |Holes|
    ensures forall i | 0 <= i < |Rows(friends, scores, h)| :: Shaped(Rows(friends, scores, h)[i], h)
  {
  }

  lemma ShapedSurvivesSort(board: seq<PlayerScore>, rows: seq<PlayerScore>, h: nat)
    requires multiset(board) == multiset(rows)
    requires forall i | 0 <= i < |rows| :: Shaped(rows[i], h)
    ensures forall i | 0 <= i < |board| :: board[i].totalScore == Sum(board[i].scores) && |board[i].scores| <= h
  {
    forall i | 0 <= i < |board| ensures Shaped(board[i], h) {
      assert board[i] in multiset(rows);
      var j :| 0 <= j < |rows| && rows[j] == board[i];
    }
  }

  /** In the unsorted rows the user's row is the last one with its total. */
  lemma YouLastAmongTies(friends: seq<PlayerScore>, scores: map<int, Score>, h: nat)
    requires h <= |Holes|
    ensures var you := Row(Personal(scores, h), h);
      var ties := WithKey(Rows(friends, scores, h), Key(you));
      |ties| > 0 && ties[|ties| - 1] == you
  {
    var rows := Rows(friends, scores, h);
    var you := Row(Personal(scores, h), h);
    assert rows == rows[..|friends|] + [you];
    WithKeyAppend(rows[..|friends|], [you], Key(you));
    assert WithKey([you], Key(you)) == [you];
  }

  /** The vs-par text of a leaderboard row, as written: anything at or under par reads "E". */
  function LeaderVsParLabel(v: int): string {
    if v <= 0 then "E" else "+" + IntToString(v)
  }

  /** As written, one under par and level par read the same. */
  lemma LeaderLabelHidesUnderPar()
    ensures LeaderVsParLabel(-1) == LeaderVsParLabel(0) == "E"
  {
  }

  // ---------------------------------------------------------------------------
  // Score colour

  /** `getScoreColor`: purple for eagle or better, emerald birdie, white par, yellow bogey, red worse. */
  function ScoreColour(strokes: int, par: int): (c: TextColour)
    ensures c == Purple <==> strokes - par <= -2
    ensures c == Emerald <==> strokes - par == -1
    ensures c == White <==> strokes == par
    ensures c == Yellow <==> strokes - par == 1
    ensures c == Red <==> strokes - par >= 2
  {
    var diff := strokes - par;
    if diff <= -2 then Purple
    else if diff == -1 then Emerald
    else if diff == 0 then White
    else if diff == 1 then Yellow
    else Red
  }

  /** More strokes on the same hole never give a better-reading colour. */
  lemma ScoreColourMonotone(s1: int, s2: int, par: int)
    requires s1 <= s2
    ensures Rank(ScoreColour(s1, par)) <= Rank(ScoreColour(s2, par))
  {
  }

  // ---------------------------------------------------------------------------
  // Edits to the current hole

  /** What a control of the score input asks `updateScore` to write. */
  datatype Edit =
    | SetStrokes(strokes: Number)
    | SetPutts(putts: Number)
    | SetFairway(hit: bool)
    | SetGir(gir: bool)
    | SetNotes(text: string)

  /** The first queued update: `{...prev[h], [field]: value}`. */
  function Apply(s: Score, e: Edit): Score {
    match e
    case SetStrokes(v) => s.(strokes := Present(v))
    case SetPutts(v) => s.(putts := Present(v))
    case SetFairway(hit) => s.(fairwayHit := Present(Some(hit)))
    case SetGir(g) => s.(gir := Present(g))
    case SetNotes(t) => s.(notes := Present(t))
  }

  /** The green-in-regulation rule applied when strokes are edited (comparisons with NaN are false). */
  predicate GirRule(v: Number, par: int, putts: int) {
    v.Int? && (v.i <= par - 2 || (v.i == par - 1 && putts == 2))
  }

  /** The rule says "no" at par or worse, "yes" two under or better, and asks for two putts at one under. */
  lemma GirRuleCases(v: int, par: int, putts: int)
    ensures v >= par ==> !GirRule(Int(v), par, putts)
    ensures v <= par - 2 ==> GirRule(Int(v), par, putts)
    ensures v == par - 1 ==> (GirRule(Int(v), par, putts) <==> putts == 2)
    ensures !GirRule(NaN, par, putts)
  {
  }

  /** The entry of hole h after both queued updates of `updateScore`. */
  function Edited(scores: map<int, Score>, h: int, e: Edit): (s: Score)
    requires 1 <= h <= |Holes|
    ensures e.SetStrokes? ==>
      s.strokes == Present(e.strokes) && s.gir == Present(GirRule(e.strokes, Par(h), OrZero(Current(scores, h).putts)))
    ensures !e.SetStrokes? ==> s.strokes == (if h in scores then scores[h].strokes else Missing)
    ensures !e.SetStrokes? ==> s.gir == (if e.SetGir? then Present(e.gir) else if h in scores then scores[h].gir else Missing)
    ensures s.putts == (if e.SetPutts? then Present(e.putts) else if h in scores then scores[h].putts else Missing)
    ensures s.notes == (if e.SetNotes? then Present(e.text) else if h in scores then scores[h].notes else Missing)
    ensures s.fairwayHit == (if e.SetFairway? then Present(Some(e.hit)) else if h in scores then scores[h].fairwayHit else Missing)
  {
    var first := Apply(if h in scores then scores[h] else NoFields, e);
    if e.SetStrokes? then first.(gir := Present(GirRule(e.strokes, Par(h), OrZero(Current(scores, h).putts))))
    else first
  }

  /** A control of the score input. */
  datatype Control = StrokesMinus | StrokesPlus | PuttsMinus | PuttsPlus | FairwayYes | FairwayNo | GirToggle

  /** `Math.max(0, x - 1)`: `undefined - 1` and NaN stay NaN. */
  function StepDown(x: Field<Number>): (r: Number)
    ensures r.Int? <==> Read(x).Int?
    ensures r.Int? ==> r.i >= 0 && r.i == Max(0, x.value.i - 1)
  {
    if Read(x).Int? then Int(Max(0, x.value.i - 1)) else NaN
  }

  /** `(x || 0) + 1`. */
  function StepUp(x: Field<Number>): (r: Number)
    ensures r.Int? && r.i == OrZero(x) + 1
  {
    Int(OrZero(x) + 1)
  }

  /** The edit each control requests, given the record on screen. */
  function ControlEdit(c: Control, cur: Score): Edit {
    match c
    case StrokesMinus => SetStrokes(StepDown(cur.strokes))
    case StrokesPlus => SetStrokes(StepUp(cur.strokes))
    case PuttsMinus => SetPutts(StepDown(cur.putts))
    case PuttsPlus => SetPutts(StepUp(cur.putts))
    case FairwayYes => SetFairway(true)
    case FairwayNo => SetFairway(false)
    case GirToggle => SetGir(!(cur.gir == Present(true)))
  }

  /** "-" never requests a negative count and "+" requests one more than the count on screen (absent = 0). */
  lemma StepperBounds(x: Field<Number>)
    ensures StepDown(x).Int? ==> StepDown(x).i >= 0
    ensures x.Present? && x.value.Int? && x.value.i > 0 ==> StepDown(x) == Int(x.value.i - 1)
    ensures x.Present? && x.value.Int? && x.value.i <= 0 ==> StepDown(x) == Int(0)
    ensures x == Missing ==> StepDown(x) == NaN && StepUp(x) == Int(1)
    ensures x.Present? && x.value.Int? ==> StepUp(x) == Int(x.value.i + 1)
  {
  }

  // ---------------------------------------------------------------------------
  // Moving between holes

  /** Leaving hole h: a hole without a truthy stroke count is saved as par, two putts, no GIR. */
  function AutoSaved(scores: map<int, Score>, h: int): (r: map<int, Score>)
    requires 1 <= h <= |Holes|
    ensures r.Keys == scores.Keys + {h} || r == scores
  {
    if h in scores && Truthy(scores[h].strokes) then scores
    else scores[h := Current(scores, h).(strokes := Present(Int(Par(h))), putts := Present(Int(2)), gir := Present(false))]
  }

  /** What auto-save writes, and that it keeps the fairway and the notes. */
  lemma AutoSavedEntry(scores: map<int, Score>, h: int)
    requires 1 <= h <= |Holes|
    ensures h in scores && Truthy(scores[h].strokes) ==> AutoSaved(scores, h) == scores
    ensures !(h in scores && Truthy(scores[h].strokes)) ==>
      var e := AutoSaved(scores, h)[h];
      && e.strokes == Present(Int(Par(h))) && e.putts == Present(Int(2)) && e.gir == Present(false)
      && e.fairwayHit == Current(scores, h).fairwayHit && e.notes == Current(scores, h).notes
      && forall k | k in scores && k != h :: k in AutoSaved(scores, h) && AutoSaved(scores, h)[k] == scores[k]
  {
  }

  /** The simulated score: `Math.max(par - 1, Math.min(par + 2, roll + par))`, roll standing for floor(random * 3). */
  function FriendStrokes(par: int, roll: int): (v: int)
    ensures par - 1 <= v <= par + 2
    ensures 0 <= roll <= 2 ==> v == par + roll
  {
    Max(par - 1, Min(par + 2, roll + par))
  }

  /** A friend after the group leaves hole h. */
  function Advanced(f: PlayerScore, h: int, roll: int): (g: PlayerScore)
    requires 1 <= h <= |Holes| && |f.scores| == |Holes|
  {
    var card := f.scores[h - 1 := FriendStrokes(Par(h), roll)];
    f.(currentHole := h + 1, scores := card, totalScore := Sum(card[..h]), vsParTotal := VsParOf(card[..h]), thruHole := h)
  }

  /** Leaving hole h writes exactly slot h - 1 and totals the first h slots. */
  lemma AdvancedFriend(f: PlayerScore, h: int, roll: int)
    requires 1 <= h <= |Holes| && |f.scores| == |Holes|
    ensures var g := Advanced(f, h, roll);
      && |g.scores| == |f.scores|
      && (forall j | 0 <= j < |f.scores| && j != h - 1 :: g.scores[j] == f.scores[j])
      && Par(h) - 1 <= g.scores[h - 1] <= Par(h) + 2
      && g.currentHole == h + 1 && g.thruHole == h
      && g.totalScore == Sum(g.scores[..h])
      && g.vsParTotal == g.totalScore - ParThrough(h)
      && g.id == f.id && g.name == f.name
  {
    VsParOfIsSumLessPar(Advanced(f, h, roll).scores[..h]);
  }

  function AdvancedAll(friends: seq<PlayerScore>, h: int, rolls: seq<int>): (r: seq<PlayerScore>)
    requires 1 <= h <= |Holes| && |rolls| == |friends|
    requires forall i | 0 <= i < |friends| :: |friends[i].scores| == |Holes|
    ensures |r| == |friends|
  {
    seq(|friends|, i requires 0 <= i < |friends| => Advanced(friends[i], h, rolls[i]))
  }

  /**
   * The friends' update of `goToNextHole`: each card is copied, slot h - 1
   * overwritten with the simulated score, and the totals taken over the
   * first h slots.
   */
  method AdvanceFriends(prev: seq<PlayerScore>, h: int, rolls: seq<int>) returns (next: seq<PlayerScore>)
    requires 1 <= h <= |Holes| && |rolls| == |prev| && CardsFull(prev)
    ensures next == AdvancedAll(prev, h, rolls)
    ensures CardsFull(next)
  {
    next := [];
    for i := 0 to |prev|
      invariant |next| == i
      invariant forall j | 0 <= j < i :: next[j] == Advanced(prev[j], h, rolls[j])
    {
      var friend := AdvanceOne(prev[i], h, rolls[i]);
      next := next + [friend];
    }
  }

  /** The callback of the friends' map: copy the card, write slot h - 1, total the first h slots. */
  method AdvanceOne(friend: PlayerScore, h: int, roll: int) returns (g: PlayerScore)
    requires 1 <= h <= |Holes| && |friend.scores| == |Holes|
    ensures g == Advanced(friend, h, roll)
  {
    var par := Par(h);
    var newScore := Max(par - 1, Min(par + 2, roll + par));
    var card := new int[|friend.scores|](k requires 0 <= k < |friend.scores| => friend.scores[k]);
    card[h - 1] := newScore;
    var newScores := card[..];
    assert newScores == friend.scores[h - 1 := newScore];
    var completed := newScores[..h];
    g := friend.(currentHole := h + 1, scores := newScores, totalScore := Sum(completed),
                 vsParTotal := VsParOf(completed), thruHole := h);
  }

  /** A friend after the group goes back from hole h to h - 1. */
  function Retreated(f: PlayerScore, h: int): PlayerScore
    requires 2 <= h <= |Holes|
  {
    var done := Prefix(f.scores, h - 1);
    f.(currentHole := h - 1, totalScore := Sum(done), vsParTotal := VsParOf(done), thruHole := h - 1)
  }

  /** Going back keeps every friend's card and totals its first h - 1 slots. */
  lemma RetreatedFriend(f: PlayerScore, h: int)
    requires 2 <= h <= |Holes|
    ensures var g := Retreated(f, h);
      && g.scores == f.scores
      && g.totalScore == Sum(Prefix(f.scores, h - 1))
      && g.vsParTotal == g.totalScore - ParThrough(|Prefix(f.scores, h - 1)|)
      && g.currentHole == h - 1 && g.thruHole == h - 1
  {
    VsParOfIsSumLessPar(Prefix(f.scores, h - 1));
  }

  function RetreatedAll(friends: seq<PlayerScore>, h: int): (r: seq<PlayerScore>)
    requires 2 <= h <= |Holes|
    ensures |r| == |friends|
  {
    seq(|friends|, i requires 0 <= i < |friends| => Retreated(friends[i], h))
  }

  predicate CardsFull(friends: seq<PlayerScore>) {
    forall i | 0 <= i < |friends| :: |friends[i].scores| == |Holes|
  }

  /** The state of the scoring screen. */
  class ScoringPage {
    var currentHole: int
    var scores: map<int, Score>
    var friendScores: seq<PlayerScore>

    ghost predicate Valid()
      reads this
    {
      1 <= currentHole <= |Holes| && KeysAreHoles(scores) && CardsFull(friendScores)
    }

    constructor ()
      ensures Valid()
      ensures currentHole == 1 && scores == MockScores && friendScores == DummyFriends
    {
      currentHole := 1;
      scores := MockScores;
      friendScores := DummyFriends;
    }

    /** `currentScore`: the record on screen. */
    function CurrentScore(): Score
      reads this
    {
      Current(scores, currentHole)
    }

    /** The friends panel: every player's row, sorted by total. */
    function Leaderboard(): seq<PlayerScore>
      reads this
      requires Valid()
    {
      AllScores(friendScores, scores, currentHole)
    }

    /** `updateScore(field, value)`: the spread-and-set, then, for strokes, the GIR rule. */
    method UpdateScore(e: Edit)
      requires Valid()
      modifies this
      ensures Valid()
      ensures currentHole == old(currentHole) && friendScores == old(friendScores)
      ensures scores == old(scores)[currentHole := Edited(old(scores), currentHole, e)]
    {
      var h := currentHole;
      var shown := CurrentScore();
      scores := scores[h := Apply(if h in scores then scores[h] else NoFields, e)];
      if e.SetStrokes? {
        var isGir := GirRule(e.strokes, Par(h), OrZero(shown.putts));
        scores := scores[h := scores[h].(gir := Present(isGir))];
      }
    }

    /** A tap on one of the score input's controls. */
    method Press(c: Control)
      requires Valid()
      modifies this
      ensures Valid()
      ensures currentHole == old(currentHole) && friendScores == old(friendScores)
      ensures scores == old(scores)[currentHole := Edited(old(scores), currentHole, ControlEdit(c, old(CurrentScore())))]
    {
      UpdateScore(ControlEdit(c, CurrentScore()));
    }

    /** The notes text area. */
    method EditNotes(text: string)
      requires Valid()
      modifies this
      ensures Valid()
      ensures currentHole == old(currentHole) && friendScores == old(friendScores)
      ensures scores == old(scores)[currentHole := Edited(old(scores), currentHole, SetNotes(text))]
    {
      UpdateScore(SetNotes(text));
    }

    /**
     * "Next Hole" / "Finish Round". `rolls[i]` stands for friend i's
     * `Math.floor(Math.random() * 3)`. On the last hole nothing changes.
     */
    method GoToNextHole(rolls: seq<int>)
      requires Valid() && |rolls| == |friendScores|
      modifies this
      ensures Valid()
      ensures old(currentHole) < |Holes| ==>
        && currentHole == old(currentHole) + 1
        && scores == AutoSaved(old(scores), old(currentHole))
        && friendScores == AdvancedAll(old(friendScores), old(currentHole), rolls)
      ensures old(currentHole) == |Holes| ==>
        currentHole == old(currentHole) && scores == old(scores) && friendScores == old(friendScores)
    {
      if currentHole < |Holes| {
        var h := currentHole;
        if !(h in scores && Truthy(scores[h].strokes)) {
          var shown := CurrentScore();
          scores := scores[h := shown.(strokes := Present(Int(Par(h))), putts := Present(Int(2)), gir := Present(false))];
        }
        var next := AdvanceFriends(friendScores, h, rolls);
        friendScores := next;
        currentHole := h + 1;
      }
    }

    /** "Previous Hole": only when past the first hole; friends' cards are kept. */
    method GoToPrevHole()
      requires Valid()
      modifies this
      ensures Valid()
      ensures scores == old(scores)
      ensures old(currentHole) > 1 ==>
        currentHole == old(currentHole) - 1 && friendScores == RetreatedAll(old(friendScores), old(currentHole))
      ensures old(currentHole) == 1 ==> currentHole == 1 && friendScores == old(friendScores)
    {
      if currentHole > 1 {
        var h := currentHole;
        friendScores := RetreatedAll(friendScores, h);
        currentHole := h - 1;
      }
    }
  }
}
