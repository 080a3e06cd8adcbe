// One hole of the expandable scorecard (app/components/scoring/ScorecardEntry.tsx):
// the values its stepper and toggle buttons hand to the parent, the colour of
// the score in the header, and the expand toggle.
module ScorecardEntry {
  import opened Js
  import opened Theme

  /** The hole as the parent passes it; optional properties that are absent are `None`. */
  datatype HoleData = HoleData(
    number: int,
    par: int,
    distance: int,
    score: Option<int>,
    putts: Option<int>,
    fairwayHit: Option<bool>,
    greenInRegulation: Option<bool>)

  /** An optional number is truthy when present and not 0. */
  predicate Set(x: Option<int>) { x.Some? && x.value != 0 }

  /** `x || fallback` on an optional number. */
  function Or(x: Option<int>, fallback: int): (r: int)
    ensures Set(x) ==> r == x.value
    ensures !Set(x) ==> r == fallback
  {
    if Set(x) then x.value else fallback
  }

  /** An optional flag is truthy when present and true. */
  predicate On(x: Option<bool>) { x.Some? && x.value }

  datatype Button = ScoreMinus | ScorePlus | PuttsMinus | PuttsPlus | FairwayButton | GirButton

  /** What a button asks the parent to store. */
  datatype Request = ScoreChange(score: int) | PuttsChange(putts: int) | FairwayChange(hit: bool) | GirChange(gir: bool)

  /** The request a press sends, or `None` when a guarded "−" does nothing. */
  function Press(hole: HoleData, b: Button): (r: Option<Request>)
    ensures b == ScoreMinus ==> (r.Some? <==> Set(hole.score)) && (r.Some? ==> r.value == ScoreChange(hole.score.value - 1))
    ensures b == ScorePlus ==> r == Some(ScoreChange(if Set(hole.score) then hole.score.value + 1 else hole.par + 1))
    ensures b == PuttsMinus ==> (r.Some? <==> Set(hole.putts)) && (r.Some? ==> r.value == PuttsChange(hole.putts.value - 1))
    ensures b == PuttsPlus ==> r == Some(PuttsChange(if Set(hole.putts) then hole.putts.value + 1 else 2))
    ensures b == FairwayButton ==> r == Some(FairwayChange(!On(hole.fairwayHit)))
    ensures b == GirButton ==> r == Some(GirChange(!On(hole.greenInRegulation)))
  {
    match b
    case ScoreMinus => if Set(hole.score) then Some(ScoreChange(hole.score.value - 1)) else None
    case ScorePlus => Some(ScoreChange(Or(hole.score, hole.par) + 1))
    case PuttsMinus => if Set(hole.putts) then Some(PuttsChange(hole.putts.value - 1)) else None
    case PuttsPlus => Some(PuttsChange(Or(hole.putts, 1) + 1))
    case FairwayButton => Some(FairwayChange(!hole.fairwayHit.Some? || !hole.fairwayHit.value))
    case GirButton => Some(GirChange(!hole.greenInRegulation.Some? || !hole.greenInRegulation.value))
  }

  /** The parent storing a request. */
  function Store(hole: HoleData, r: Request): HoleData {
    match r
    case ScoreChange(s) => hole.(score := Some(s))
    case PuttsChange(p) => hole.(putts := Some(p))
    case FairwayChange(f) => hole.(fairwayHit := Some(f))
    case GirChange(g) => hole.(greenInRegulation := Some(g))
  }

  /** A press followed by the parent storing what it asked for. */
  function Tap(hole: HoleData, b: Button): HoleData {
    var r := Press(hole, b);
    if r.Some? then Store(hole, r.value) else hole
  }

  /** "+" undoes "−" for a stored score or putt count that stays truthy, and a second flag press undoes the first. */
  lemma PlusUndoesMinus(hole: HoleData)
    ensures Set(hole.score) && hole.score.value != 1 ==> Tap(Tap(hole, ScoreMinus), ScorePlus) == hole
    ensures Set(hole.putts) && hole.putts.value != 1 ==> Tap(Tap(hole, PuttsMinus), PuttsPlus) == hole
    ensures On(Tap(Tap(hole, FairwayButton), FairwayButton).fairwayHit) == On(hole.fairwayHit)
    ensures On(Tap(Tap(hole, GirButton), GirButton).greenInRegulation) == On(hole.greenInRegulation)
  {
  }

  /** Each button touches only its own property of the hole. */
  lemma TapTouchesOneField(hole: HoleData, b: Button)
    ensures var h := Tap(hole, b);
      && h.number == hole.number && h.par == hole.par && h.distance == hole.distance
      && (b != ScoreMinus && b != ScorePlus ==> h.score == hole.score)
      && (b != PuttsMinus && b != PuttsPlus ==> h.putts == hole.putts)
      && (b != FairwayButton ==> h.fairwayHit == hole.fairwayHit)
      && (b != GirButton ==> h.greenInRegulation == hole.greenInRegulation)
  {
  }

  /** `getScoreColor`: emerald under par, white at par, yellow one over, red worse. */
  function ScoreColour(score: int, par: int): (c: TextColour)
    ensures c == Emerald <==> score < par
    ensures c == White <==> score == par
    ensures c == Yellow <==> score == par + 1
    ensures c == Red <==> score >= par + 2
  {
    var diff := score - par;
    if diff < 0 then Emerald
    else if diff == 0 then White
    else if diff == 1 then Yellow
    else Red
  }

  /** A higher score never reads as better. */
  lemma ScoreColourMonotone(a: int, b: int, par: int)
    requires a <= b
    ensures Rank(ScoreColour(a, par)) <= Rank(ScoreColour(b, par))
  {
  }

  /** The header shows the coloured score only when it is truthy. */
  function HeaderScore(hole: HoleData): (r: Option<TextColour>)
    ensures r.Some? <==> Set(hole.score)
    ensures r.Some? ==> r.value == ScoreColour(hole.score.value, hole.par)
  {
    if Set(hole.score) then Some(ScoreColour(hole.score.value, hole.par)) else None
  }

  /** The text between a stepper's buttons: the value when truthy, '-' otherwise. */
  function StepperText(x: Option<int>): (text: string)
    ensures text == "-" <==> !Set(x)
    ensures Set(x) ==> ParseInt(text) == Int(x.value)
  {
    if Set(x) then
      ParseIntOfIntToString(x.value);
      DashIsNaN();
      IntToString(x.value)
    else "-"
  }

  /** parseInt reads no number from a lone '-'. */
  lemma DashIsNaN()
    ensures ParseInt("-") == NaN
  {
    assert SpaceRun("-") == 0;
    assert "-"[1..] == [];
  }

  /** The card's own state: whether the details are open. */
  class Entry {
    var isExpanded: bool

    constructor ()
      ensures !isExpanded
    {
      isExpanded := false;
    }

    method ToggleExpanded()
      modifies this
      ensures isExpanded == !old(isExpanded)
    {
      isExpanded := !isExpanded;
    }
  }
}
