// The game set-up page (app/play/setup/page.tsx): the chosen course, tee,
// number of players and format, the clamped player stepper and its label.
module GameSetup {
  import opened Js

  /** A tee of a course; the course rating, a decimal, is left out. */
  datatype Tee = Tee(color: string, slope: int, yards: int)

  /** A course; the optional weather and next tee time are left out. */
  datatype Course = Course(id: string, name: string, tees: seq<Tee>)

  const Courses: seq<Course> := [
    Course("championship", "DLF Championship Course",
      [Tee("Black", 142, 7323), Tee("Blue", 138, 6841), Tee("White", 134, 6421), Tee("Red", 128, 5932)]),
    Course("links", "DLF Links Course",
      [Tee("Black", 138, 7012), Tee("Blue", 134, 6632), Tee("White", 130, 6213), Tee("Red", 124, 5742)])
  ]

  const GameFormatIds: seq<string> := ["stroke", "stableford", "match"]

  /** The "−" handler: `Math.max(1, n - 1)`. */
  function Fewer(n: int): (r: int)
    ensures r >= 1
    ensures n > 1 ==> r == n - 1
    ensures n <= 1 ==> r == 1
  {
    if n - 1 > 1 then n - 1 else 1
  }

  /** The "+" handler: `Math.min(4, n + 1)`. */
  function More(n: int): (r: int)
    ensures r <= 4
    ensures n < 4 ==> r == n + 1
    ensures n >= 4 ==> r == 4
  {
    if n + 1 < 4 then n + 1 else 4
  }

  /** From any count in range both buttons stay in range, and one undoes the other away from the bounds. */
  lemma SteppersStayInRange(n: int)
    requires 1 <= n <= 4
    ensures 1 <= Fewer(n) <= 4 && 1 <= More(n) <= 4
    ensures n < 4 ==> Fewer(More(n)) == n
    ensures n > 1 ==> More(Fewer(n)) == n
  {
  }

  /** `${playerCount} Player${playerCount > 1 ? 's' : ''}`. */
  function PlayersLabel(n: int): string {
    IntToString(n) + " Player" + (if n > 1 then "s" else "")
  }

  /** The label is plural exactly above one player, and it begins with the count itself. */
  lemma PlayersLabelReads(n: int)
    requires n >= 0
    ensures PlayersLabel(n)[|PlayersLabel(n)| - 1] == 's' <==> n > 1
    ensures ParseInt(PlayersLabel(n)) == Int(n)
  {
    var digits := NatToString(n);
    var rest := " Player" + (if n > 1 then "s" else "");
    assert PlayersLabel(n) == digits + rest;
    NatToStringValue(n);
    DigitRunStops(digits, rest);
    var s := digits + rest;
    assert IsDigit(s[0]);
    ParseIntDigitsPrefix(s);
    assert s[..DigitRun(s)] == digits;
  }

  /** The page's selections. */
  class SetupPage {
    var selectedCourse: Course
    var selectedTeeColor: string
    var playerCount: int
    var selectedFormat: string

    ghost predicate Valid()
      reads this
    {
      1 <= playerCount <= 4
    }

    constructor ()
      ensures Valid()
      ensures selectedCourse == Courses[0] && selectedTeeColor == "White"
      ensures playerCount == 1 && selectedFormat == GameFormatIds[0]
    {
      selectedCourse := Courses[0];
      selectedTeeColor := "White";
      playerCount := 1;
      selectedFormat := GameFormatIds[0];
    }

    /** The "−" button is disabled at one player and the "+" button at four. */
    predicate FewerDisabled()
      reads this
    {
      playerCount <= 1
    }

    predicate MoreDisabled()
      reads this
    {
      playerCount >= 4
    }

    method PressFewer()
      requires Valid()
      modifies this
      ensures Valid()
      ensures playerCount == Fewer(old(playerCount))
      ensures old(FewerDisabled()) ==> playerCount == old(playerCount)
      ensures selectedCourse == old(selectedCourse) && selectedTeeColor == old(selectedTeeColor)
      ensures selectedFormat == old(selectedFormat)
    {
      playerCount := Fewer(playerCount);
    }

    method PressMore()
      requires Valid()
      modifies this
      ensures Valid()
      ensures playerCount == More(old(playerCount))
      ensures old(MoreDisabled()) ==> playerCount == old(playerCount)
      ensures selectedCourse == old(selectedCourse) && selectedTeeColor == old(selectedTeeColor)
      ensures selectedFormat == old(selectedFormat)
    {
      playerCount := More(playerCount);
    }

    /** Choosing a course keeps the tee colour, the count and the format. */
    method SelectCourse(course: Course)
      requires Valid()
      modifies this
      ensures Valid()
      ensures selectedCourse == course
      ensures selectedTeeColor == old(selectedTeeColor) && playerCount == old(playerCount)
      ensures selectedFormat == old(selectedFormat)
    {
      selectedCourse := course;
    }

    method SelectTee(color: string)
      requires Valid()
      modifies this
      ensures Valid()
      ensures selectedTeeColor == color
      ensures selectedCourse == old(selectedCourse) && playerCount == old(playerCount)
      ensures selectedFormat == old(selectedFormat)
    {
      selectedTeeColor := color;
    }

    method SelectFormat(id: string)
      requires Valid()
      modifies this
      ensures Valid()
      ensures selectedFormat == id
      ensures selectedCourse == old(selectedCourse) && selectedTeeColor == old(selectedTeeColor)
      ensures playerCount == old(playerCount)
    {
      selectedFormat := id;
    }
  }
}
