// The three-step tee-time booking screen (app/play/book/page.tsx): course,
// then date, players and time, then add-ons, with the running total.
module BookingWizard {
  import opened Js

  datatype Course = Course(id: string, name: string, holes: int, par: int)

  const Courses: seq<Course> := [
    Course("dlf-championship", "DLF Championship Course", 18, 72),
    Course("dlf-valley", "DLF Valley Course", 9, 36)
  ]

  datatype TimeSlot = TimeSlot(time: string, available: bool, price: string, weather: string, temp: int, slotsLeft: int)

  const TimeSlots: seq<TimeSlot> := [
    TimeSlot("06:00", true, "\U{20B9}2,500", "Clear", 22, 3),
    TimeSlot("06:30", true, "\U{20B9}2,500", "Clear", 23, 2),
    TimeSlot("07:00", false, "\U{20B9}3,000", "Sunny", 24, 0),
    TimeSlot("07:30", true, "\U{20B9}3,000", "Sunny", 25, 4),
    TimeSlot("08:00", true, "\U{20B9}3,500", "Sunny", 26, 1)
  ]

  datatype AddOn = AddOn(id: string, name: string, price: string)

  const AddOns: seq<AddOn> := [
    AddOn("cart", "Golf Cart", "\U{20B9}1,000"),
    AddOn("caddie", "Caddie Service", "\U{20B9}800"),
    AddOn("club-rental", "Club Rental", "\U{20B9}1,500")
  ]

  const Rupee: char := '\U{20B9}'

  function AtTime(time: string): TimeSlot -> bool {
    (slot: TimeSlot) => slot.time == time
  }

  function WithId(id: string): AddOn -> bool {
    (a: AddOn) => a.id == id
  }

  /** `timeSlots.find(slot => slot.time === time)?.price`. */
  function SlotPrice(slots: seq<TimeSlot>, time: string): (r: Option<string>)
    ensures r.None? <==> forall i | 0 <= i < |slots| :: slots[i].time != time
    ensures r.Some? ==>
      exists i | 0 <= i < |slots| :: slots[i].time == time && slots[i].price == r.value && forall j | 0 <= j < i :: slots[j].time != time
  {
    var found := Find(slots, AtTime(time));
    if found.Some? then Some(found.value.price) else None
  }

  /** `addOns.find(a => a.id === id)?.price`. */
  function AddOnPrice(items: seq<AddOn>, id: string): (r: Option<string>)
    ensures r.None? <==> forall i | 0 <= i < |items| :: items[i].id != id
    ensures r.Some? ==>
      exists i | 0 <= i < |items| :: items[i].id == id && items[i].price == r.value && forall j | 0 <= j < i :: items[j].id != id
  {
    var found := Find(items, WithId(id));
    if found.Some? then Some(found.value.price) else None
  }

  /** The text left after `.replace(...)`, with `|| '0'` standing in for a missing or empty result. */
  function OrZeroText(t: Option<string>): string {
    if t.None? || t.value == "" then "0" else t.value
  }

  /** As written: `parseInt(price.replace('₹', '') || '0')`. A comma stops the parse. */
  function LabelAmount(price: Option<string>): Number {
    ParseInt(OrZeroText(if price.Some? then Some(RemoveFirst(price.value, Rupee)) else None))
  }

  predicate NotSeparator(c: char) { c != Rupee && c != ',' }

  /** The evident intent: `parseInt(price.replace(/[₹,]/g, '') || '0')`. */
  function CorrectedAmount(price: Option<string>): Number {
    ParseInt(OrZeroText(if price.Some? then Some(Filter(price.value, NotSeparator)) else None))
  }

  /** The two readings of a price label: the code's, and the evidently intended one. */
  datatype Reading = AsWritten | Corrected

  function Amount(reading: Reading, price: Option<string>): Number {
    match reading
    case AsWritten => LabelAmount(price)
    case Corrected => CorrectedAmount(price)
  }

  /** The add-on part of the total: a left fold over the selected ids. */
  function AddOnsAmount(ids: seq<string>, reading: Reading): Number {
    if ids == [] then Int(0)
    else Add(AddOnsAmount(ids[..|ids| - 1], reading), Amount(reading, AddOnPrice(AddOns, ids[|ids| - 1])))
  }

  function Scaled(x: int, k: int): int { x * k }

  /** A JS number times a count: NaN stays NaN. */
  function Times(n: Number, k: int): (r: Number)
    ensures r.Int? <==> n.Int?
    ensures r.Int? ==> r.i == Scaled(n.i, k)
  {
    if n.Int? then Int(Scaled(n.i, k)) else NaN
  }

  /** `totalPrice()` under a reading of the price labels; a time that is null or '' adds nothing. */
  function PriceWith(time: Option<string>, ids: seq<string>, players: int, reading: Reading): Number {
    Times(Add(BaseAmount(time, reading), AddOnsAmount(ids, reading)), players)
  }

  /** The slot part of the total. */
  function BaseAmount(time: Option<string>, reading: Reading): Number {
    if time.Some? && time.value != "" then Amount(reading, SlotPrice(TimeSlots, time.value)) else Int(0)
  }

  /** `totalPrice()` as written. */
  function TotalPriceAsWritten(time: Option<string>, ids: seq<string>, players: int): Number {
    PriceWith(time, ids, players, AsWritten)
  }

  /** `totalPrice()` as evidently intended: every digit of each label is read. */
  function TotalPrice(time: Option<string>, ids: seq<string>, players: int): Number {
    PriceWith(time, ids, players, Corrected)
  }

  /** A price label as the tables write them: the rupee sign, then digits and thousands commas, starting with a digit. */
  predicate PriceLabel(text: string) {
    |text| >= 2 && text[0] == Rupee && IsDigit(text[1])
    && forall i | 1 <= i < |text| :: IsDigit(text[i]) || text[i] == ','
  }

  /** Every price in the two tables is such a label. */
  lemma TablePricesWellFormed()
    ensures forall i | 0 <= i < |TimeSlots| :: PriceLabel(TimeSlots[i].price)
    ensures forall i | 0 <= i < |AddOns| :: PriceLabel(AddOns[i].price)
  {
  }

  lemma {:induction false} FilterAllDigits(s: string)
    ensures AllDigits(Filter(s, IsDigit))
  {
    if s != [] {
      FilterAllDigits(s[1..]);
    }
  }

  /** The amount a price label shows: all its digits read as one number. */
  function Rupees(text: string): nat {
    FilterAllDigits(text);
    DecimalValue(Filter(text, IsDigit))
  }

  /** The digits after the rupee sign up to the first non-digit, read as a number. */
  function LeadingRupees(text: string): nat {
    if text == [] then 0 else DecimalValue(text[1..][..DigitRun(text[1..])])
  }

  /** What a well-formed label is charged under each reading. */
  function Charged(reading: Reading, text: string): nat {
    match reading
    case AsWritten => LeadingRupees(text)
    case Corrected => Rupees(text)
  }

  /** A label whose digits hold no comma reads the same either way. */
  lemma ReadingsAgreeWithoutComma(text: string)
    requires PriceLabel(text) && ',' !in text
    ensures Charged(AsWritten, text) == Charged(Corrected, text)
  {
    var g := text[1..];
    assert text == [text[0]] + g;
    assert AllDigits(g) by {
      forall i | 0 <= i < |g| ensures IsDigit(g[i]) {
        assert g[i] == text[i + 1];
        assert text[i + 1] != ',';
      }
    }
    DigitRunAll(g);
    FilterKeepsAll(g, IsDigit);
    assert Filter(text, IsDigit) == Filter(g, IsDigit);
    assert g[..|g|] == g;
  }

  /** Each reading of a well-formed label is a number: the leading digits as written, all digits as intended. */
  lemma ReadsLabel(reading: Reading, text: string)
    requires PriceLabel(text)
    ensures Amount(reading, Some(text)) == Int(Charged(reading, text))
  {
    var g := text[1..];
    assert text == [text[0]] + g;
    match reading
    case AsWritten =>
      assert RemoveFirst(text, Rupee) == g;
      ParseIntDigitsPrefix(g);
    case Corrected =>
      assert Filter(text, NotSeparator) == Filter(g, NotSeparator);
      assert Filter(text, IsDigit) == Filter(g, IsDigit);
      FiltersAgree(g, NotSeparator, IsDigit);
      var d := Filter(g, IsDigit);
      FilterAllDigits(g);
      assert g == [g[0]] + g[1..];
      assert d[0] == g[0];
      ParseIntDigitsPrefix(d);
      DigitRunAll(d);
      assert d[..|d|] == d;
  }

  /** Under either reading a missing price is 0. */
  lemma MissingPriceIsZero(reading: Reading)
    ensures Amount(reading, None) == Int(0)
  {
    ParseIntDigitsPrefix("0");
    assert "0"[..1] == "0";
  }

  /** As written, a label reads as the digits before its first comma. */
  lemma AsWrittenStopsAtComma(a: string, b: string)
    requires a != [] && AllDigits(a)
    ensures LabelAmount(Some([Rupee] + a + [','] + b)) == Int(DecimalValue(a))
  {
    var text := [Rupee] + a + [','] + b;
    var t := a + ([','] + b);
    assert text[1..] == t;
    assert RemoveFirst(text, Rupee) == t;
    assert t[0] == a[0];
    ParseIntDigitsPrefix(t);
    DigitRunStops(a, [','] + b);
    assert t[..|a|] == a;
  }

  lemma TwoThousandFiveHundred()
    ensures Rupees(TimeSlots[0].price) == 2500
  {
    DigitsOfFirstPrice();
    ValueOfDigits2500();
  }

  lemma DigitsOfFirstPrice()
    ensures Filter(TimeSlots[0].price, IsDigit) == "2500"
  {
    assert TimeSlots[0].price == [Rupee] + "2,500";
    DigitsOfLabel2500();
  }

  lemma DigitsOfLabel2500()
    ensures Filter([Rupee] + "2,500", IsDigit) == "2500"
  {
    var t := [Rupee] + "2,500";
    FilterStep(t, IsDigit);
    assert t[1..] == "2,500";
    FilterStep("2,500", IsDigit);
    assert "2,500"[1..] == ",500";
    FilterStep(",500", IsDigit);
    assert ",500"[1..] == "500";
    FilterStep("500", IsDigit);
    assert "500"[1..] == "00";
    FilterStep("00", IsDigit);
    assert "00"[1..] == "0";
    FilterStep("0", IsDigit);
    assert "0"[1..] == "";
  }

  lemma ValueOfDigits2500()
    ensures DecimalValue("2500") == 2500
  {
    assert DecimalValue("2") == 2;
    assert DecimalValue("25") == 25 by { assert "25"[..1] == "2"; }
    assert DecimalValue("250") == 250 by { assert "250"[..2] == "25"; }
    assert "2500"[..3] == "250";
  }

  lemma LeadingTwo()
    ensures LeadingRupees(TimeSlots[0].price) == 2
  {
    var g := TimeSlots[0].price[1..];
    assert g == "2" + ",500";
    DigitRunStops("2", ",500");
    assert g[..1] == "2";
  }

  /** As written, one player at 06:00 is charged 2; as intended, 2500, the amount the label shows. */
  lemma SixOClockCharge()
    ensures TotalPriceAsWritten(Some("06:00"), [], 1) == Int(2)
    ensures TotalPrice(Some("06:00"), [], 1) == Int(2500)
  {
    assert SlotPrice(TimeSlots, "06:00") == Some(TimeSlots[0].price);
    TotalPriceIsSum(AsWritten, Some("06:00"), [], 1);
    TotalPriceIsSum(Corrected, Some("06:00"), [], 1);
    LeadingTwo();
    TwoThousandFiveHundred();
  }

  /** Any price the slot table yields is well formed. */
  lemma SlotPriceWellFormed(time: string)
    ensures SlotPrice(TimeSlots, time).Some? ==> PriceLabel(SlotPrice(TimeSlots, time).value)
  {
    var p := SlotPrice(TimeSlots, time);
    if p.Some? {
      var i :| 0 <= i < |TimeSlots| && TimeSlots[i].time == time && TimeSlots[i].price == p.value
        && forall j | 0 <= j < i :: TimeSlots[j].time != time;
      TablePricesWellFormed();
    }
  }

  /** Any price the add-on table yields is well formed. */
  lemma AddOnPriceWellFormed(id: string)
    ensures AddOnPrice(AddOns, id).Some? ==> PriceLabel(AddOnPrice(AddOns, id).value)
  {
    var p := AddOnPrice(AddOns, id);
    if p.Some? {
      var i :| 0 <= i < |AddOns| && AddOns[i].id == id && AddOns[i].price == p.value;
      TablePricesWellFormed();
    }
  }

  /** What the chosen slot is charged; 0 with no time, or a time not in the table. */
  function SlotCharge(reading: Reading, time: Option<string>): nat {
    var p := if time.Some? && time.value != "" then SlotPrice(TimeSlots, time.value) else None;
    if p.Some? then Charged(reading, p.value) else 0
  }

  /** What an add-on is charged; 0 for an id not in the table. */
  function AddOnCharge(reading: Reading, id: string): nat {
    var p := AddOnPrice(AddOns, id);
    if p.Some? then Charged(reading, p.value) else 0
  }

  /** The charges of the selected add-ons, in order. */
  function AddOnsCharge(reading: Reading, ids: seq<string>): int {
    if ids == [] then 0 else AddOnsCharge(reading, ids[..|ids| - 1]) + AddOnCharge(reading, ids[|ids| - 1])
  }

  lemma SlotTerm(reading: Reading, time: Option<string>)
    ensures BaseAmount(time, reading) == Int(SlotCharge(reading, time))
  {
    if time.Some? && time.value != "" {
      var p := SlotPrice(TimeSlots, time.value);
      SlotPriceWellFormed(time.value);
      if p.Some? {
        ReadsLabel(reading, p.value);
      } else {
        MissingPriceIsZero(reading);
      }
    }
  }

  lemma AddOnTerm(reading: Reading, id: string)
    ensures Amount(reading, AddOnPrice(AddOns, id)) == Int(AddOnCharge(reading, id))
  {
    var p := AddOnPrice(AddOns, id);
    AddOnPriceWellFormed(id);
    if p.Some? {
      ReadsLabel(reading, p.value);
    } else {
      MissingPriceIsZero(reading);
    }
  }

  lemma {:induction false} AddOnsTotal(reading: Reading, ids: seq<string>)
    ensures AddOnsAmount(ids, reading) == Int(AddOnsCharge(reading, ids))
  {
    if ids != [] {
      AddOnsTotal(reading, ids[..|ids| - 1]);
      AddOnTerm(reading, ids[|ids| - 1]);
    }
  }

  /** The slot's charge plus the add-ons' charges, for one player. */
  function Subtotal(reading: Reading, time: Option<string>, ids: seq<string>): int {
    SlotCharge(reading, time) + AddOnsCharge(reading, ids)
  }

  /** What the whole party is charged. */
  function TotalCharge(reading: Reading, time: Option<string>, ids: seq<string>, players: int): int {
    Scaled(Subtotal(reading, time, ids), players)
  }

  lemma ChargeSum(reading: Reading, time: Option<string>, ids: seq<string>)
    ensures Add(BaseAmount(time, reading), AddOnsAmount(ids, reading)) == Int(Subtotal(reading, time, ids))
  {
    AddOnsTotal(reading, ids);
    SlotTerm(reading, time);
    AddInts(BaseAmount(time, reading), AddOnsAmount(ids, reading), SlotCharge(reading, time), AddOnsCharge(reading, ids));
  }

  lemma AddInts(a: Number, b: Number, x: int, y: int)
    requires a == Int(x) && b == Int(y)
    ensures Add(a, b) == Int(x + y)
  {
  }

  /**
   * Under either reading the total is never NaN: it is the number of players
   * times the chosen slot's charge plus the charges of the selected add-ons.
   */
  lemma {:induction false} TotalPriceIsSum(reading: Reading, time: Option<string>, ids: seq<string>, players: int)
    ensures PriceWith(time, ids, players, reading)
      == Int(TotalCharge(reading, time, ids, players))
  {
    ChargeSum(reading, time, ids);
  }

  /** `generateCalendarDays()`: the fourteen days from `today` on, as day numbers. */
  method CalendarDays(today: int) returns (days: seq<int>)
    ensures |days| == 14
    ensures forall i | 0 <= i < 14 :: days[i] == today + i
  {
    days := [];
    for i := 0 to 14
      invariant |days| == i
      invariant forall j | 0 <= j < i :: days[j] == today + j
    {
      days := days + [today + i];
    }
  }

  predicate NoDuplicates(s: seq<string>) {
    forall i, j | 0 <= i < j < |s| :: s[i] != s[j]
  }

  predicate IsNot(id: string, x: string) { x != id }

  /** The add-on button: remove the id if selected, else append it. */
  function Toggled(selected: seq<string>, id: string): seq<string> {
    if id in selected then Filter(selected, x => IsNot(id, x)) else selected + [id]
  }

  lemma {:induction false} FilterNoDuplicates(s: seq<string>, id: string)
    requires NoDuplicates(s)
    ensures NoDuplicates(Filter(s, x => IsNot(id, x)))
  {
    if s != [] {
      FilterNoDuplicates(s[1..], id);
      var rest := Filter(s[1..], x => IsNot(id, x));
      FilterMembers(s[1..], x => IsNot(id, x), s[0]);
      assert s[0] !in s[1..] by {
        forall j | 0 <= j < |s[1..]| ensures s[1..][j] != s[0] {
          assert s[1..][j] == s[j + 1];
        }
      }
      if s[0] != id {
        var r := [s[0]] + rest;
        forall i, j | 0 <= i < j < |r| ensures r[i] != r[j] {
          assert r[j] == rest[j - 1];
          assert r[j] in rest;
          if i > 0 { assert r[i] == rest[i - 1]; }
        }
      }
    }
  }

  /** Toggling flips whether `id` is selected, leaves every other id as it was, and keeps the list free of repeats. */
  lemma ToggleFlips(selected: seq<string>, id: string, other: string)
    requires NoDuplicates(selected)
    ensures id in Toggled(selected, id) <==> id !in selected
    ensures other != id ==> (other in Toggled(selected, id) <==> other in selected)
    ensures NoDuplicates(Toggled(selected, id))
  {
    FilterMembers(selected, x => IsNot(id, x), id);
    FilterMembers(selected, x => IsNot(id, x), other);
    if id in selected {
      FilterNoDuplicates(selected, id);
    } else {
      var r := selected + [id];
      forall i, j | 0 <= i < j < |r| ensures r[i] != r[j] {
        if j == |selected| {
          assert r[i] == selected[i];
        }
      }
    }
  }

  /** Selecting and then deselecting an add-on gives back the list as it was. */
  lemma ToggleTwice(selected: seq<string>, id: string)
    requires id !in selected
    ensures Toggled(Toggled(selected, id), id) == selected
  {
    var r := selected + [id];
    assert id in r;
    FilterKeepsAll(selected, x => IsNot(id, x));
    FilterAppendOne(selected, id);
  }

  /**
   * Deselecting and then reselecting an add-on keeps the same set of ids but
   * moves the tapped one to the end of the list.
   */
  lemma ToggleTwiceSelected(selected: seq<string>, id: string)
    requires NoDuplicates(selected) && id in selected
    ensures Toggled(Toggled(selected, id), id) == Filter(selected, x => IsNot(id, x)) + [id]
    ensures forall x :: x in Toggled(Toggled(selected, id), id) <==> x in selected
  {
    var f := Filter(selected, x => IsNot(id, x));
    FilterMembers(selected, x => IsNot(id, x), id);
    assert Toggled(selected, id) == f;
    assert Toggled(f, id) == f + [id];
    forall x ensures x in f + [id] <==> x in selected {
      FilterMembers(selected, x => IsNot(id, x), x);
    }
  }

  lemma {:induction false} FilterAppendOne(s: seq<string>, id: string)
    ensures Filter(s + [id], x => IsNot(id, x)) == Filter(s, x => IsNot(id, x))
  {
    if s == [] {
      assert [id][1..] == [];
    } else {
      FilterAppendOne(s[1..], id);
      assert (s + [id])[1..] == s[1..] + [id];
    }
  }


  /** The state of the booking screen. Dates are day numbers. */
  class BookingPage {
    var selectedCourse: Course
    var selectedDate: int
    var players: int
    var showCalendar: bool
    var selectedTime: Option<string>
    var selectedAddOns: seq<string>
    var step: int

    ghost predicate Valid()
      reads this
    {
      && 1 <= step <= 3
      && 1 <= players <= 4
      && NoDuplicates(selectedAddOns)
      && (selectedTime.Some? ==> exists i | 0 <= i < |TimeSlots| :: TimeSlots[i].available && TimeSlots[i].time == selectedTime.value)
    }

    constructor (today: int)
      ensures Valid()
      ensures selectedCourse == Courses[0] && selectedDate == today && players == 1 && !showCalendar
      ensures selectedTime == None && selectedAddOns == [] && step == 1
    {
      selectedCourse := Courses[0];
      selectedDate := today;
      players := 1;
      showCalendar := false;
      selectedTime := None;
      selectedAddOns := [];
      step := 1;
    }

    /**
     * The amount in the summary (`totalPrice()`), as written: each label is
     * read up to its first comma, and the sum is multiplied by the players.
     */
    function Total(): (r: Number)
      reads this
      ensures r == Int(TotalCharge(AsWritten, selectedTime, selectedAddOns, players))
    {
      TotalPriceIsSum(AsWritten, selectedTime, selectedAddOns, players);
      TotalPriceAsWritten(selectedTime, selectedAddOns, players)
    }

    /** The back arrow: one step back, or `leave` (router.back()) from the first step. */
    method Back() returns (leave: bool)
      requires Valid()
      modifies this
      ensures Valid()
      ensures leave <==> old(step) == 1
      ensures step == (if old(step) > 1 then old(step) - 1 else old(step))
      ensures players == old(players) && selectedTime == old(selectedTime) && selectedAddOns == old(selectedAddOns)
      ensures selectedCourse == old(selectedCourse) && selectedDate == old(selectedDate) && showCalendar == old(showCalendar)
    {
      leave := step == 1;
      if step > 1 {
        step := step - 1;
      }
    }

    method SelectCourse(i: nat)
      requires Valid() && step == 1 && i < |Courses|
      modifies this
      ensures Valid()
      ensures selectedCourse == Courses[i]
      ensures step == old(step) && players == old(players) && selectedTime == old(selectedTime)
      ensures selectedAddOns == old(selectedAddOns) && selectedDate == old(selectedDate) && showCalendar == old(showCalendar)
    {
      selectedCourse := Courses[i];
    }

    /** "Continue" on the course step. */
    method ContinueToTime()
      requires Valid() && step == 1
      modifies this
      ensures Valid()
      ensures step == 2
      ensures players == old(players) && selectedTime == old(selectedTime) && selectedAddOns == old(selectedAddOns)
      ensures selectedCourse == old(selectedCourse) && selectedDate == old(selectedDate) && showCalendar == old(showCalendar)
    {
      step := 2;
    }

    /** The "-" player button: only above one player. */
    method FewerPlayers()
      requires Valid() && step == 2
      modifies this
      ensures Valid()
      ensures players == (if old(players) > 1 then old(players) - 1 else old(players))
      ensures step == old(step) && selectedTime == old(selectedTime) && selectedAddOns == old(selectedAddOns)
      ensures selectedCourse == old(selectedCourse) && selectedDate == old(selectedDate) && showCalendar == old(showCalendar)
    {
      if players > 1 {
        players := players - 1;
      }
    }

    /** The "+" player button: only below four players. */
    method MorePlayers()
      requires Valid() && step == 2
      modifies this
      ensures Valid()
      ensures players == (if old(players) < 4 then old(players) + 1 else old(players))
      ensures step == old(step) && selectedTime == old(selectedTime) && selectedAddOns == old(selectedAddOns)
      ensures selectedCourse == old(selectedCourse) && selectedDate == old(selectedDate) && showCalendar == old(showCalendar)
    {
      if players < 4 {
        players := players + 1;
      }
    }

    /** A tap on time slot i; a sold-out slot's button is disabled. */
    method SelectSlot(i: nat)
      requires Valid() && step == 2 && i < |TimeSlots|
      modifies this
      ensures Valid()
      ensures selectedTime == (if TimeSlots[i].available then Some(TimeSlots[i].time) else old(selectedTime))
      ensures step == old(step) && players == old(players) && selectedAddOns == old(selectedAddOns)
      ensures selectedCourse == old(selectedCourse) && selectedDate == old(selectedDate) && showCalendar == old(showCalendar)
    {
      if TimeSlots[i].available {
        selectedTime := Some(TimeSlots[i].time);
      }
    }

    /** "Continue" on the time step, disabled until a time is chosen. */
    method ContinueToAddOns()
      requires Valid() && step == 2
      modifies this
      ensures Valid()
      ensures step == (if selectedTime.Some? && selectedTime.value != "" then 3 else 2)
      ensures players == old(players) && selectedTime == old(selectedTime) && selectedAddOns == old(selectedAddOns)
      ensures selectedCourse == old(selectedCourse) && selectedDate == old(selectedDate) && showCalendar == old(showCalendar)
    {
      if selectedTime.Some? && selectedTime.value != "" {
        step := 3;
      }
    }

    /** The add-on button for table entry i. */
    method ToggleAddOn(i: nat)
      requires Valid() && step == 3 && i < |AddOns|
      modifies this
      ensures Valid()
      ensures selectedAddOns == Toggled(old(selectedAddOns), AddOns[i].id)
      ensures step == old(step) && players == old(players) && selectedTime == old(selectedTime)
      ensures selectedCourse == old(selectedCourse) && selectedDate == old(selectedDate) && showCalendar == old(showCalendar)
    {
      ToggleFlips(selectedAddOns, AddOns[i].id, AddOns[i].id);
      selectedAddOns := Toggled(selectedAddOns, AddOns[i].id);
    }

    method OpenCalendar()
      requires Valid()
      modifies this
      ensures Valid()
      ensures showCalendar
      ensures step == old(step) && players == old(players) && selectedTime == old(selectedTime)
      ensures selectedAddOns == old(selectedAddOns) && selectedCourse == old(selectedCourse) && selectedDate == old(selectedDate)
    {
      showCalendar := true;
    }

    method CloseCalendar()
      requires Valid()
      modifies this
      ensures Valid()
      ensures !showCalendar
      ensures step == old(step) && players == old(players) && selectedTime == old(selectedTime)
      ensures selectedAddOns == old(selectedAddOns) && selectedCourse == old(selectedCourse) && selectedDate == old(selectedDate)
    {
      showCalendar := false;
    }

    /** Day i of the calendar grid: the date is chosen and the calendar closes. */
    method PickDate(today: int, i: nat)
      requires Valid() && showCalendar && i < 14
      modifies this
      ensures Valid()
      ensures selectedDate == today + i && !showCalendar
      ensures step == old(step) && players == old(players) && selectedTime == old(selectedTime)
      ensures selectedAddOns == old(selectedAddOns) && selectedCourse == old(selectedCourse)
    {
      var days := CalendarDays(today);
      selectedDate := days[i];
      showCalendar := false;
    }
  }
}
