// The date strip and time-of-day filter of the tee-time picker
// (app/components/booking/TeeTimeBooking.tsx).
module TeeTimeBooking {
  import opened Js

  datatype Weather = Sunny | Cloudy | Rainy

  datatype TimeSlot = TimeSlot(
    id: string,
    time: string,
    available: bool,
    weather: Weather,
    temperature: int,
    bookedCount: int,
    maxPlayers: int)

  datatype TimeOfDay = Morning | Afternoon | Evening

  /** `parseInt(slot.time.split(':')[0])`: NaN when the text before ':' has no leading number. */
  function Hour(time: string): Number {
    ParseInt(BeforeFirst(time, ':'))
  }

  /** A time written as digits, ':' and anything else reads as the number those digits spell. */
  lemma HourReadsDigits(digits: string, rest: string)
    requires |digits| > 0 && AllDigits(digits)
    ensures Hour(digits + ":" + rest) == Int(DecimalValue(digits))
  {
    assert ':' !in digits by {
      forall k | 0 <= k < |digits| ensures digits[k] != ':' {
        assert IsDigit(digits[k]);
      }
    }
    BeforeFirstStops(digits, ':', rest);
    ParseIntDigitsPrefix(digits);
    DigitRunAll(digits);
    assert digits[..|digits|] == digits;
  }

  /** The bounds tested for each tab of the switch; a NaN hour fails every comparison. */
  predicate InBucket(hour: Number, tod: TimeOfDay) {
    hour.Int? &&
    match tod
    case Morning => 6 <= hour.i < 12
    case Afternoon => 12 <= hour.i < 16
    case Evening => 16 <= hour.i < 20
  }

  /** The filter callback for the selected tab. */
  function Keep(tod: TimeOfDay): TimeSlot -> bool {
    (slot: TimeSlot) => InBucket(Hour(slot.time), tod)
  }

  /** `filteredSlots`. */
  function FilteredSlots(slots: seq<TimeSlot>, tod: TimeOfDay): seq<TimeSlot> {
    Filter(slots, Keep(tod))
  }

  /** A slot is listed exactly when it is in the list and its hour is in the tab's range; order is kept. */
  lemma FilteredSlotsSpec(slots: seq<TimeSlot>, tod: TimeOfDay, slot: TimeSlot)
    ensures slot in FilteredSlots(slots, tod) <==> slot in slots && InBucket(Hour(slot.time), tod)
    ensures IsSubsequence(FilteredSlots(slots, tod), slots)
  {
    FilterMembers(slots, Keep(tod), slot);
    FilterIsSubsequence(slots, Keep(tod));
  }

  /** No slot is listed under two different tabs. */
  lemma BucketsDisjoint(slots: seq<TimeSlot>, a: TimeOfDay, b: TimeOfDay, slot: TimeSlot)
    requires a != b
    ensures !(slot in FilteredSlots(slots, a) && slot in FilteredSlots(slots, b))
  {
    FilteredSlotsSpec(slots, a, slot);
    FilteredSlotsSpec(slots, b, slot);
  }

  /** A slot before six, from eight in the evening on, or without a readable hour is never listed. */
  lemma OutOfHoursNeverShown(slots: seq<TimeSlot>, tod: TimeOfDay, slot: TimeSlot)
    requires Hour(slot.time).NaN? || Hour(slot.time).i < 6 || Hour(slot.time).i >= 20
    ensures slot !in FilteredSlots(slots, tod)
  {
    FilteredSlotsSpec(slots, tod, slot);
  }

  /** The hours from six to eight in the evening, which some tab lists. */
  predicate InPlayingDay(slot: TimeSlot) {
    Hour(slot.time).Int? && 6 <= Hour(slot.time).i < 20
  }

  /** Together the three tabs list every slot of the playing day exactly once. */
  lemma BucketsCoverPlayingDay(slots: seq<TimeSlot>)
    ensures multiset(FilteredSlots(slots, Morning)) + multiset(FilteredSlots(slots, Afternoon))
      + multiset(FilteredSlots(slots, Evening)) == multiset(Filter(slots, InPlayingDay))
  {
    forall y: TimeSlot
      ensures (InPlayingDay(y) <==> Keep(Morning)(y) || Keep(Afternoon)(y) || Keep(Evening)(y))
        && !(Keep(Morning)(y) && Keep(Afternoon)(y)) && !(Keep(Morning)(y) && Keep(Evening)(y))
        && !(Keep(Afternoon)(y) && Keep(Evening)(y))
    {
      BucketOfHour(Hour(y.time));
    }
    FiltersSplit(slots, Keep(Morning), Keep(Afternoon), Keep(Evening), InPlayingDay);
  }

  /** An hour falls in at most one tab, and in one exactly when it lies from six to eight in the evening. */
  lemma BucketOfHour(h: Number)
    ensures InBucket(h, Morning) || InBucket(h, Afternoon) || InBucket(h, Evening) <==> h.Int? && 6 <= h.i < 20
    ensures !(InBucket(h, Morning) && InBucket(h, Afternoon))
    ensures !(InBucket(h, Morning) && InBucket(h, Evening))
    ensures !(InBucket(h, Afternoon) && InBucket(h, Evening))
  {
  }

  // ---------------------------------------------------------------------------
  // The week strip. Dates are local calendar days numbered from 1 January 1970.

  /** `getDay()`: 0 for Sunday; day 0 was a Thursday. */
  function Weekday(day: int): (w: int)
    ensures 0 <= w < 7
  {
    (day + 4) % 7
  }

  /** The Sunday that starts the week of `day`. */
  function WeekStart(day: int): (start: int)
    ensures start <= day < start + 7
    ensures Weekday(start) == 0
  {
    var q := (day + 4) / 7;
    assert day + 4 == 7 * q + Weekday(day);
    assert day - Weekday(day) + 4 == 7 * q;
    day - Weekday(day)
  }

  /**
   * `weekDates`: for each i in 0..6 copy the selected date and move it to
   * `getDate() - getDay() + i`.
   */
  method WeekDates(selected: int) returns (dates: seq<int>)
    ensures |dates| == 7
    ensures Weekday(dates[0]) == 0
    ensures forall i | 0 <= i < 7 :: dates[i] == dates[0] + i
    ensures selected in dates && dates[Weekday(selected)] == selected
    ensures forall i | 0 <= i < 7 :: dates[i] == selected <==> i == Weekday(selected)
  {
    dates := [];
    var i := 0;
    while i < 7
      invariant 0 <= i <= 7
      invariant |dates| == i
      invariant forall j | 0 <= j < i :: dates[j] == selected - Weekday(selected) + j
    {
      var date := selected;
      date := date - Weekday(date) + i;
      dates := dates + [date];
      i := i + 1;
    }
    var start := WeekStart(selected);
    assert start == selected - Weekday(selected);
    assert dates[0] == start;
    assert dates[Weekday(selected)] == selected;
  }

  /** The picker's own state: the selected tab. */
  class Picker {
    var selectedTimeOfDay: TimeOfDay

    constructor ()
      ensures selectedTimeOfDay == Morning
    {
      selectedTimeOfDay := Morning;
    }

    method SelectTimeOfDay(tod: TimeOfDay)
      modifies this
      ensures selectedTimeOfDay == tod
    {
      selectedTimeOfDay := tod;
    }

    function Shown(slots: seq<TimeSlot>): seq<TimeSlot>
      reads this
    {
      FilteredSlots(slots, selectedTimeOfDay)
    }

    /** The button of a listed slot is enabled only when the slot is available. */
    predicate Selectable(slots: seq<TimeSlot>, slot: TimeSlot)
      reads this
    {
      slot in Shown(slots) && slot.available
    }

    /** A slot that can be picked is available, is one of the slots, and fits the selected tab. */
    lemma SelectableSlot(slots: seq<TimeSlot>, slot: TimeSlot)
      ensures Selectable(slots, slot) <==>
        slot in slots && slot.available && InBucket(Hour(slot.time), selectedTimeOfDay)
    {
      FilteredSlotsSpec(slots, selectedTimeOfDay, slot);
    }
  }
}
