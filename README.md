# Golf club app: the client logic, modelled and proved in Dafny

This project models the client-side logic of a golf club web app. The app is
a set of React pages and components. Each page keeps its state in hooks and
updates it from button handlers. The model covers:

- the live scoring page: per-hole scores, the round summary, the stroke and
  putt steppers, the greens-in-regulation rule, auto-saving a hole, the
  friends' simulated scores and the sorted leaderboard;
- the three-step tee-time booking wizard and its price total;
- the tee-time picker with its morning, afternoon and evening tabs;
- the game set-up page;
- the shop, events and friends lists with their filters;
- the social and club feeds, with their like, bookmark and read-more toggles;
- the deal cards, the leaderboard card, the scorecard entry panel and the
  stats overview.

Each core source file is one module:

| module | file | models |
|---|---|---|
| `Js` | `js.dfy` | the JavaScript built-ins the pages use |
| `Theme` | `theme.dfy` | colours and the vs-par label |
| `ScoreRound` | `score_round.dfy` | the scoring page |
| `BookingWizard` | `booking_wizard.dfy` | the booking wizard |
| `TeeTimeBooking` | `tee_time_booking.dfy` | the tee-time picker |
| `GameSetup` | `game_setup.dfy` | the set-up page |
| `Shop` | `shop.dfy` | the shop page |
| `Events` | `events.dfy` | the events page |
| `Friends` | `friends.dfy` | the friends page |
| `ClubFeed` | `club_feed.dfy` | the club feed |
| `SocialFeedCard` | `social_feed_card.dfy` | the social post card |
| `FriendsFeedCard` | `friends_feed_card.dfy` | the friends feed card |
| `FeedCard` | `feed_card.dfy` | the feed picture grid |
| `LikeSet` | `like_set.dfy` | the copied `Set` of liked ids |
| `ProShopDeals` | `pro_shop_deals.dfy` | the deals list |
| `ProShopDealsCard` | `pro_shop_deals_card.dfy` | the home-page deals card |
| `LeaderboardCard` | `leaderboard_card.dfy` | one leaderboard row |
| `ScorecardEntry` | `scorecard_entry.dfy` | the scorecard entry panel |
| `StatsOverview` | `stats_overview.dfy` | the stats overview |

The `Js` built-ins are:

- `parseInt` with leading white space, a sign and decimal digits;
- ASCII `toLowerCase` and `toUpperCase`;
- `String.prototype.includes`;
- `Array.prototype.filter`;
- `+` on numbers that may be `NaN`;
- `x || 0` on a property that may be `undefined`.

How values and state are modelled:

- **State.** A component's state becomes the fields of a class, and each
  handler becomes a method that reassigns those fields. The methods are
  proved against specification functions, and the lemmas are about those
  functions.
- **Numbers.** A JavaScript number is modelled as `Int(i) | NaN`. Every
  number the code computes is an integer, or is NaN when it adds or
  subtracts `undefined`.
- **Missing properties.** A property that may be absent is a
  `Field<T> = Missing | Present(T)`.
- **Randomness.** `Math.random()` becomes a parameter:
  - `rolls` on `GoToNextHole`, one draw per friend, standing for
    `Math.floor(Math.random() * 3)`;
  - `pick` on the default-image choice.
- **Dates and the clock.** They are day numbers or millisecond counts supplied
  by the caller. `new Date()` is the caller's `today` or `nowMs`.

## Model

| member | source | states |
|---|---|---|
| `ScoreRound.TotalScoreIsSum` | app/play/score/page.tsx:137 | The `totalScore` fold over holes 1..n is a number exactly when every recorded hole's strokes are a number; it then equals the sum of the per-hole stroke counts. |
| `ScoreRound.TotalScore` | app/play/score/page.tsx:137 | The `totalScore` fold over the entries; `TotalScoreIsSum` states when it is a number and that it is then the sum of the stroke counts. |
| `ScoreRound.TotalPutts` | app/play/score/page.tsx:138 | The `totalPutts` fold, the same fold over the putt counts. |
| `ScoreRound.VsParIsTotalLessPar` | app/play/score/page.tsx:143-146 | The summary's vs-par figure is a number exactly when every recorded stroke count is one; it then equals total strokes less the par of the recorded holes only. |
| `ScoreRound.VsParTotal` | app/play/score/page.tsx:143-146 | The `vsParTotal` fold, which subtracts each entry's par from its strokes; `VsParIsTotalLessPar` gives its value. |
| `ScoreRound.RecordedIsKeyCount` | app/play/score/page.tsx:486 | The number of recorded holes among 1..n equals the number of keys of the score map in that range (`Object.keys(scores).length`). |
| `ScoreRound.Current` | app/play/score/page.tsx:128-134 | `scores[h] \|\| {…}`: the entry of hole h, or the default record (0 strokes, 0 putts, no fairway, no GIR, empty notes) when there is none. |
| `ScoreRound.CountBelowRecorded` | app/play/score/page.tsx:139-140 | For either yes/no stat, the count of entries that count never exceeds the number of recorded holes. |
| `ScoreRound.SummaryCountsBounded` | app/play/score/page.tsx:484-498 | The "Fairways Hit" and "GIR" numerators never exceed the denominator `Object.keys(scores).length`. |
| `ScoreRound.FairwaysHit` | app/play/score/page.tsx:139 | The number of entries whose fairway flag is true; `SummaryCountsExact` states it. |
| `ScoreRound.GreensInReg` | app/play/score/page.tsx:140 | The number of entries whose GIR flag is true; `SummaryCountsExact` states it. |
| `ScoreRound.CountEntriesIsKeyCount` | app/play/score/page.tsx:139-140 | A tally over holes 1..n equals the number of score-map keys in that range whose entry it tallies. |
| `ScoreRound.SummaryCountsExact` | app/play/score/page.tsx:139-140 | When every key is a hole, "Fairways Hit" is exactly the number of entries with `fairwayHit` true and "GIR" the number with `gir` true. |
| `ScoreRound.PersonalCard` | app/play/score/page.tsx:157-159 | Your card through hole h has h entries; entry i is the stroke count of hole i+1, or 0 when there is none. |
| `ScoreRound.Prefix` | app/play/score/page.tsx:173 | `slice(0, n)`: the first min(n, length) entries. |
| `ScoreRound.VsParOfIsSumLessPar` | app/play/score/page.tsx:175 | The per-slot vs-par fold equals the sum of the slots less the par of as many holes. |
| `ScoreRound.Row` | app/play/score/page.tsx:171-176 | A leaderboard row keeps id, name and holes, cuts the card to the first h entries, and recomputes the total as their sum and the vs-par as that sum less the par of those holes. |
| `ScoreRound.Personal` | app/play/score/page.tsx:149-167 | Your own entry is named "You" and has exactly h card entries. |
| `ScoreRound.Rows` | app/play/score/page.tsx:170-176 | The rows are each friend's row in order, followed by your row. |
| `ScoreRound.AllScores` | app/play/score/page.tsx:170-182 | `allScores`: the rows sorted by card total; the `Leaderboard` lemma states what it holds. |
| `ScoreRound.InsertSorted` | app/play/score/page.tsx:177-182 | Inserting a player into a list sorted by card total keeps it sorted. |
| `ScoreRound.SortByKey` | app/play/score/page.tsx:177-182 | The `.sort` by card total, as a stable insertion sort; `SortByKeySorted` and `SortByKeyStable` state its result. |
| `ScoreRound.InsertPermutes` | app/play/score/page.tsx:177-182 | Insertion adds exactly that player to the multiset. |
| `ScoreRound.SortByKeySorted` | app/play/score/page.tsx:177-182 | The sort's result is ordered by card total and is a permutation of its input. |
| `ScoreRound.InsertStable` | app/play/score/page.tsx:177-182 | Insertion places the new player after every already-sorted player with the same total. |
| `ScoreRound.SortByKeyStable` | app/play/score/page.tsx:177-182 | The sort is stable: the players with any one total keep their input order. |
| `ScoreRound.Leaderboard` | app/play/score/page.tsx:170-182 | The leaderboard is sorted by total and is a permutation of the rows. Every row's total is the sum of its at most h card entries. You come last among the players tied with you. |
| `ScoreRound.ScoringPage.Leaderboard` | app/play/score/page.tsx:170-182 | The page's `allScores` over its current state: `AllScores` of the friends, the scores and the current hole. |
| `ScoreRound.YouLastAmongTies` | app/play/score/page.tsx:170 | Before sorting, your row is the last row with your total. |
| `ScoreRound.LeaderLabelHidesUnderPar` | app/play/score/page.tsx:439 | As written, the leaderboard label for one under par is "E", the same as for level par. |
| `ScoreRound.LeaderVsParLabel` | app/play/score/page.tsx:439 | The leaderboard label as written: "E" for every total at or under par, "+n" above; `LeaderLabelHidesUnderPar` is the finding about it. |
| `ScoreRound.ScoreColour` | app/play/score/page.tsx:271-278 | Purple for two or more under par, emerald for one under, white at par, yellow for one over, red for more, each exactly. |
| `ScoreRound.ScoreColourMonotone` | app/play/score/page.tsx:271-278 | More strokes never give a better colour. |
| `ScoreRound.GirRuleCases` | app/play/score/page.tsx:196 | GIR is false at or above par, true two or more under, and true one under exactly when putts are 2. A NaN stroke count never gives GIR. |
| `ScoreRound.GirRule` | app/play/score/page.tsx:196 | `value <= par - 2 \|\| value === par - 1 && putts === 2`, false for a NaN stroke count; `GirRuleCases` states its cases. |
| `ScoreRound.Apply` | app/play/score/page.tsx:185-191 | `{...prev[currentHole], [field]: value}`: one field of the entry replaced, the others kept. |
| `ScoreRound.Edited` | app/play/score/page.tsx:184-205 | The edited hole gets the new field value and keeps every other field it had (a hole without an entry starts with none). For strokes, GIR is recomputed from the new value, par and the putts on screen; any other edit leaves the strokes as they were, and GIR changes only under the GIR toggle. |
| `ScoreRound.StepDown` | app/play/score/page.tsx:519 | The "−" stepper gives `Math.max(0, x - 1)`: a number at least 0 when x is one, NaN when x is missing. |
| `ScoreRound.StepUp` | app/play/score/page.tsx:531 | The "+" stepper gives `(x \|\| 0) + 1`. |
| `ScoreRound.StepperBounds` | app/play/score/page.tsx:519-556 | The steppers never go below 0. "−" lowers a positive value by one and sends 0 or less to 0. On a missing value "−" gives NaN and "+" gives 1. |
| `ScoreRound.ControlEdit` | app/play/score/page.tsx:515-605 | The edit each stepper and toggle button sends: the stepped strokes or putts, or the negated fairway or GIR flag. |
| `ScoreRound.AutoSaved` | app/play/score/page.tsx:210-221 | Auto-saving adds only the current hole's key, or changes nothing. |
| `ScoreRound.AutoSavedEntry` | app/play/score/page.tsx:210-221 | A hole with truthy strokes is kept. Otherwise it is saved with strokes = par, putts 2 and GIR false, and keeps the shown fairway and notes. Every other hole is untouched. |
| `ScoreRound.FriendStrokes` | app/play/score/page.tsx:227 | A friend's simulated score always lies in par−1..par+2; for a draw 0..2 it is par plus the draw. |
| `ScoreRound.AdvancedFriend` | app/play/score/page.tsx:224-245 | Advancing a friend changes only the current hole's slot, to a value within par−1..par+2. It moves the friend to the next hole, through this one. The totals cover the first h slots. |
| `ScoreRound.Advanced` | app/play/score/page.tsx:226-243 | One friend after the `prev.map` callback; `AdvancedFriend` states what changes. |
| `ScoreRound.AdvancedAll` | app/play/score/page.tsx:224-245 | Every friend is advanced, in order. |
| `ScoreRound.AdvanceOne` | app/play/score/page.tsx:226-243 | The array copy, the write of one slot and the two folds give exactly the advanced friend. |
| `ScoreRound.AdvanceFriends` | app/play/score/page.tsx:224-245 | The `prev.map` loop gives exactly every friend advanced, and keeps every card full. |
| `ScoreRound.RetreatedFriend` | app/play/score/page.tsx:255-264 | Going back keeps a friend's card, recomputes the totals over the first h−1 slots and moves the friend to hole h−1. |
| `ScoreRound.Retreated` | app/play/score/page.tsx:257-262 | One friend after the going-back callback; `RetreatedFriend` states what changes. |
| `ScoreRound.RetreatedAll` | app/play/score/page.tsx:255-264 | Every friend is moved back, in order. |
| `ScoreRound.ScoringPage.constructor` | app/play/score/page.tsx:120-126 | The page starts at hole 1 with the mock scores and the dummy friends. |
| `ScoreRound.ScoringPage.CurrentScore` | app/play/score/page.tsx:128-134 | `currentScore`: `Current` of the page's scores at the current hole, the record `Press`, `UpdateScore` and `GoToNextHole` read. |
| `ScoreRound.ScoringPage.UpdateScore` | app/play/score/page.tsx:184-205 | Only the current hole's entry changes, to the edited entry. |
| `ScoreRound.ScoringPage.Press` | app/play/score/page.tsx:515-605 | A stepper or toggle button stores its computed value through `updateScore`. |
| `ScoreRound.ScoringPage.EditNotes` | app/play/score/page.tsx:676 | The notes box stores its text on the current hole. |
| `ScoreRound.ScoringPage.GoToNextHole` | app/play/score/page.tsx:207-250 | Before the last hole: auto-save, advance every friend, move to the next hole. On the last hole nothing changes. |
| `ScoreRound.ScoringPage.GoToPrevHole` | app/play/score/page.tsx:252-269 | After the first hole: move every friend back and go to the previous hole. The scores never change. |
| `Theme.VsParLabelFaithful` | app/play/score/page.tsx:439 | The corrected label is "E" exactly at level par. Any other label reads back as its value through `parseInt`. Distinct values give distinct labels. |
| `Theme.LabelNumeric` | app/play/score/page.tsx:439 | A non-zero vs-par label parses back to its value. |
| `Theme.VsParLabel` | app/play/score/page.tsx:439 | The corrected label of the first finding: "E" at 0, "+n" above par, "-n" below; `VsParLabelFaithful` and `LabelNumeric` state it. |
| `BookingWizard.SlotPrice` | app/play/book/page.tsx:80 | `timeSlots.find(...)?.price` is undefined exactly when no slot has that time, and otherwise is the price of the first such slot. |
| `BookingWizard.AddOnPrice` | app/play/book/page.tsx:82 | `addOns.find(...)?.price` is undefined exactly when no add-on has that id, and otherwise is the price of the first add-on with that id, the one `find` returns. |
| `BookingWizard.Times` | app/play/book/page.tsx:85 | Multiplying by the player count keeps NaN as NaN and multiplies a number. |
| `BookingWizard.TablePricesWellFormed` | app/play/book/page.tsx:44-56 | Every slot and add-on price is "₹" followed by digits and commas. |
| `BookingWizard.ReadsLabel` | app/play/book/page.tsx:80-83 | A well-formed label reads as a whole number. As written, that number is the leading digits up to the comma. Corrected, it is all the digits. |
| `BookingWizard.LabelAmount` | app/play/book/page.tsx:80-83 | `parseInt(price.replace('₹', '') \|\| '0')`, the reading as written; `ReadsLabel` and `AsWrittenStopsAtComma` state its value. |
| `BookingWizard.CorrectedAmount` | app/play/book/page.tsx:80-83 | The corrected reading, with the commas removed too; `ReadsLabel` states that it takes every digit. |
| `BookingWizard.ReadingsAgreeWithoutComma` | app/play/book/page.tsx:80-83 | A label without a comma reads the same under both readings. |
| `BookingWizard.MissingPriceIsZero` | app/play/book/page.tsx:80-83 | A missing price reads as 0 (`\|\| '0'`). |
| `BookingWizard.AsWrittenStopsAtComma` | app/play/book/page.tsx:80 | As written, "₹" + a + "," + b reads as the value of the digits a alone. |
| `BookingWizard.TwoThousandFiveHundred` | app/play/book/page.tsx:45 | The first slot's price label holds the digits of 2500. |
| `BookingWizard.LeadingTwo` | app/play/book/page.tsx:45 | As written, the first slot's label reads as 2. |
| `BookingWizard.SixOClockCharge` | app/play/book/page.tsx:79-86 | For the 06:00 slot, one player and no add-ons, the total is 2 as written and 2500 corrected. |
| `BookingWizard.SlotPriceWellFormed` | app/play/book/page.tsx:80 | Any slot price that is found is a well-formed label. |
| `BookingWizard.AddOnPriceWellFormed` | app/play/book/page.tsx:82 | Any add-on price that is found is a well-formed label. |
| `BookingWizard.SlotTerm` | app/play/book/page.tsx:80 | The slot part of the total is the chosen slot's charge, or 0 with no slot. |
| `BookingWizard.AddOnTerm` | app/play/book/page.tsx:82-83 | One add-on's part is its charge, or 0 for an unknown id. |
| `BookingWizard.AddOnsTotal` | app/play/book/page.tsx:81-84 | The `reduce` over the selected ids is the sum of their charges and is never NaN. |
| `BookingWizard.ChargeSum` | app/play/book/page.tsx:80-84 | Slot part plus add-on part is the subtotal. |
| `BookingWizard.TotalPriceIsSum` | app/play/book/page.tsx:79-86 | Under either reading, the total is the slot charge plus the selected add-ons' charges, times the players. |
| `BookingWizard.TotalPriceAsWritten` | app/play/book/page.tsx:79-86 | `totalPrice()` as written, with each label read up to its first comma; `TotalPriceIsSum` gives its value. |
| `BookingWizard.TotalPrice` | app/play/book/page.tsx:79-86 | The corrected total of the second finding, with every digit of each label read; `TotalPriceIsSum` gives its value. |
| `BookingWizard.CalendarDays` | app/play/book/page.tsx:68-77 | The calendar lists 14 consecutive days starting today. |
| `BookingWizard.ToggleFlips` | app/play/book/page.tsx:309-315 | The add-on toggle flips the tapped id's membership, keeps every other id, and keeps the list free of duplicates. |
| `BookingWizard.Toggled` | app/play/book/page.tsx:309-315 | The add-on toggle: filter the id out when selected, append it otherwise; `ToggleFlips` states its effect. |
| `BookingWizard.ToggleTwice` | app/play/book/page.tsx:309-315 | Tapping an unselected add-on twice restores the list exactly. |
| `BookingWizard.ToggleTwiceSelected` | app/play/book/page.tsx:309-315 | Tapping a selected add-on twice keeps the same ids and moves the tapped one to the end: the other ids in order, then it. |
| `BookingWizard.BookingPage.constructor` | app/play/book/page.tsx:60-66 | The wizard starts at step 1 with the first course, today, one player, no slot, no add-ons and the calendar closed. |
| `BookingWizard.BookingPage.Back` | app/play/book/page.tsx:94 | The back arrow goes one step back, or reports leaving the page from step 1. Nothing else changes. |
| `BookingWizard.BookingPage.SelectCourse` | app/play/book/page.tsx:132 | Picking a course changes only the course. |
| `BookingWizard.BookingPage.ContinueToTime` | app/play/book/page.tsx:169 | "Continue" on step 1 goes to step 2. |
| `BookingWizard.BookingPage.FewerPlayers` | app/play/book/page.tsx:215 | "−" lowers the player count only above 1. |
| `BookingWizard.BookingPage.MorePlayers` | app/play/book/page.tsx:223 | "+" raises the player count only below 4. |
| `BookingWizard.BookingPage.SelectSlot` | app/play/book/page.tsx:242-243 | Only an available slot can become the selected time. A disabled one changes nothing. |
| `BookingWizard.BookingPage.ContinueToAddOns` | app/play/book/page.tsx:280-281 | "Continue" on step 2 goes to step 3 only with a time selected. |
| `BookingWizard.BookingPage.ToggleAddOn` | app/play/book/page.tsx:309-315 | An add-on tap toggles that id in the selection. |
| `BookingWizard.BookingPage.OpenCalendar` | app/play/book/page.tsx:191 | The date button opens the calendar. |
| `BookingWizard.BookingPage.CloseCalendar` | app/play/book/page.tsx:395 | The close button closes it. |
| `BookingWizard.BookingPage.PickDate` | app/play/book/page.tsx:413-416 | Picking day i sets the date to today + i and closes the calendar. |
| `BookingWizard.BookingPage.Total` | app/play/book/page.tsx:350 | The summary's "Total Amount" is the total as written: the slot charge plus the add-on charges, each label read up to its first comma, times the players. |
| `TeeTimeBooking.HourReadsDigits` | app/components/booking/TeeTimeBooking.tsx:46 | The hour read from "HH:…" is the value of the digits before the colon. |
| `TeeTimeBooking.Hour` | app/components/booking/TeeTimeBooking.tsx:46 | `parseInt(slot.time.split(':')[0])`; `HourReadsDigits` gives its value. |
| `TeeTimeBooking.FilteredSlotsSpec` | app/components/booking/TeeTimeBooking.tsx:45-57 | A slot is listed exactly when it is in the list and its hour falls in the tab's range. The listing keeps the list's order. |
| `TeeTimeBooking.FilteredSlots` | app/components/booking/TeeTimeBooking.tsx:45-57 | `filteredSlots`, the filter by the tab's hour range; `FilteredSlotsSpec` states what it keeps. |
| `TeeTimeBooking.BucketOfHour` | app/components/booking/TeeTimeBooking.tsx:47-55 | An hour is in some tab exactly when it is a number in 6..19, and in at most one tab. |
| `TeeTimeBooking.BucketsDisjoint` | app/components/booking/TeeTimeBooking.tsx:47-55 | Two different tabs never list the same slot. |
| `TeeTimeBooking.OutOfHoursNeverShown` | app/components/booking/TeeTimeBooking.tsx:47-55 | A slot before 6:00, from 20:00, or with an unreadable hour is in no tab. |
| `TeeTimeBooking.BucketsCoverPlayingDay` | app/components/booking/TeeTimeBooking.tsx:45-57 | Together the three tabs list exactly the slots of the playing day, each once. |
| `TeeTimeBooking.Weekday` | app/components/booking/TeeTimeBooking.tsx:41 | `getDay()` is in 0..6. |
| `TeeTimeBooking.WeekStart` | app/components/booking/TeeTimeBooking.tsx:41 | The week's Sunday is a Sunday and lies within the six days before the given day. |
| `TeeTimeBooking.WeekDates` | app/components/booking/TeeTimeBooking.tsx:39-43 | Seven consecutive days from a Sunday. The selected day is among them, at the index of its weekday and only there. |
| `TeeTimeBooking.Picker.constructor` | app/components/booking/TeeTimeBooking.tsx:36 | The picker opens on the morning tab. |
| `TeeTimeBooking.Picker.SelectTimeOfDay` | app/components/booking/TeeTimeBooking.tsx:104-130 | A tab button selects that tab. |
| `TeeTimeBooking.Picker.SelectableSlot` | app/components/booking/TeeTimeBooking.tsx:151-152 | A slot can be chosen exactly when it is listed under the current tab and is available. |
| `GameSetup.Fewer` | app/play/setup/page.tsx:239 | `Math.max(1, n - 1)`: n−1 above 1, else 1. |
| `GameSetup.More` | app/play/setup/page.tsx:249 | `Math.min(4, n + 1)`: n+1 below 4, else 4. |
| `GameSetup.SteppersStayInRange` | app/play/setup/page.tsx:239-251 | From 1..4 both buttons stay in 1..4, and each undoes the other away from the bounds. |
| `GameSetup.PlayersLabelReads` | app/play/setup/page.tsx:232 | The label ends in "s" exactly above one player and begins with the count. |
| `GameSetup.PlayersLabel` | app/play/setup/page.tsx:232 | The count, " Player", and "s" above one; `PlayersLabelReads` states its form. |
| `GameSetup.SetupPage.constructor` | app/play/setup/page.tsx:96-99 | The first course, the white tee, one player and the first format. |
| `GameSetup.SetupPage.PressFewer` | app/play/setup/page.tsx:239 | "−" sets the count to `Fewer` of it and keeps it in 1..4. It does nothing when disabled. |
| `GameSetup.SetupPage.PressMore` | app/play/setup/page.tsx:249 | "+" sets the count to `More` of it and keeps it in 1..4. It does nothing when disabled. |
| `GameSetup.SetupPage.FewerDisabled` | app/play/setup/page.tsx:241 | `disabled={playerCount <= 1}`: the "−" button is disabled at one player or fewer. |
| `GameSetup.SetupPage.MoreDisabled` | app/play/setup/page.tsx:251 | `disabled={playerCount >= 4}`: the "+" button is disabled at four players or more. |
| `GameSetup.SetupPage.SelectCourse` | app/play/setup/page.tsx:150 | Choosing a course changes only the course. |
| `GameSetup.SetupPage.SelectTee` | app/play/setup/page.tsx:202 | Choosing a tee changes only the tee colour. |
| `GameSetup.SetupPage.SelectFormat` | app/play/setup/page.tsx:276 | Choosing a format changes only the format. |
| `Shop.FilteredProductsSpec` | app/shop/page.tsx:107-110 | A product is listed exactly when it is in the catalogue, fits the tab, and its lower-cased title contains the lower-cased query. The listing keeps the catalogue's order. |
| `Shop.FilteredProducts` | app/shop/page.tsx:107-110 | `filteredProducts`, the filter by tab and search text; `FilteredProductsSpec` states what it keeps. |
| `Shop.AllWithEmptyQuery` | app/shop/page.tsx:107-110 | The 'all' tab with an empty query lists the whole catalogue in order. |
| `Shop.TabKeepsItsCategory` | app/shop/page.tsx:108 | Under a category tab every listed product has that category. |
| `Shop.SearchIgnoresCase` | app/shop/page.tsx:109 | Lower-casing both the title and the query at once changes no match. |
| `Shop.CatalogueBadges` | app/shop/page.tsx:267-272 | Every catalogue product shows the discount badge. The driver and the polo show "New"; the balls do not. |
| `Shop.ShowsDiscount` | app/shop/page.tsx:267 | The discount badge shows for a positive discount. |
| `Shop.ShowsNewBadge` | app/shop/page.tsx:272 | The "New" badge shows for a product marked new. |
| `Shop.ShopPage.constructor` | app/shop/page.tsx:104-105 | The 'all' tab and an empty query. |
| `Shop.ShopPage.SetCategory` | app/shop/page.tsx:235 | A tab click changes only the tab. |
| `Shop.ShopPage.SetSearchQuery` | app/shop/page.tsx:207 | Typing changes only the query. |
| `Events.AllListsEverything` | app/events/page.tsx:66-68 | The 'All' tab lists every event in order. |
| `Events.FilteredEventsSpec` | app/events/page.tsx:66-68 | Any other tab lists exactly the events whose type is the lower-cased tab name, in order. |
| `Events.FilteredEvents` | app/events/page.tsx:66-68 | `filteredEvents`; `AllListsEverything` and `FilteredEventsSpec` state what it keeps. |
| `Events.TabsDisjoint` | app/events/page.tsx:66-68 | Tabs whose lower-cased names differ share no event. |
| `Events.TypeTabsDisjoint` | app/events/page.tsx:16 | The three type tabs share no event. |
| `Events.EventsPage.constructor` | app/events/page.tsx:64 | The page starts on 'All'. |
| `Events.EventsPage.SelectType` | app/events/page.tsx:181 | A tab click selects that tab. |
| `Friends.RankArrow` | app/friends/page.tsx:393-396 | An up arrow exactly for a positive rank change, a down arrow exactly for a negative one, none at 0. |
| `Friends.RecentScoreColour` | app/friends/page.tsx:407 | Emerald exactly when the recent score is at most par, white otherwise. |
| `Friends.AllKeepsEverything` | app/friends/page.tsx:250-252 | The 'all' filter keeps every challenge in order. |
| `Friends.FilteredChallengesSpec` | app/friends/page.tsx:250-252 | A status filter keeps exactly the challenges of that status, in order. |
| `Friends.FilteredChallenges` | app/friends/page.tsx:250-252 | `filteredChallenges`; `AllKeepsEverything` and `FilteredChallengesSpec` state what it keeps. |
| `Friends.StatusFiltersPartition` | app/friends/page.tsx:250-252 | The three status filters together hold every challenge exactly once. |
| `Friends.Capitalised` | app/friends/page.tsx:503 | First letter upper-cased, the rest kept. |
| `Friends.Captions` | app/friends/page.tsx:492-503 | The filter buttons read "All", "Active", "Upcoming" and "Completed". |
| `Friends.FriendsPage.constructor` | app/friends/page.tsx:247-248 | The leaderboard tab and the 'all' filter. |
| `Friends.FriendsPage.SelectTab` | app/friends/page.tsx:347 | A tab click changes only the tab. |
| `Friends.FriendsPage.SelectFilter` | app/friends/page.tsx:496 | A filter click changes only the filter. |
| `ClubFeed.LikedPost` | app/components/feed/ClubFeed.tsx:103-107 | The flag flips, the count drops by one if it was liked and rises by one otherwise, and nothing else changes. |
| `ClubFeed.Liked` | app/components/feed/ClubFeed.tsx:100-111 | Same length and order. The posts with that id are liked-toggled; every other post is unchanged. |
| `ClubFeed.LikeTwice` | app/components/feed/ClubFeed.tsx:100-111 | Liking the same post twice restores the list exactly. |
| `ClubFeed.LikeKeepsTally` | app/components/feed/ClubFeed.tsx:106 | The count less the viewer's own like stays the same for every post. |
| `ClubFeed.ScoreCardColour` | app/components/feed/ClubFeed.tsx:191-198 | The score card shows exactly on a score post with a score. Its number is emerald exactly at or under par, white otherwise. |
| `ClubFeed.Feed.constructor` | app/components/feed/ClubFeed.tsx:96-98 | The sample posts, the composer closed, the message kind. |
| `ClubFeed.Feed.HandleLike` | app/components/feed/ClubFeed.tsx:100-111 | The posts become their liked-toggled list; the composer is untouched. |
| `ClubFeed.Feed.OpenComposer` | app/components/feed/ClubFeed.tsx:128-150 | A composer button sets the kind and opens the sheet. |
| `ClubFeed.Feed.CloseComposer` | app/components/feed/ClubFeed.tsx:257 | Closing the sheet keeps the kind and the posts. |
| `SocialFeedCard.DefaultImages` | app/components/home/SocialFeedCard.tsx:28-79 | Each post type has three stock pictures. |
| `SocialFeedCard.SelectedImage` | app/components/home/SocialFeedCard.tsx:267-276 | A given, non-empty picture is used at 800×600. Otherwise one of the type's stock pictures is used. |
| `SocialFeedCard.SelectedAvatar` | app/components/home/SocialFeedCard.tsx:278-287 | A given, non-empty avatar is used at 200×200. Otherwise one of the stock avatars is used. |
| `SocialFeedCard.ChoiceIgnoresPickWhenGiven` | app/components/home/SocialFeedCard.tsx:256-287 | A given picture does not depend on the random draw, and every choice has the fixed size. |
| `SocialFeedCard.Tapped` | app/components/home/SocialFeedCard.tsx:231-233 | A heart tap flips the flag and moves the count by one in the same direction. |
| `SocialFeedCard.TappedTwice` | app/components/home/SocialFeedCard.tsx:231-233 | Two taps restore flag and count. |
| `SocialFeedCard.Card.constructor` | app/components/home/SocialFeedCard.tsx:160-165 | Not liked, not bookmarked, not expanded, with the initial likes. |
| `SocialFeedCard.Card.HandleLike` | app/components/home/SocialFeedCard.tsx:231-233 | Flag and count become their tapped values; bookmark and expansion are kept. |
| `SocialFeedCard.Card.HandleBookmark` | app/components/home/SocialFeedCard.tsx:252-254 | Only the bookmark flag flips. |
| `SocialFeedCard.Card.ToggleReadMore` | app/components/home/SocialFeedCard.tsx:510-518 | On a post of more than 100 characters, "Read more" / "Show less" flips only the expansion. |
| `SocialFeedCard.Card.ShowsReadMore` | app/components/home/SocialFeedCard.tsx:510 | The read-more control renders only for content longer than 100 characters. |
| `FriendsFeedCard.AtMostOneBlock` | app/components/home/FriendsFeedCard.tsx:110-146 | An item shows at most one of the score, achievement and photo blocks; a milestone shows none. |
| `FriendsFeedCard.ShowsScoreCard` | app/components/home/FriendsFeedCard.tsx:110 | The score block shows for a score item with a set, non-zero score. |
| `FriendsFeedCard.ShowsPhoto` | app/components/home/FriendsFeedCard.tsx:146 | The picture shows for a photo item with a non-empty image. |
| `FriendsFeedCard.ShowsAchievementCard` | app/components/home/FriendsFeedCard.tsx:125 | The achievement block shows for an achievement item that carries an achievement. |
| `FriendsFeedCard.DisplayedLikes` | app/components/home/FriendsFeedCard.tsx:170 | The count shown is one more than the stored count exactly when liked. |
| `FriendsFeedCard.TapMovesCountByOne` | app/components/home/FriendsFeedCard.tsx:43-53 | A tap moves the shown count by one and stays within likes..likes+1. Two taps restore it. |
| `FriendsFeedCard.FeedCard.constructor` | app/components/home/FriendsFeedCard.tsx:41 | No item is liked. |
| `FriendsFeedCard.FeedCard.HandleLike` | app/components/home/FriendsFeedCard.tsx:43-53 | The state becomes a new set with that id toggled; the old set is left as it was. |
| `LikeSet.StringSet.Empty` | app/components/home/FriendsFeedCard.tsx:41 | `new Set()` has no elements. |
| `LikeSet.StringSet.Copy` | app/components/home/FriendsFeedCard.tsx:45 | `new Set(prev)` is a new set with the same elements. |
| `LikeSet.StringSet.Add` | app/components/home/FriendsFeedCard.tsx:49 | `add` inserts exactly that id. |
| `LikeSet.StringSet.Delete` | app/components/home/FriendsFeedCard.tsx:47 | `delete` removes exactly that id. |
| `LikeSet.ToggleFlips` | app/components/home/FriendsFeedCard.tsx:45-51 | A toggle flips the id and keeps every other id. |
| `LikeSet.ToggleTwice` | app/components/home/FriendsFeedCard.tsx:43-53 | Two toggles of the same id restore the set. |
| `LikeSet.TogglesCommute` | app/components/home/ProShopDealsCard.tsx:82-92 | Toggles of two ids may be done in either order. |
| `LikeSet.ToggledCopy` | app/components/home/ProShopDealsCard.tsx:83-91 | Copying, then deleting or adding, gives a fresh set equal to the old one toggled, and leaves the old one unchanged. |
| `ProShopDealsCard.DealsCard.constructor` | app/components/home/ProShopDealsCard.tsx:79-80 | No deal liked and none hovered. |
| `ProShopDealsCard.DealsCard.HoverStart` | app/components/home/ProShopDealsCard.tsx:143 | Hovering a deal marks it hovered. |
| `ProShopDealsCard.DealsCard.HoverEnd` | app/components/home/ProShopDealsCard.tsx:144 | Leaving clears the hover. |
| `ProShopDealsCard.DealsCard.HandleLike` | app/components/home/ProShopDealsCard.tsx:181-194 | The heart, shown only on the hovered deal, toggles that id in a fresh set and keeps the hover. |
| `ProShopDealsCard.DealsCard.ShowsActions` | app/components/home/ProShopDealsCard.tsx:181 | `hoveredDeal === deal.id`: the like and share buttons render only on the hovered deal. |
| `ProShopDeals.CeilDiv` | app/components/shop/ProShopDeals.tsx:95 | `Math.ceil(x / d)` is the least n with x ≤ n·d. |
| `ProShopDeals.DaysRemaining` | app/components/shop/ProShopDeals.tsx:94-97 | The days left are never negative: 0 for a past or unparsable end, otherwise the number of started days until it. |
| `ProShopDeals.DaysRemainingMonotone` | app/components/shop/ProShopDeals.tsx:94-97 | A later end never shows fewer days, and a later clock never shows more. |
| `ProShopDeals.LowStockDeals` | app/components/shop/ProShopDeals.tsx:157 | Of the listed deals only the driver shows "Only N left". |
| `ProShopDeals.ShowsLowStock` | app/components/shop/ProShopDeals.tsx:157 | "Only N left" shows for a stock that is set, non-zero and below 10. |
| `LeaderboardCard.Movement` | app/components/leaderboard/LeaderboardCard.tsx:49-53 | A down marker exactly when the previous rank was smaller, up exactly when larger, none when equal. |
| `LeaderboardCard.MovementReverses` | app/components/leaderboard/LeaderboardCard.tsx:49-53 | Swapping the two ranks swaps up and down. |
| `LeaderboardCard.AvatarOf` | app/components/leaderboard/LeaderboardCard.tsx:58-68 | The photo exactly when a non-empty picture is given. Otherwise the first letter of the name, or nothing for an empty name. |
| `FeedCard.Columns` | app/components/feed/FeedCard.tsx:69-74 | One column exactly for one picture, otherwise two. |
| `FeedCard.Tiles` | app/components/feed/FeedCard.tsx:75-93 | At most four tiles showing the first pictures in order. Only the first is tall. It spans both columns exactly with three pictures. An overlay sits on the fourth exactly when more than four pictures exist, and counts the rest. |
| `FeedCard.ImageGrid` | app/components/feed/FeedCard.tsx:67 | The grid exists exactly for a present, non-empty list. |
| `FeedCard.GridAccountsForEveryPicture` | app/components/feed/FeedCard.tsx:67-93 | Every picture is shown or counted by the overlay. There are 1..4 tiles, and a single column exactly with a single tile. |
| `ScorecardEntry.Or` | app/components/scoring/ScorecardEntry.tsx:103 | `x \|\| fallback`: x when set and non-zero, else the fallback. |
| `ScorecardEntry.Press` | app/components/scoring/ScorecardEntry.tsx:95-149 | Each button sends exactly its request. Score "−" and putts "−" send nothing on an unset value. "+" starts from par or 1. The toggles send the negated flag. |
| `ScorecardEntry.PlusUndoesMinus` | app/components/scoring/ScorecardEntry.tsx:95-125 | "+" after "−" restores a score or putt count other than 1. A second flag press restores the flag. |
| `ScorecardEntry.TapTouchesOneField` | app/components/scoring/ScorecardEntry.tsx:95-149 | A button changes only its own field. |
| `ScorecardEntry.Tap` | app/components/scoring/ScorecardEntry.tsx:95-149 | A button tap: the request `Press` sends, stored by the parent, or nothing; `TapTouchesOneField` and `PlusUndoesMinus` state its effect. |
| `ScorecardEntry.ScoreColour` | app/components/scoring/ScorecardEntry.tsx:37-43 | Emerald under par, white at par, yellow one over, red two or more over, each exactly. |
| `ScorecardEntry.ScoreColourMonotone` | app/components/scoring/ScorecardEntry.tsx:37-43 | More strokes never give a better colour. |
| `ScorecardEntry.HeaderScore` | app/components/scoring/ScorecardEntry.tsx:68-72 | The header shows the score, in its colour, exactly when it is set. |
| `ScorecardEntry.StepperText` | app/components/scoring/ScorecardEntry.tsx:100 | "-" exactly when unset; otherwise text that reads back as the value. |
| `ScorecardEntry.DashIsNaN` | app/components/scoring/ScorecardEntry.tsx:100 | The placeholder "-" does not read as a number. |
| `ScorecardEntry.Entry.constructor` | app/components/scoring/ScorecardEntry.tsx:35 | The panel starts collapsed. |
| `ScorecardEntry.Entry.ToggleExpanded` | app/components/scoring/ScorecardEntry.tsx:55 | The header tap flips the expansion. |
| `StatsOverview.ScoreColour` | app/components/stats/StatsOverview.tsx:73-78 | Emerald under par, white at par, red over, each exactly. |
| `StatsOverview.ScoreLabel` | app/components/stats/StatsOverview.tsx:80-84 | "E" exactly at par. Otherwise the text starts with "+" over par and "-" under par, and reads back as the difference. |
| `StatsOverview.ScoreLabelInjective` | app/components/stats/StatsOverview.tsx:80-84 | Two rounds get the same label exactly when they are the same distance from par. |
| `StatsOverview.Scores` | app/components/stats/StatsOverview.tsx:86 | The mapped scores, one per round, in order. |
| `StatsOverview.MaxScore` | app/components/stats/StatsOverview.tsx:86 | `Math.max`: an element at least every element. |
| `StatsOverview.MinScore` | app/components/stats/StatsOverview.tsx:87 | `Math.min`: an element at most every element. |
| `StatsOverview.ScoreRange` | app/components/stats/StatsOverview.tsx:88 | The range is non-negative, bounds every difference of two scores, and is reached by one. |
| `StatsOverview.RecentRange` | app/components/stats/StatsOverview.tsx:37-43 | Over the five recent rounds the scores span 70 to 75, a range of 5. |
| `Js.ParseIntDigitsPrefix` | app/play/book/page.tsx:80 | `parseInt` of a string that starts with a digit reads the digit run. |
| `Js.ParseIntOfIntToString` | app/play/score/page.tsx:439 | `parseInt(String(n))` is n. |
| `Js.IncludesIff` | app/shop/page.tsx:109 | `includes` holds exactly when the query occurs at some position. |
| `Js.FilterMembers` | app/shop/page.tsx:107-110 | A filter keeps exactly the members that pass. |
| `Js.Find` | app/play/book/page.tsx:80-82 | `find`: undefined exactly when no element passes, and otherwise the first element that passes. |
| `Js.FilterIsSubsequence` | app/events/page.tsx:66-68 | A filter keeps the input's order. |
| `Js.FiltersPartition` | app/friends/page.tsx:250-252 | Filters by pairwise exclusive tests that together cover a condition split the filter by that condition. |

## Left out

- Animation, styling and navigation are left out. This covers `framer-motion` props, Tailwind classes, `router.push` and `router.back`. `handleStartRound` on the set-up page is only a `router.push`. The back arrow of the wizard returns `leave` instead of navigating.
- The heart animation of the social card is left out. It appends DOM nodes on timers. The mouse-tracking and parallax handlers are left out too.
- `Math.random()` is not modelled. Its draws are the parameters `rolls` and `pick`.
- `new Date()` and date parsing are left out. Dates are day numbers, and the clock is a millisecond count supplied by the caller. `getDay()` is computed from a day number: weekday 0 is Sunday, and day number 0 is a Thursday.
- Decimal values are left out because they are floating point. This covers course ratings, handicaps, average scores, product ratings, the chart heights of the stats overview and the price display `/ 100`.
- `Math.max` and `Math.min` over an empty list (−Infinity and Infinity) are not modelled. The recent-round list is a non-empty constant.
- `content.length` is counted in characters, not UTF-16 code units.
- `toLowerCase` and `toUpperCase` change only ASCII letters.
- `parseInt` does not model the `0x` prefix, because no price or time uses one.
- The algorithm behind `.sort` is not modelled. It is modelled as a stable insertion sort keyed on the card total. Only its result is specified: sorted, a permutation, and stable, as ES2019 requires.
- These settings are not modelled because they only pick a style or hold static data: the stats overview's timeframe setting, the category colour and event gradient switches, and the map, notes, stats and friends panel flags of the scoring page.
- The `expandedItem` state of the friends feed card is declared but never read or set, so it is not modelled. The `onLike` callbacks into parent components are not modelled either.
- A stroke count at par never sets GIR: the rule is `value <= par - 2 || value === par - 1 && putts === 2` (app/play/score/page.tsx:196), as `ScoreRound.GirRuleCases` states.
- The vs-par fold subtracts par for an entry whose strokes are undefined, which makes the total NaN (app/play/score/page.tsx:143-146); `ScoreRound.VsParIsTotalLessPar` states when the result is a number.
- ScoreRound.Personal: states only the name and the card length. The other fields are covered through `ScoreRound.Row`, which recomputes them, because the leaderboard only shows the recomputed values.
- SocialFeedCard.DefaultImages: states only that each type has three pictures. The URLs are constant data.
- StatsOverview.RecentRange: holds for the constant recent-round list only. The chart's use of the range, a division, is floating point.
- Shop.CatalogueBadges and ProShopDeals.LowStockDeals: the badge rules are predicates whose bodies are the source's conditions. These lemmas evaluate them on the constant catalogue.

## Findings

| source | as written | input that shows it | evidently intended | confidence | as-written member | corrected member |
|---|---|---|---|---|---|---|
| app/play/score/page.tsx:439 | `player.vsParTotal <= 0 ? 'E' : '+' + player.vsParTotal`: every total at or under par reads "E" | vsParTotal = −1 reads "E", the same as level par | "E" at level par only, and the signed value otherwise | not executed | `ScoreRound.LeaderLabelHidesUnderPar` | `Theme.VsParLabelFaithful` |
| app/play/book/page.tsx:80, 83 | `parseInt(price.replace('₹', '') \|\| '0')` stops at the thousands comma | the 06:00 slot, "₹2,500", one player and no add-ons gives a total of 2 | strip the commas too and charge 2500 | not executed | `BookingWizard.SixOClockCharge` | `BookingWizard.TotalPriceIsSum` |

In the first finding:

- `ScoreRound.LeaderVsParLabel` is the label as written.
- `Theme.VsParLabel` is the corrected label. It is "E" only at 0, "+n" above par and "-n" below.

In the second finding:

- `BookingWizard.TotalPriceAsWritten` reads the label up to the comma. `BookingWizard.AsWrittenStopsAtComma` proves that reading stops at the comma.
- `BookingWizard.TotalPrice` is the corrected total. The booking page's summary (`BookingWizard.BookingPage.Total`) shows the total as written, as the code does. `BookingWizard.ReadsLabel` proves that the corrected reading takes every digit of the label.
