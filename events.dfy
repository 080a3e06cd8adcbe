// The events page (app/events/page.tsx): the type tabs and the filtered list.
module Events {
  import opened Js

  /** An event; the image, weather, description and type-specific extras are left out. */
  datatype Event = Event(
    id: string,
    title: string,
    date: string,
    time: string,
    location: string,
    participants: int,
    maxParticipants: int,
    kind: string)

  const EventTypes: seq<string> := ["All", "Tournament", "Social", "Training"]

  const DummyEvents: seq<Event> := [
    Event("1", "Club Championship", "Mar 15, 2024", "8:00 AM", "DLF Golf Course", 24, 32, "tournament"),
    Event("2", "Weekend Social", "Mar 16, 2024", "9:00 AM", "DLF Golf Course", 12, 16, "social"),
    Event("3", "Pro Training Session", "Mar 17, 2024", "10:00 AM", "DLF Practice Area", 5, 8, "training")
  ]

  /** The filter callback: 'All', or the event's type equals the lower-cased tab name. */
  function Keep(selected: string): Event -> bool {
    (e: Event) => selected == "All" || e.kind == ToLower(selected)
  }

  /** `filteredEvents`. */
  function FilteredEvents(events: seq<Event>, selected: string): seq<Event> {
    Filter(events, Keep(selected))
  }

  /** The 'All' tab lists every event in order. */
  lemma AllListsEverything(events: seq<Event>)
    ensures FilteredEvents(events, "All") == events
  {
    FilterKeepsAll(events, Keep("All"));
  }

  /** Any other tab lists exactly the events of its lower-cased type, in their order. */
  lemma FilteredEventsSpec(events: seq<Event>, selected: string, e: Event)
    requires selected != "All"
    ensures e in FilteredEvents(events, selected) <==> e in events && e.kind == ToLower(selected)
    ensures IsSubsequence(FilteredEvents(events, selected), events)
  {
    FilterMembers(events, Keep(selected), e);
    FilterIsSubsequence(events, Keep(selected));
  }

  /** Two tabs whose lower-cased names differ share no event. */
  lemma TabsDisjoint(events: seq<Event>, a: string, b: string, e: Event)
    requires a != "All" && b != "All" && ToLower(a) != ToLower(b)
    ensures !(e in FilteredEvents(events, a) && e in FilteredEvents(events, b))
  {
    FilteredEventsSpec(events, a, e);
    FilteredEventsSpec(events, b, e);
  }

  /** The three type tabs ('Tournament', 'Social', 'Training') share no event. */
  lemma TypeTabsDisjoint(events: seq<Event>, i: int, j: int, e: Event)
    requires 1 <= i < |EventTypes| && 1 <= j < |EventTypes| && i != j
    ensures !(e in FilteredEvents(events, EventTypes[i]) && e in FilteredEvents(events, EventTypes[j]))
  {
    var a, b := EventTypes[i], EventTypes[j];
    TypeNamesDiffer(i, j);
    assert |ToLower(a)| == |a| && |ToLower(b)| == |b|;
    TabsDisjoint(events, a, b, e);
  }

  /** The type tab names have pairwise different lengths (10, 6 and 8) and none is 'All'. */
  lemma TypeNamesDiffer(i: int, j: int)
    requires 1 <= i < |EventTypes| && 1 <= j < |EventTypes| && i != j
    ensures |EventTypes[i]| != |EventTypes[j]|
    ensures EventTypes[i] != "All" && EventTypes[j] != "All"
  {
  }

  /** The page's state: the selected tab. */
  class EventsPage {
    var selectedType: string

    constructor ()
      ensures selectedType == "All"
    {
      selectedType := "All";
    }

    method SelectType(t: string)
      modifies this
      ensures selectedType == t
    {
      selectedType := t;
    }

    function Shown(): seq<Event>
      reads this
    {
      FilteredEvents(DummyEvents, selectedType)
    }
  }
}
