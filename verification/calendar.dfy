/** The list logic of the calendar page (`src/pages/CalendarPage.tsx`): the
    "upcoming events" panel, the two cost totals, and the three edits the
    page makes to its event list (delete, edit, add). "Today" is a
    parameter: the page reads the clock and truncates it to midnight. */
module Calendar {
  import opened Wrappers
  import opened Seqs
  import opened Domain

  datatype EventType = Market | Expenditure | Meeting | Other

  datatype CalendarEvent = CalendarEvent(
    id: string,
    title: string,
    date: Day,
    time: Option<string>,
    kind: EventType,
    description: Option<string>,
    cost: Option<real>,
    location: Option<string>)

  /** What the event dialog hands back on submit. */
  datatype EventFormData = EventFormData(
    title: string,
    date: Day,
    time: Option<string>,
    kind: EventType,
    description: Option<string>,
    cost: Option<real>,
    location: Option<string>)

  function EventId(e: CalendarEvent): string { e.id }

  /** `initialEvents`, the list the page starts with. */
  function InitialEvents(): (s: seq<CalendarEvent>)
    ensures |s| == 4
    ensures Unique(s, EventId)
  {
    [ CalendarEvent("1", "Farmers Market - Downtown", CivilDay(2025, 5, 30), Some("08:00"), Market,
                    Some("Weekly farmers market booth"), Some(45.0), Some("Downtown Square")),
      CalendarEvent("2", "Packaging Supplies", CivilDay(2025, 6, 2), None, Expenditure,
                    Some("Honey jars and labels"), Some(150.0), None),
      CalendarEvent("3", "Organic Market - Westside", CivilDay(2025, 6, 5), Some("09:00"), Market,
                    Some("Monthly organic market"), Some(60.0), Some("Westside Community Center")),
      CalendarEvent("4", "Equipment Maintenance", CivilDay(2025, 6, 8), None, Expenditure,
                    Some("Honey extractor servicing"), Some(200.0), None) ]
  }

  /* ------------------------------------------------------ upcoming events */

  /** How many events the upcoming panel shows at most (`slice(0, 5)`). */
  const UpcomingLimit := 5

  function OnOrAfter(today: Day): CalendarEvent -> bool {
    (e: CalendarEvent) => e.date >= today
  }

  ghost predicate SortedByDate(s: seq<CalendarEvent>) {
    forall i, j :: 0 <= i < j < |s| ==> s[i].date <= s[j].date
  }

  /** Puts `x` into a date-sorted list ahead of every event not earlier than
      it, so that among equal dates the earlier-inserted event comes first. */
  function InsertByDate(x: CalendarEvent, s: seq<CalendarEvent>): (r: seq<CalendarEvent>)
    requires SortedByDate(s)
    ensures SortedByDate(r)
    ensures multiset(r) == multiset(s) + multiset{x}
    ensures |r| == |s| + 1
    ensures r[0] == x || (|s| > 0 && r[0] == s[0])
    decreases |s|
  {
    if |s| == 0 || x.date <= s[0].date then [x] + s
    else
      assert s == [s[0]] + s[1..];
      var rest := InsertByDate(x, s[1..]);
      assert s[0].date <= rest[0].date;
      [s[0]] + rest
  }

  /** `sort((a, b) => a.date - b.date)`: a stable sort by date. */
  function SortByDate(s: seq<CalendarEvent>): (r: seq<CalendarEvent>)
    ensures SortedByDate(r)
    ensures multiset(r) == multiset(s)
    ensures |r| == |s|
    decreases |s|
  {
    if |s| == 0 then []
    else
      assert s == [s[0]] + s[1..];
      InsertByDate(s[0], SortByDate(s[1..]))
  }

  /** The events from today on, earliest first, at most five of them. */
  function UpcomingEvents(events: seq<CalendarEvent>, today: Day): (r: seq<CalendarEvent>)
    ensures |r| <= UpcomingLimit
    ensures forall i :: 0 <= i < |r| ==> r[i].date >= today
    ensures SortedByDate(r)
    ensures multiset(r) <= multiset(events)
  {
    var qualifying := Filter(events, OnOrAfter(today));
    var sorted := SortByDate(qualifying);
    var r := Take(sorted, UpcomingLimit);
    FilterSubMultiset(events, OnOrAfter(today));
    QualifyingAreOnOrAfter(events, today);
    PermutationKeepsLowerBound(qualifying, sorted, today);
    TakeOfSorted(sorted, UpcomingLimit);
    assert multiset(r) <= multiset(sorted) == multiset(qualifying);
    r
  }

  /** Every event the filter keeps is dated today or later. */
  lemma QualifyingAreOnOrAfter(events: seq<CalendarEvent>, today: Day)
    ensures forall x :: x in Filter(events, OnOrAfter(today)) ==> x.date >= today
  {
    forall x | x in Filter(events, OnOrAfter(today))
      ensures x.date >= today
    {
      assert OnOrAfter(today)(x);
    }
  }

  /** A rearrangement of events dated `today` or later has only such events. */
  lemma PermutationKeepsLowerBound(a: seq<CalendarEvent>, b: seq<CalendarEvent>, today: Day)
    requires multiset(a) == multiset(b)
    requires forall x :: x in a ==> x.date >= today
    ensures forall i :: 0 <= i < |b| ==> b[i].date >= today
  {
    forall i | 0 <= i < |b|
      ensures b[i].date >= today
    {
      assert b[i] in multiset(b);
      assert b[i] in a;
    }
  }

  /** A prefix of a sorted list is sorted. */
  lemma TakeOfSorted(s: seq<CalendarEvent>, n: nat)
    requires SortedByDate(s)
    ensures SortedByDate(Take(s, n))
  {
    var r := Take(s, n);
    forall i, j | 0 <= i < j < |r|
      ensures r[i].date <= r[j].date
    {
      assert r[i] == s[i] && r[j] == s[j];
    }
  }

  /** The panel shows the earliest qualifying events: if some event dated
      today or later was left out, the panel is full and nothing in it is
      later than the left-out event. */
  lemma UpcomingAreEarliest(events: seq<CalendarEvent>, today: Day, e: CalendarEvent)
    ensures e.date >= today && multiset(UpcomingEvents(events, today))[e] < multiset(events)[e] ==>
              && |UpcomingEvents(events, today)| == UpcomingLimit
              && forall x :: x in UpcomingEvents(events, today) ==> x.date <= e.date
  {
    var r := UpcomingEvents(events, today);
    if e.date >= today && multiset(r)[e] < multiset(events)[e] {
      var sorted := SortByDate(Filter(events, OnOrAfter(today)));
      assert r == Take(sorted, UpcomingLimit);
      assert multiset(sorted)[e] == multiset(events)[e];
      LeftOutIsNoEarlier(sorted, UpcomingLimit, e);
    }
  }

  /** Cutting a date-sorted list to its first `n` events: an event that lost
      an occurrence in the cut means the list was longer than `n`, and every
      event kept is dated no later than it. */
  lemma LeftOutIsNoEarlier(sorted: seq<CalendarEvent>, n: nat, e: CalendarEvent)
    requires SortedByDate(sorted)
    requires multiset(Take(sorted, n))[e] < multiset(sorted)[e]
    ensures |Take(sorted, n)| == n
    ensures forall x :: x in Take(sorted, n) ==> x.date <= e.date
  {
    var r := Take(sorted, n);
    CutLosesFromTail(sorted, n, e);
    var j :| n <= j < |sorted| && sorted[j] == e;
    forall x | x in r
      ensures x.date <= e.date
    {
      var i :| 0 <= i < |r| && r[i] == x;
      assert sorted[i] == x && i < j;
    }
  }

  /** An event that lost an occurrence when a list was cut to its first `n`
      elements occurs after position `n`. */
  lemma CutLosesFromTail(s: seq<CalendarEvent>, n: nat, e: CalendarEvent)
    requires multiset(Take(s, n))[e] < multiset(s)[e]
    ensures |s| > n
    ensures exists j :: n <= j < |s| && s[j] == e
  {
    var r := Take(s, n);
    assert |s| <= n ==> r == s;
    assert r == s[..n];
    var rest := s[n..];
    assert s == r + rest;
    assert multiset(s) == multiset(r) + multiset(rest);
    assert e in multiset(rest);
    var k :| 0 <= k < |rest| && rest[k] == e;
    assert s[n + k] == e;
  }

  /** With at most five qualifying events, every one of them is shown. */
  lemma UpcomingShowsAllWhenFew(events: seq<CalendarEvent>, today: Day)
    requires |Filter(events, OnOrAfter(today))| <= UpcomingLimit
    ensures multiset(UpcomingEvents(events, today)) == multiset(Filter(events, OnOrAfter(today)))
    ensures forall e :: e in events && e.date >= today ==> e in UpcomingEvents(events, today)
  {
    var r := UpcomingEvents(events, today);
    assert r == SortByDate(Filter(events, OnOrAfter(today)));
    forall e | e in events && e.date >= today
      ensures e in r
    {
      assert e in Filter(events, OnOrAfter(today));
      assert e in multiset(r);
    }
  }

  /* ---------------------------------------------------------- cost totals */

  /** `event.type === kind && event.cost`: a cost counts when the event has
      that type and its cost is present and non-zero (both `undefined` and 0
      are falsy). */
  function CostCounts(kind: EventType): CalendarEvent -> bool {
    (e: CalendarEvent) => e.kind == kind && e.cost.Some? && e.cost.value != 0.0
  }

  /** `event.cost || 0`. */
  function CostOrZero(e: CalendarEvent): real {
    e.cost.GetOr(0.0)
  }

  /** Filter the counting events, then add up their costs. */
  function TotalCost(events: seq<CalendarEvent>, kind: EventType): real {
    SumOf(Filter(events, CostCounts(kind)), CostOrZero)
  }

  function TotalMarketCosts(events: seq<CalendarEvent>): real {
    TotalCost(events, Market)
  }

  function TotalExpenditures(events: seq<CalendarEvent>): real {
    TotalCost(events, Expenditure)
  }

  /** What one event adds to the total for `kind`: its cost if it has that
      type and a cost, nothing otherwise. */
  function ShareOf(kind: EventType): CalendarEvent -> real {
    (e: CalendarEvent) => if e.kind == kind then e.cost.GetOr(0.0) else 0.0
  }

  /** The filter-then-reduce total is the plain sum of every event's share:
      events of other types and events without a cost contribute nothing. */
  lemma TotalCostIsSumOfShares(events: seq<CalendarEvent>, kind: EventType)
    ensures TotalCost(events, kind) == SumOf(events, ShareOf(kind))
  {
    SumFilter(events, CostCounts(kind), CostOrZero, ShareOf(kind));
  }

  /** Adding an event raises a total by exactly that event's share. */
  lemma TotalCostAppend(events: seq<CalendarEvent>, kind: EventType, e: CalendarEvent)
    ensures TotalCost(events + [e], kind) == TotalCost(events, kind) + ShareOf(kind)(e)
  {
    TotalCostIsSumOfShares(events + [e], kind);
    TotalCostIsSumOfShares(events, kind);
    SumConcat(events, [e], ShareOf(kind));
    assert [e][1..] == [];
  }

  lemma SumFour(a: CalendarEvent, b: CalendarEvent, c: CalendarEvent, d: CalendarEvent,
                f: CalendarEvent -> real)
    ensures SumOf([a] + [b] + [c] + [d], f) == f(a) + f(b) + f(c) + f(d)
  {
    SumConcat([a] + [b] + [c], [d], f);
    SumConcat([a] + [b], [c], f);
    SumConcat([a], [b], f);
    assert [a][1..] == [] && [b][1..] == [] && [c][1..] == [] && [d][1..] == [];
  }

  /** On the initial list: market costs 45 + 60, expenditures 150 + 200. */
  lemma InitialTotals()
    ensures TotalMarketCosts(InitialEvents()) == 105.0
    ensures TotalExpenditures(InitialEvents()) == 350.0
  {
    InitialTotal(Market, 45.0, 0.0, 60.0, 0.0);
    InitialTotal(Expenditure, 0.0, 150.0, 0.0, 200.0);
  }

  /** The total for `kind` over the initial list, from the four events'
      shares. */
  lemma InitialTotal(kind: EventType, a: real, b: real, c: real, d: real)
    requires ShareOf(kind)(InitialEvents()[0]) == a && ShareOf(kind)(InitialEvents()[1]) == b
    requires ShareOf(kind)(InitialEvents()[2]) == c && ShareOf(kind)(InitialEvents()[3]) == d
    ensures TotalCost(InitialEvents(), kind) == a + b + c + d
  {
    var s := InitialEvents();
    assert s == [s[0]] + [s[1]] + [s[2]] + [s[3]];
    TotalCostIsSumOfShares(s, kind);
    SumFour(s[0], s[1], s[2], s[3], ShareOf(kind));
  }

  /* ---------------------------------------------------------- list edits */

  function LacksId(id: string): CalendarEvent -> bool {
    (e: CalendarEvent) => e.id != id
  }

  /** `handleDeleteEvent(id)`: every event with that id goes, every other
      event stays (order is stated by `DeleteEventLaws`). */
  function DeleteEvent(events: seq<CalendarEvent>, id: string): (r: seq<CalendarEvent>)
    ensures forall e {:trigger multiset(r)[e]} ::
              multiset(r)[e] == (if e.id == id then 0 else multiset(events)[e])
    ensures forall i :: 0 <= i < |r| ==> r[i].id != id
  {
    var r := Filter(events, LacksId(id));
    assert forall i :: 0 <= i < |r| ==> r[i] in r;
    r
  }

  /** Deleting keeps order (it distributes over concatenation), deleting the
      same id again changes nothing, deleting an absent id changes nothing,
      and ids stay unique. */
  lemma DeleteEventLaws(a: seq<CalendarEvent>, b: seq<CalendarEvent>, id: string)
    ensures DeleteEvent(a + b, id) == DeleteEvent(a, id) + DeleteEvent(b, id)
    ensures DeleteEvent(DeleteEvent(a, id), id) == DeleteEvent(a, id)
    ensures Fresh(a, EventId, id) ==> DeleteEvent(a, id) == a
    ensures Unique(a, EventId) ==> Unique(DeleteEvent(a, id), EventId)
  {
    FilterConcat(a, b, LacksId(id));
    FilterIdempotent(a, LacksId(id));
    if Fresh(a, EventId, id) {
      FilterKeepsAll(a, LacksId(id));
    }
    if Unique(a, EventId) {
      UniqueFilter(a, EventId, LacksId(id));
    }
  }

  /** The event a submit produces: the form's fields under the given id, with
      an empty title replaced by 'Untitled Event'. */
  function MakeEvent(id: string, data: EventFormData): (e: CalendarEvent)
    ensures e.id == id && e.title != ""
    ensures data.title == "" ==> e.title == "Untitled Event"
    ensures data.title != "" ==> e.title == data.title
    ensures e.date == data.date && e.time == data.time && e.kind == data.kind
    ensures e.description == data.description && e.cost == data.cost
    ensures e.location == data.location
  {
    CalendarEvent(id, if data.title == "" then "Untitled Event" else data.title,
                  data.date, data.time, data.kind, data.description, data.cost, data.location)
  }

  function HasId(id: string): CalendarEvent -> bool {
    (e: CalendarEvent) => e.id == id
  }

  /** `handleSubmitEvent(data)`: when editing, every event carrying the edited
      event's id is replaced, in place, by the new data under that id; when
      adding, the new event is appended under the fresh id. */
  function SubmitEvent(events: seq<CalendarEvent>, editing: Option<CalendarEvent>,
                       freshId: string, data: EventFormData): (r: seq<CalendarEvent>)
    ensures editing.None? ==>
              |r| == |events| + 1 && r[..|events|] == events &&
              r[|events|] == MakeEvent(freshId, data)
    ensures editing.Some? ==>
              && |r| == |events|
              && (forall i :: 0 <= i < |r| ==> r[i].id == events[i].id)
              && (forall i :: 0 <= i < |r| && events[i].id != editing.value.id ==> r[i] == events[i])
              && (forall i :: 0 <= i < |r| && events[i].id == editing.value.id ==>
                    r[i] == MakeEvent(editing.value.id, data))
  {
    if editing.Some? then
      var id := editing.value.id;
      ReplaceWhere(events, HasId(id), MakeEvent(id, data))
    else
      events + [MakeEvent(freshId, data)]
  }

  /** Submitting the same edit twice gives the same list as submitting it
      once, for any list, duplicate ids included; an edit keeps unique ids
      unique, and so does an add under a fresh id. */
  lemma SubmitEventLaws(events: seq<CalendarEvent>, editing: Option<CalendarEvent>,
                        freshId: string, data: EventFormData)
    ensures editing.Some? ==>
              SubmitEvent(SubmitEvent(events, editing, freshId, data), editing, freshId, data)
                == SubmitEvent(events, editing, freshId, data)
    ensures Unique(events, EventId) && (editing.None? ==> Fresh(events, EventId, freshId)) ==>
              Unique(SubmitEvent(events, editing, freshId, data), EventId)
  {
    var r := SubmitEvent(events, editing, freshId, data);
    if editing.Some? {
      var r2 := SubmitEvent(r, editing, freshId, data);
      forall i | 0 <= i < |r|
        ensures r2[i] == r[i]
      {
        assert r[i].id == events[i].id;
      }
      if Unique(events, EventId) {
        forall i, j | 0 <= i < j < |r|
          ensures EventId(r[i]) != EventId(r[j])
        {
          assert EventId(events[i]) != EventId(events[j]);
        }
      }
    } else if Unique(events, EventId) && Fresh(events, EventId, freshId) {
      UniqueAppend(events, EventId, MakeEvent(freshId, data));
    }
  }
}
