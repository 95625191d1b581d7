/**
 * The calendar page of the front end: an event's effective date, the four
 * filters over the fetched events, and the relative labels of a date.
 * Instants are milliseconds since the epoch; `offset` is the browser's
 * time-zone offset in milliseconds, which decides the local calendar day.
 */
module Calendar {
  import opened Common
  import opened Model

  /** An event as the page receives it. */
  datatype CalendarEvent = CalendarEvent(
    id: string, title: string, eventDate: Option<int>, dueDate: Option<int>, isCompleted: bool)

  datatype EventFilter = All | Today | Upcoming | Overdue

  /** `event.dueDate || event.eventDate`: the due date when there is one. */
  function EffectiveDate(e: CalendarEvent): (d: Option<int>)
    ensures e.dueDate.Some? ==> d == e.dueDate
    ensures e.dueDate.None? ==> d == e.eventDate
    ensures d.None? <==> e.dueDate.None? && e.eventDate.None?
  {
    if e.dueDate.Some? then e.dueDate else e.eventDate
  }

  /** The local calendar day of an instant. */
  function LocalDay(at: int, offset: int): int {
    (at + offset) / DayMs
  }

  /** The filter of `filteredEvents`. */
  predicate InView(e: CalendarEvent, f: EventFilter, now: int, offset: int) {
    if e.isCompleted && f != All then false
    else if EffectiveDate(e).None? then false
    else
      var d := EffectiveDate(e).value;
      match f
      case Today => LocalDay(d, offset) == LocalDay(now, offset)
      case Overdue => d < now && !e.isCompleted
      case Upcoming => d >= now
      case All => true
  }

  /** The events the page lists, in the order fetched. */
  function FilteredEvents(events: seq<CalendarEvent>, f: EventFilter, now: int, offset: int): (r: seq<CalendarEvent>)
    ensures IsSubsequence(r, events)
    ensures forall e :: e in r <==> e in events && InView(e, f, now, offset)
  {
    Filter(events, (e: CalendarEvent) => InView(e, f, now, offset))
  }

  /** The `days` parameter the page sends to GET /events/upcoming: one
      day under 'today', thirty under every other filter. */
  function FetchDays(f: EventFilter): (days: int)
    ensures days == 1 <==> f == Today
    ensures days == 1 || days == 30
  {
    if f == Today then 1 else 30
  }

  /** The page only ever holds events the upcoming route answered, each due
      at or after the instant of the fetch, so 'overdue' lists none of them
      at that instant. */
  lemma {:induction false} OverdueShowsNothing(events: seq<CalendarEvent>, now: int, offset: int)
    requires forall i :: 0 <= i < |events| ==> events[i].dueDate.Some? && now <= events[i].dueDate.value
    ensures FilteredEvents(events, Overdue, now, offset) == []
  {
    if events != [] {
      OverdueShowsNothing(events[1..], now, offset);
    }
  }

  /** A completed event shows under 'all' only. */
  lemma CompletedOnlyUnderAll(e: CalendarEvent, f: EventFilter, now: int, offset: int)
    requires e.isCompleted && InView(e, f, now, offset)
    ensures f == All
  {
  }

  /** An event with neither date never shows. */
  lemma UndatedNeverInView(e: CalendarEvent, f: EventFilter, now: int, offset: int)
    requires e.dueDate.None? && e.eventDate.None?
    ensures !InView(e, f, now, offset)
  {
  }

  /** 'all' shows exactly the dated events. */
  lemma AllShowsDated(e: CalendarEvent, now: int, offset: int)
    ensures InView(e, All, now, offset) <==> EffectiveDate(e).Some?
  {
  }

  /** Every open, dated event is under exactly one of 'overdue' and
      'upcoming', and every event of another filter is also under 'all'. */
  lemma OverdueUpcomingSplit(e: CalendarEvent, f: EventFilter, now: int, offset: int)
    requires !e.isCompleted && EffectiveDate(e).Some?
    ensures InView(e, Overdue, now, offset) != InView(e, Upcoming, now, offset)
    ensures InView(e, f, now, offset) ==> InView(e, All, now, offset)
  {
  }

  /** An event due later today is under both 'today' and 'upcoming'. */
  lemma TodayMeetsUpcoming(e: CalendarEvent, now: int, offset: int)
    requires !e.isCompleted && e.dueDate == Some(now)
    ensures InView(e, Today, now, offset) && InView(e, Upcoming, now, offset)
  {
  }

  /** The label of a date: `format(date, 'MMM d, yyyy')` for days other
      than today and tomorrow is kept as the instant itself. */
  datatype DateLabel = NoDate | OnToday | OnTomorrow | OnDay(at: int)
  {
    function Text(): string
      requires !OnDay?
    {
      match this
      case NoDate => "No date"
      case OnToday => "Today"
      case OnTomorrow => "Tomorrow"
    }
  }

  /** `formatDate`. */
  function FormatDate(d: Option<int>, now: int, offset: int): (l: DateLabel)
    ensures d.None? <==> l == NoDate
    ensures l == OnToday <==> d.Some? && LocalDay(d.value, offset) == LocalDay(now, offset)
    ensures l == OnTomorrow <==> d.Some? && LocalDay(d.value, offset) == LocalDay(now, offset) + 1
    ensures l.OnDay? ==> d == Some(l.at)
  {
    if d.None? then NoDate
    else if LocalDay(d.value, offset) == LocalDay(now, offset) then OnToday
    else if LocalDay(d.value, offset) == LocalDay(now, offset) + 1 then OnTomorrow
    else OnDay(d.value)
  }

  /** Every event the 'today' filter shows is labelled "Today". */
  lemma TodayShowsTodayLabel(e: CalendarEvent, now: int, offset: int)
    requires InView(e, Today, now, offset)
    ensures FormatDate(EffectiveDate(e), now, offset).Text() == "Today"
  {
  }

  /** An instant a whole day after another falls on the next local day. */
  lemma {:induction false} NextDayIsTomorrow(now: int, offset: int)
    ensures FormatDate(Some(now + DayMs), now, offset) == OnTomorrow
  {
    var a := now + offset;
    assert (a + DayMs) / DayMs == a / DayMs + 1 by {
      var q := a / DayMs;
      var r := a % DayMs;
      assert a == q * DayMs + r && 0 <= r < DayMs;
      assert a + DayMs == (q + 1) * DayMs + r;
    }
  }
}
