/**
 * The calendar entity's view of the agenda: converting one agenda record
 * to a calendar event, the next upcoming event, and the events whose begin
 * falls in a requested range. Instants are integers (microseconds), and
 * `parse_datetime` with its time-zone stripping is a parameter `parse`
 * that returns `None` for text that is not a date-time.
 */
module Calendar {
  import opened Wrappers
  import opened Seqs
  import opened Sorting
  import opened Records

  /** `timedelta(hours=1)` in microseconds. */
  const OneHour := 3_600_000_000

  datatype CalendarEvent = CalendarEvent(start: int, end: int, summary: string, description: string)

  /** A key holding text Python treats as true: present and non-empty. */
  predicate Present(s: Option<string>) {
    s.Some? && s.value != ""
  }

  /** `notes or subjectDesc or evtCode or "Event"`. */
  function Summary(raw: AgendaEvent): (r: string)
    ensures r != ""
    ensures Present(raw.notes) ==> r == raw.notes.value
    ensures !Present(raw.notes) && Present(raw.subjectDesc) ==> r == raw.subjectDesc.value
    ensures !Present(raw.notes) && !Present(raw.subjectDesc) && Present(raw.evtCode) ==> r == raw.evtCode.value
    ensures !Present(raw.notes) && !Present(raw.subjectDesc) && !Present(raw.evtCode) ==> r == "Event"
  {
    if Present(raw.notes) then raw.notes.value else OrElse(raw.subjectDesc, raw.evtCode, "Event")
  }

  /** The three-line description: teacher, subject and notes, each "" when the key is missing. */
  function Description(raw: AgendaEvent): string {
    "Teacher: " + raw.authorName.GetOr("") + "\nSubject: " + raw.subjectDesc.GetOr("")
      + "\nNotes: " + raw.notes.GetOr("")
  }

  /**
   * `_raw_to_event`: no event unless both begin and end are present and
   * parse; an end not after the start is replaced by the start plus one hour.
   */
  function RawToEvent(raw: AgendaEvent, parse: string -> Option<int>): (r: Option<CalendarEvent>)
    ensures r.None? <==>
      || !Present(raw.evtDatetimeBegin) || !Present(raw.evtDatetimeEnd)
      || parse(raw.evtDatetimeBegin.value).None? || parse(raw.evtDatetimeEnd.value).None?
    ensures r.Some? ==>
      && r.value.start == parse(raw.evtDatetimeBegin.value).value
      && r.value.start < r.value.end
      && (parse(raw.evtDatetimeEnd.value).value > r.value.start ==> r.value.end == parse(raw.evtDatetimeEnd.value).value)
      && (parse(raw.evtDatetimeEnd.value).value <= r.value.start ==> r.value.end == r.value.start + OneHour)
      && r.value.summary == Summary(raw)
      && r.value.description == Description(raw)
  {
    if !Present(raw.evtDatetimeBegin) || !Present(raw.evtDatetimeEnd) then None
    else
      var start, end := parse(raw.evtDatetimeBegin.value), parse(raw.evtDatetimeEnd.value);
      if start.None? || end.None? then None
      else
        var stop := if end.value <= start.value then start.value + OneHour else end.value;
        Some(CalendarEvent(start.value, stop, Summary(raw), Description(raw)))
  }

  /** `parse_datetime(raw.get("evtDatetimeBegin", ""))`. */
  function BeginOf(raw: AgendaEvent, parse: string -> Option<int>): Option<int> {
    parse(raw.evtDatetimeBegin.GetOr(""))
  }

  /** The parsed begin of a record whose begin parses (0 otherwise; only used where it parses). */
  function StartOf(raw: AgendaEvent, parse: string -> Option<int>): int {
    BeginOf(raw, parse).GetOr(0)
  }

  // ---------------------------------------------------------------------
  // The next upcoming event
  // ---------------------------------------------------------------------

  /** The begin parses and is not before `now`. */
  predicate IsUpcoming(raw: AgendaEvent, parse: string -> Option<int>, now: int) {
    BeginOf(raw, parse).Some? && BeginOf(raw, parse).value >= now
  }

  /**
   * With a `parse` that rejects the empty text, as `parse_datetime` does, a
   * record is upcoming exactly when its begin is present, parses, and is not
   * before `now`: a record without a begin is never upcoming.
   */
  lemma UpcomingNeedsBegin(raw: AgendaEvent, parse: string -> Option<int>, now: int)
    requires parse("") == None
    ensures IsUpcoming(raw, parse, now) <==>
      Present(raw.evtDatetimeBegin) && parse(raw.evtDatetimeBegin.value).Some?
      && parse(raw.evtDatetimeBegin.value).value >= now
  {
  }

  function UpcomingOf(parse: string -> Option<int>, now: int): AgendaEvent -> bool {
    (raw: AgendaEvent) => IsUpcoming(raw, parse, now)
  }

  /** The `(begin, raw)` pair the loop collects. */
  function Stamp(parse: string -> Option<int>): AgendaEvent -> (int, AgendaEvent) {
    (raw: AgendaEvent) => (StartOf(raw, parse), raw)
  }

  /** The sort key `t[0]`. */
  function PairBegin(): ((int, AgendaEvent)) -> int {
    (t: (int, AgendaEvent)) => t.0
  }

  /** The upcoming pairs in agenda order. */
  function UpcomingPairs(agenda: seq<AgendaEvent>, parse: string -> Option<int>, now: int): seq<(int, AgendaEvent)> {
    Map(Keep(agenda, UpcomingOf(parse, now)), Stamp(parse))
  }

  /** The `event` property: the head of the upcoming pairs sorted by begin, converted. */
  function NextEventOf(agenda: seq<AgendaEvent>, parse: string -> Option<int>, now: int): Option<CalendarEvent> {
    var upcoming := UpcomingPairs(agenda, parse, now);
    if upcoming == [] then None else RawToEvent(Sort(upcoming, ByKey(PairBegin()))[0].1, parse)
  }

  /** The loop of the `event` property: the upcoming records with their begins, in agenda order. */
  method CollectUpcoming(agenda: seq<AgendaEvent>, parse: string -> Option<int>, now: int)
    returns (upcoming: seq<(int, AgendaEvent)>)
    ensures upcoming == UpcomingPairs(agenda, parse, now)
  {
    upcoming := [];
    var i := 0;
    while i < |agenda|
      invariant 0 <= i <= |agenda|
      invariant upcoming == Map(Keep(agenda[..i], UpcomingOf(parse, now)), Stamp(parse))
    {
      ghost var before := upcoming;
      var raw := agenda[i];
      var begin := parse(raw.evtDatetimeBegin.GetOr(""));
      assert UpcomingOf(parse, now)(raw) == (begin.Some? && begin.value >= now);
      if begin.Some? && begin.value >= now {
        assert Stamp(parse)(raw) == (begin.value, raw);
        upcoming := upcoming + [(begin.value, raw)];
      }
      AccumulateKept(agenda, i, UpcomingOf(parse, now), Stamp(parse), [], before, upcoming);
      i := i + 1;
    }
    assert agenda[..i] == agenda;
  }

  /** The `event` property: collect the upcoming records with their begins, sort, convert the first. */
  method NextEvent(agenda: seq<AgendaEvent>, parse: string -> Option<int>, now: int) returns (r: Option<CalendarEvent>)
    ensures r == NextEventOf(agenda, parse, now)
  {
    var upcoming := CollectUpcoming(agenda, parse, now);
    if upcoming == [] {
      return None;
    }
    upcoming := Sort(upcoming, ByKey(PairBegin()));
    r := RawToEvent(upcoming[0].1, parse);
  }

  /** Some record is upcoming exactly when the collected list is not empty; an empty one gives no event. */
  lemma UpcomingIffSomeUpcoming(agenda: seq<AgendaEvent>, parse: string -> Option<int>, now: int)
    ensures Keep(agenda, UpcomingOf(parse, now)) != [] <==> exists i :: 0 <= i < |agenda| && IsUpcoming(agenda[i], parse, now)
    ensures Keep(agenda, UpcomingOf(parse, now)) == [] ==> NextEventOf(agenda, parse, now).None?
  {
    if exists i :: 0 <= i < |agenda| && IsUpcoming(agenda[i], parse, now) {
      var i :| 0 <= i < |agenda| && IsUpcoming(agenda[i], parse, now);
      KeepCount(agenda, UpcomingOf(parse, now), agenda[i]);
      assert agenda[i] in multiset(agenda);
    } else {
      KeepNone(agenda, UpcomingOf(parse, now));
    }
  }

  /** Each collected pair is the upcoming record at the same position, stamped with its begin. */
  lemma UpcomingPairsAt(agenda: seq<AgendaEvent>, parse: string -> Option<int>, now: int)
    ensures var u, pairs := Keep(agenda, UpcomingOf(parse, now)), UpcomingPairs(agenda, parse, now);
      |pairs| == |u|
      && forall j :: 0 <= j < |u| ==>
           pairs[j].1 == u[j] && PairBegin()(pairs[j]) == StartOf(u[j], parse)
           && IsUpcoming(u[j], parse, now) && u[j] in agenda
  {
    var u := Keep(agenda, UpcomingOf(parse, now));
    assert forall j :: 0 <= j < |u| ==> u[j] in u;
  }

  /**
   * With some record upcoming, the event is the conversion of an upcoming
   * record that begins no later than any other, and strictly earlier than
   * every upcoming record listed before it.
   */
  lemma NextEventIsEarliest(agenda: seq<AgendaEvent>, parse: string -> Option<int>, now: int)
    requires Keep(agenda, UpcomingOf(parse, now)) != []
    ensures var u := Keep(agenda, UpcomingOf(parse, now));
      exists k :: 0 <= k < |u|
        && IsUpcoming(u[k], parse, now) && u[k] in agenda
        && NextEventOf(agenda, parse, now) == RawToEvent(u[k], parse)
        && (forall j :: 0 <= j < |u| ==> StartOf(u[k], parse) <= StartOf(u[j], parse))
        && (forall j :: 0 <= j < k ==> StartOf(u[k], parse) < StartOf(u[j], parse))
  {
    var u := Keep(agenda, UpcomingOf(parse, now));
    var k := EarliestUpcoming(agenda, parse, now);
    assert 0 <= k < |u| && IsUpcoming(u[k], parse, now) && u[k] in agenda;
  }

  /** The position, among the upcoming records, of the one the `event` property converts. */
  lemma EarliestUpcoming(agenda: seq<AgendaEvent>, parse: string -> Option<int>, now: int) returns (k: nat)
    requires Keep(agenda, UpcomingOf(parse, now)) != []
    ensures var u := Keep(agenda, UpcomingOf(parse, now));
      && k < |u| && IsUpcoming(u[k], parse, now) && u[k] in agenda
      && NextEventOf(agenda, parse, now) == RawToEvent(u[k], parse)
      && (forall j :: 0 <= j < |u| ==> StartOf(u[k], parse) <= StartOf(u[j], parse))
      && (forall j :: 0 <= j < k ==> StartOf(u[k], parse) < StartOf(u[j], parse))
  {
    var u := Keep(agenda, UpcomingOf(parse, now));
    var pairs := UpcomingPairs(agenda, parse, now);
    UpcomingPairsAt(agenda, parse, now);
    k := SortByKeyHead(pairs, PairBegin());
    assert NextEventOf(agenda, parse, now) == RawToEvent(u[k], parse);
  }

  // ---------------------------------------------------------------------
  // Events in a range
  // ---------------------------------------------------------------------

  /** The event one record contributes to a range query, if any. */
  function InRangeEvent(raw: AgendaEvent, parse: string -> Option<int>, start: int, end: int): (r: Option<CalendarEvent>)
    ensures r.Some? ==> start <= r.value.start <= end && r.value.start < r.value.end
    ensures r.Some? ==> RawToEvent(raw, parse) == r
  {
    var b := BeginOf(raw, parse);
    if b.Some? && start <= b.value <= end then RawToEvent(raw, parse) else None
  }

  /** `async_get_events`: the events of the records whose begin falls in `[start, end]`, in agenda order. */
  function RangeEvents(agenda: seq<AgendaEvent>, parse: string -> Option<int>, start: int, end: int): (r: seq<CalendarEvent>)
    ensures |r| <= |agenda|
    ensures forall k :: 0 <= k < |r| ==> start <= r[k].start <= end && r[k].start < r[k].end
  {
    if agenda == [] then []
    else
      var last := InRangeEvent(agenda[|agenda| - 1], parse, start, end);
      RangeEvents(agenda[..|agenda| - 1], parse, start, end) + (if last.Some? then [last.value] else [])
  }

  /** An event is listed exactly when some record of the agenda contributes it. */
  lemma {:induction false} RangeEventsExact(agenda: seq<AgendaEvent>, parse: string -> Option<int>, start: int, end: int, e: CalendarEvent)
    ensures e in RangeEvents(agenda, parse, start, end) <==>
      exists i :: 0 <= i < |agenda| && InRangeEvent(agenda[i], parse, start, end) == Some(e)
    decreases |agenda|
  {
    if agenda != [] {
      var n := |agenda| - 1;
      var init := agenda[..n];
      var last := InRangeEvent(agenda[n], parse, start, end);
      var tail := if last.Some? then [last.value] else [];
      assert RangeEvents(agenda, parse, start, end) == RangeEvents(init, parse, start, end) + tail;
      assert e in tail <==> last == Some(e);
      RangeEventsExact(init, parse, start, end, e);
      if exists i :: 0 <= i < |agenda| && InRangeEvent(agenda[i], parse, start, end) == Some(e) {
        var i :| 0 <= i < |agenda| && InRangeEvent(agenda[i], parse, start, end) == Some(e);
        if i < n {
          assert init[i] == agenda[i];
        }
      }
      if e in RangeEvents(init, parse, start, end) {
        var i :| 0 <= i < n && InRangeEvent(init[i], parse, start, end) == Some(e);
        assert agenda[i] == init[i];
      }
    }
  }

  /** `async_get_events`: the loop that filters and converts. */
  method AsyncGetEvents(agenda: seq<AgendaEvent>, parse: string -> Option<int>, start: int, end: int)
    returns (events: seq<CalendarEvent>)
    ensures events == RangeEvents(agenda, parse, start, end)
  {
    events := [];
    var i := 0;
    while i < |agenda|
      invariant 0 <= i <= |agenda|
      invariant events == RangeEvents(agenda[..i], parse, start, end)
    {
      assert agenda[..i + 1][..i] == agenda[..i];
      var raw := agenda[i];
      var begin := parse(raw.evtDatetimeBegin.GetOr(""));
      if begin.Some? && start <= begin.value <= end {
        var event := RawToEvent(raw, parse);
        if event.Some? {
          events := events + [event.value];
        }
      }
      i := i + 1;
    }
    assert agenda[..i] == agenda;
  }
}
