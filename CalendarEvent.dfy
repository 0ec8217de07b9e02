// The calendar tile of apps/web/src/components/calendar/CustomEvent.tsx: whether
// an event is a milestone, whether it is all-day, which colour set it uses and
// which rows the tile shows. The event type arrives as a string at run time, so
// it is a string here; the eleven declared types are listed for the lemmas.
// Clock times are the local hour and minute the browser reports.

module CalendarEvent {
  import opened Wrappers
  import opened Text

  datatype ClockTime = ClockTime(hour: int, minute: int)

  datatype CalendarEntry = CalendarEntry(
    title: string, eventType: string, start: ClockTime, end: ClockTime,
    location: Option<string>, roomName: Option<string>)

  /** The event types the calendar declares, each of which has its own colours. */
  datatype EventType =
    | Academic | Event | Exam | Meeting | Holiday | Timetable
    | SessionStart | SessionEnd | TermStart | TermEnd | HalfTerm
  {
    function Name(): string {
      match this
      case Academic => "ACADEMIC"
      case Event => "EVENT"
      case Exam => "EXAM"
      case Meeting => "MEETING"
      case Holiday => "HOLIDAY"
      case Timetable => "TIMETABLE"
      case SessionStart => "SESSION_START"
      case SessionEnd => "SESSION_END"
      case TermStart => "TERM_START"
      case TermEnd => "TERM_END"
      case HalfTerm => "HALF_TERM"
    }

    /** The session and term boundaries and the half term. */
    predicate IsMarker() {
      SessionStart? || SessionEnd? || TermStart? || TermEnd? || HalfTerm?
    }
  }

  /** `type.includes('SESSION') || type.includes('TERM') || type === 'HALF_TERM'`. */
  predicate IsMilestone(eventType: string) {
    Contains(eventType, "SESSION") || Contains(eventType, "TERM") || eventType == "HALF_TERM"
  }

  /** Milestones are all-day; other events are all-day when they run from 00:00 to 23:59. */
  predicate IsAllDay(e: CalendarEntry) {
    IsMilestone(e.eventType)
    || (e.start.hour == 0 && e.start.minute == 0 && e.end.hour == 23 && e.end.minute == 59)
  }

  /** A substring needs each of its characters. */
  lemma {:induction false} ContainsNeeds(s: string, sub: string, c: char)
    requires c in sub
    ensures Contains(s, sub) ==> c in s
  {
    if Contains(s, sub) {
      ContainsChars(s, sub, c);
    }
  }

  /** A name holding one of the markers is a milestone. */
  lemma {:induction false} MarkedIsMilestone(marker: string, rest: string)
    requires marker == "SESSION" || marker == "TERM"
    ensures IsMilestone(marker + rest)
  {
    assert marker + rest == "" + marker + rest;
    ContainsMiddle("", marker, rest);
  }

  /** A name with neither an 'S' nor an 'R' holds neither marker. */
  lemma {:induction false} UnmarkedIsNotMilestone(n: string)
    requires 'S' !in n && 'R' !in n && n != "HALF_TERM"
    ensures !IsMilestone(n)
  {
    ContainsNeeds(n, "SESSION", 'S');
    ContainsNeeds(n, "TERM", 'R');
  }

  lemma {:induction false} MarkerTypesAreMilestones(t: EventType)
    requires t.IsMarker()
    ensures IsMilestone(t.Name())
  {
    match t
    case SessionStart => assert t.Name() == "SESSION" + "_START"; MarkedIsMilestone("SESSION", "_START");
    case SessionEnd => assert t.Name() == "SESSION" + "_END"; MarkedIsMilestone("SESSION", "_END");
    case TermStart => assert t.Name() == "TERM" + "_START"; MarkedIsMilestone("TERM", "_START");
    case TermEnd => assert t.Name() == "TERM" + "_END"; MarkedIsMilestone("TERM", "_END");
    case HalfTerm =>
  }

  lemma {:induction false} OtherTypesAreNotMilestones(t: EventType)
    requires !t.IsMarker()
    ensures !IsMilestone(t.Name())
  {
    var n := t.Name();
    assert 'S' !in n && 'R' !in n && n != "HALF_TERM";
    UnmarkedIsNotMilestone(n);
  }

  /** Of the declared types, exactly the session, term and half-term markers are
      milestones. */
  lemma {:induction false} MilestoneTypes(t: EventType)
    ensures IsMilestone(t.Name()) <==> t.IsMarker()
  {
    if t.IsMarker() {
      MarkerTypesAreMilestones(t);
    } else {
      OtherTypesAreNotMilestones(t);
    }
  }

  /** The declared type a string names, if any. */
  function KnownType(s: string): (t: Option<EventType>)
    ensures t.Some? ==> t.value.Name() == s
  {
    if s == "ACADEMIC" then Some(Academic) else if s == "EVENT" then Some(Event)
    else if s == "EXAM" then Some(Exam) else if s == "MEETING" then Some(Meeting)
    else if s == "HOLIDAY" then Some(Holiday) else if s == "TIMETABLE" then Some(Timetable)
    else if s == "SESSION_START" then Some(SessionStart) else if s == "SESSION_END" then Some(SessionEnd)
    else if s == "TERM_START" then Some(TermStart) else if s == "TERM_END" then Some(TermEnd)
    else if s == "HALF_TERM" then Some(HalfTerm)
    else None
  }

  /** Every declared type is recognised by its name. */
  lemma {:induction false} KnownTypeOfName(t: EventType)
    ensures KnownType(t.Name()) == Some(t)
  {
  }

  /** The palette entry used: the event's own for a declared type, EVENT's otherwise. */
  function PaletteKey(eventType: string): (key: string)
    ensures KnownType(eventType).Some? ==> key == eventType
    ensures KnownType(eventType).None? ==> key == Event.Name()
  {
    if KnownType(eventType).Some? then eventType else "EVENT"
  }

  /** `roomName || location`, shown when either is set. */
  function LocationText(e: CalendarEntry): (text: Option<string>)
    ensures text.Some? <==> Truthy(e.location) || Truthy(e.roomName)
    ensures text.Some? && Truthy(e.roomName) ==> text.value == e.roomName.value
    ensures text.Some? && !Truthy(e.roomName) ==> text.value == e.location.value
  {
    if Truthy(e.roomName) then e.roomName
    else if Truthy(e.location) then e.location
    else None
  }

  /** What the tile shows under its title. */
  datatype Tile = Tile(boldTitle: bool, startTime: Option<ClockTime>, location: Option<string>)

  function Render(e: CalendarEntry): (tile: Tile)
    ensures tile.boldTitle <==> IsMilestone(e.eventType)
    ensures tile.startTime.Some? <==> !IsAllDay(e)
    ensures tile.startTime.Some? ==> tile.startTime.value == e.start
    ensures tile.location == LocationText(e)
  {
    // The location row sits inside the timed block or after the all-day title;
    // either way it appears under the same condition.
    Tile(IsMilestone(e.eventType), if IsAllDay(e) then None else Some(e.start), LocationText(e))
  }

  /** A milestone tile never shows a start time, whatever its clock times. */
  lemma {:induction false} MilestoneHasNoTime(e: CalendarEntry, t: EventType)
    requires e.eventType == t.Name() && t.IsMarker()
    ensures Render(e).startTime.None?
  {
    MilestoneTypes(t);
  }
}
