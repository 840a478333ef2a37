/**
 * The conference schedule (script.js:4-30) and the data decisions made over it: the
 * card class a session is drawn with (script.js:66-68), the programs of one venue across
 * all days (`showAuditoriumPrograms`, script.js:136-200) and the date shown for a day
 * key (script.js:173).
 */
module Schedule {
  import opened Wrappers

  /** One entry of a venue's list; `kind` is the source's `type` field. */
  datatype Session = Session(time: string, title: string, id: Option<string>, kind: Option<string>)

  /** A venue key of a day object and its sessions, in listing order. */
  datatype Venue = Venue(name: string, sessions: seq<Session>)

  /** A day key and its venues, in object order. */
  datatype Day = Day(key: string, venues: seq<Venue>)

  /** One collected program: a session tagged with its day, id and type normalised. */
  datatype Program = Program(day: string, time: string, title: string, id: Option<string>, kind: Option<string>)

  /** The error `showAuditoriumPrograms` reports when a venue has no programs. */
  datatype ProgramsError = NoPrograms(venue: string)

  function ProgramsMessage(e: ProgramsError): string {
    "No programs found for " + e.venue
  }

  /** The message names the venue: different venues give different messages. */
  lemma ProgramsMessageNamesVenue(a: ProgramsError, b: ProgramsError)
    ensures ProgramsMessage(a) == ProgramsMessage(b) <==> a == b
  {
    if ProgramsMessage(a) == ProgramsMessage(b) {
      assert a.venue == ProgramsMessage(a)[22..];
    }
  }

  /** `scheduleData`, with object entries kept in their literal order. */
  const ScheduleData: seq<Day> := [
    Day("Dec 12", [
      Venue("Kalidas Auditorium", [
        Session("09:15-09:20", "LIGHTING THE LAMP", None, Some("keynote"))]),
      Venue("Gargi Auditorium", [
        Session("11:20-11:50", "INVITED TALK: Dr Subhendu Maity", None, Some("invited")),
        Session("17:45-18:00", "Numerical simulation of ship motions in regular waves in damaged condition", Some("46"), None)]),
      Venue("Maitree Auditorium", [
        Session("12:20-12:35", "Behaviour of a re-entrant auxetic core sandwich plate structure subject to an underwater explosion", Some("7"), None)])]),
    Day("Dec 13", [
      Venue("Kalidas Auditorium", [
        Session("09:00-09:30", "KEYNOTE ADDRESS: Prof. Richard Manasseh", None, Some("keynote")),
        Session("17:00", "HIGH TEA", None, Some("break"))]),
      Venue("Maitree Auditorium", [
        Session("10:15-10:45", "INVITED TALK: Dr Harekrushna Behera", None, Some("invited"))]),
      Venue("Gargi Auditorium", [
        Session("11:15-11:30", "Vibroacoustic transmission analysis of complex structure within underwater layered media", Some("38"), None),
        Session("11:30-11:45", "Development of General Guideline for Riverine floating HDPE Jetties Encapsulated by Steel Frame", Some("59"), None)])])
  ]

  /** The CSS class of a session card, chosen by its type. */
  function CardClass(kind: Option<string>): (c: string)
    ensures c == "session-card keynote" <==> kind == Some("keynote")
    ensures c == "session-card invited" <==> kind == Some("invited")
    ensures c == "session-card" <==> kind != Some("keynote") && kind != Some("invited")
  {
    if kind == Some("keynote") then "session-card keynote"
    else if kind == Some("invited") then "session-card invited"
    else if kind == Some("break") then "session-card"
    else "session-card"
  }

  /** The date shown for a day key: only "Dec 12" is told apart, every other key reads as the 13th. */
  function DateText(day: string): (t: string)
    ensures t == "December 12, 2025" <==> day == "Dec 12"
    ensures t == "December 13, 2025" <==> day != "Dec 12"
  {
    if day == "Dec 12" then "December 12, 2025" else "December 13, 2025"
  }

  /** `value || null` on an optional string: the empty string is falsy and becomes null too. */
  function OrNull(o: Option<string>): (r: Option<string>)
    ensures r.Some? <==> o.Some? && o.value != ""
    ensures r.Some? ==> r == o
  {
    if o.Some? && o.value != "" then o else None
  }

  /** `venues[name]`: the sessions of the venue with that key, if the day has one. */
  function VenueSessions(venues: seq<Venue>, name: string): Option<seq<Session>>
    decreases |venues|
  {
    if |venues| == 0 then None
    else if venues[0].name == name then Some(venues[0].sessions)
    else VenueSessions(venues[1..], name)
  }

  /** The lookup finds the first venue with that key, and nothing when the day has none. */
  lemma {:induction false} VenueSessionsFirst(venues: seq<Venue>, name: string)
    ensures VenueSessions(venues, name).None? <==> forall v :: 0 <= v < |venues| ==> venues[v].name != name
    ensures VenueSessions(venues, name).Some? ==> exists v ::
      && 0 <= v < |venues| && venues[v] == Venue(name, VenueSessions(venues, name).value)
      && forall u :: 0 <= u < v ==> venues[u].name != name
    decreases |venues|
  {
    if |venues| > 0 && venues[0].name != name {
      VenueSessionsFirst(venues[1..], name);
      if VenueSessions(venues, name).Some? {
        var v :| 0 <= v < |venues[1..]| && venues[1..][v] == Venue(name, VenueSessions(venues, name).value)
          && forall u :: 0 <= u < v ==> venues[1..][u].name != name;
        assert venues[v + 1] == venues[1..][v];
        forall u | 0 <= u < v + 1 ensures venues[u].name != name {
          if u > 0 { assert venues[u] == venues[1..][u - 1]; }
        }
      }
    } else if |venues| > 0 {
      assert venues[0] == Venue(name, venues[0].sessions);
    }
  }

  /** The record pushed for one session of a day. */
  function ToProgram(day: string, s: Session): Program {
    Program(day, s.time, s.title, OrNull(s.id), OrNull(s.kind))
  }

  /** A venue's sessions on one day as programs, in listing order. */
  function Tagged(day: string, ss: seq<Session>): (ps: seq<Program>)
    ensures |ps| == |ss|
    ensures forall k :: 0 <= k < |ss| ==> ps[k] == ToProgram(day, ss[k])
    decreases |ss|
  {
    if |ss| == 0 then [] else Tagged(day, ss[..|ss| - 1]) + [ToProgram(day, ss[|ss| - 1])]
  }

  /** The programs one day contributes for a venue: its sessions in listing order. */
  function DayPrograms(d: Day, name: string): (ps: seq<Program>)
    ensures |ps| == SessionCount(d, name)
  {
    match VenueSessions(d.venues, name)
    case None => []
    case Some(ss) => Tagged(d.key, ss)
  }

  /** All programs of a venue: the days' contributions concatenated in day order. */
  function VenuePrograms(days: seq<Day>, name: string): seq<Program>
    decreases |days|
  {
    if |days| == 0 then [] else VenuePrograms(days[..|days| - 1], name) + DayPrograms(days[|days| - 1], name)
  }

  /** The number of sessions a venue has on one day. */
  function SessionCount(d: Day, name: string): nat {
    match VenueSessions(d.venues, name)
    case None => 0
    case Some(ss) => |ss|
  }

  /** Whether day `d` contributes program `p` to the venue's collection. */
  predicate OnDay(d: Day, name: string, p: Program) {
    p in DayPrograms(d, name)
  }

  /** Everything a day contributes is in the collection. */
  lemma {:induction false} DayContributes(days: seq<Day>, name: string, d: nat, p: Program)
    requires d < |days| && OnDay(days[d], name, p)
    ensures p in VenuePrograms(days, name)
    decreases |days|
  {
    var last := |days| - 1;
    if d < last {
      var init := days[..last];
      assert init[d] == days[d];
      DayContributes(init, name, d, p);
    }
  }

  /** Everything in the collection was contributed by one of the days. */
  lemma {:induction false} CollectedFromSomeDay(days: seq<Day>, name: string, p: Program)
    requires p in VenuePrograms(days, name)
    ensures exists d :: 0 <= d < |days| && OnDay(days[d], name, p)
    decreases |days|
  {
    var last := |days| - 1;
    var init := days[..last];
    if p in VenuePrograms(init, name) {
      CollectedFromSomeDay(init, name, p);
      var d :| 0 <= d < |init| && OnDay(init[d], name, p);
      assert init[d] == days[d];
    } else {
      assert OnDay(days[last], name, p);
    }
  }

  /** A program is collected exactly when one of the days contributes it. */
  lemma VenueProgramsMembership(days: seq<Day>, name: string, p: Program)
    ensures p in VenuePrograms(days, name) <==> exists d :: 0 <= d < |days| && OnDay(days[d], name, p)
  {
    if p in VenuePrograms(days, name) {
      CollectedFromSomeDay(days, name, p);
    }
    if d :| 0 <= d < |days| && OnDay(days[d], name, p) {
      DayContributes(days, name, d, p);
    }
  }

  /** The collection is empty exactly when the venue has no session on any day. */
  lemma VenueProgramsEmpty(days: seq<Day>, name: string)
    ensures VenuePrograms(days, name) == [] <==> forall d :: 0 <= d < |days| ==> SessionCount(days[d], name) == 0
  {
    var all := VenuePrograms(days, name);
    if all != [] {
      CollectedFromSomeDay(days, name, all[0]);
    }
    if d :| 0 <= d < |days| && SessionCount(days[d], name) != 0 {
      DayContributes(days, name, d, DayPrograms(days[d], name)[0]);
    }
  }

  /** The inner `forEach`: pushes one program per session of the venue on that day. */
  method PushSessions(programs: seq<Program>, day: string, sessions: seq<Session>) returns (out: seq<Program>)
    ensures out == programs + Tagged(day, sessions)
  {
    out := programs;
    var k := 0;
    while k < |sessions|
      invariant 0 <= k <= |sessions|
      invariant out == programs + Tagged(day, sessions[..k])
    {
      out := out + [ToProgram(day, sessions[k])];
      assert sessions[..k + 1][..k] == sessions[..k];
      k := k + 1;
    }
    assert sessions[..|sessions|] == sessions;
  }

  /** Collecting a venue's programs is the loop over the days in object order. */
  method CollectPrograms(days: seq<Day>, name: string) returns (programs: seq<Program>)
    ensures programs == VenuePrograms(days, name)
  {
    programs := [];
    var d := 0;
    while d < |days|
      invariant 0 <= d <= |days|
      invariant programs == VenuePrograms(days[..d], name)
    {
      var found := VenueSessions(days[d].venues, name);
      if found.Some? {
        programs := PushSessions(programs, days[d].key, found.value);
      }
      assert days[..d + 1][..d] == days[..d];
      d := d + 1;
    }
    assert days[..|days|] == days;
  }

  /** `showAuditoriumPrograms`: the venue's programs, or the no-programs message when there are none. */
  method ShowAuditoriumPrograms(days: seq<Day>, name: string) returns (r: Result<seq<Program>, ProgramsError>)
    ensures r.Failure? <==> forall d :: 0 <= d < |days| ==> SessionCount(days[d], name) == 0
    ensures r.Failure? ==> r.error == NoPrograms(name)
    ensures r.Success? ==> r.value == VenuePrograms(days, name) && |r.value| > 0
  {
    var programs := CollectPrograms(days, name);
    VenueProgramsEmpty(days, name);
    if |programs| == 0 {
      r := Failure(NoPrograms(name));
    } else {
      r := Success(programs);
    }
  }

  /** The shape of the conference schedule: two days of three venues, with 1, 2, 1 and 2, 1, 2 sessions. */
  lemma ScheduleShape()
    ensures |ScheduleData| == 2
    ensures |ScheduleData[0].venues| == 3 && |ScheduleData[1].venues| == 3
    ensures |ScheduleData[0].venues[0].sessions| == 1 && |ScheduleData[0].venues[1].sessions| == 2
    ensures |ScheduleData[0].venues[2].sessions| == 1
    ensures |ScheduleData[1].venues[0].sessions| == 2 && |ScheduleData[1].venues[1].sessions| == 1
    ensures |ScheduleData[1].venues[2].sessions| == 2
  {
  }

  /** Both day keys of the conference schedule get their own date text. */
  lemma ScheduleDates()
    ensures |ScheduleData| == 2
    ensures DateText(ScheduleData[0].key) == "December 12, 2025"
    ensures DateText(ScheduleData[1].key) == "December 13, 2025"
  {
    assert ScheduleData[1].key[5] != "Dec 12"[5];
  }
}
