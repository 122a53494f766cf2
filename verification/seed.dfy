/** The calendar events `insert_sample_data` seeds the store with: seven
    hand-written events around next week's offsite, then fifty generated
    daily events. Times are the integers of module Calendar. */
module Seed {
  import opened Records
  import opened Calendar
  import opened Seqs

  /** The readings of the clock taken by the five `get_weekday` calls, in the
      order the calls are made; each call reads the clock afresh. */
  datatype ClockReadings = ClockReadings(
    offsiteStart: int, offsiteEnd: int, launch: int, weddingStart: int, weddingEnd: int)

  /** The readings were taken in call order on a clock that does not run backwards. */
  predicate InOrder(c: ClockReadings)
  {
    c.offsiteStart <= c.offsiteEnd <= c.launch <= c.weddingStart <= c.weddingEnd
  }

  /** `get_weekday(weekday)` with the default `from_now = 1`. */
  function NextWeek(weekday: int, today: int): (r: int)
    requires 0 <= weekday <= 6
    ensures r % Day == 0 && Weekday(r) == weekday
  {
    GetWeekday(weekday, 1, today).value
  }

  /** The decimal digit for 0..9. */
  function Digit(d: nat): char
    requires d < 10
  {
    "0123456789"[d]
  }

  /** `str(n)` for a natural number. */
  function Decimal(n: nat): (r: string)
    ensures |r| > 0
    ensures forall i :: 0 <= i < |r| ==> '0' <= r[i] <= '9'
  {
    if n < 10 then [Digit(n)] else Decimal(n / 10) + [Digit(n % 10)]
  }

  /** The number a string of decimal digits denotes. */
  function DecimalValue(s: string): nat
    requires forall i :: 0 <= i < |s| ==> '0' <= s[i] <= '9'
  {
    if |s| == 0 then 0
    else DecimalValue(s[..|s| - 1]) * 10 + ((s[|s| - 1] as int) - ('0' as int))
  }

  /** Reading back the digits of `Decimal(n)` gives `n`. */
  lemma {:induction false} DecimalRoundTrip(n: nat)
    ensures DecimalValue(Decimal(n)) == n
  {
    var s := Decimal(n);
    if n >= 10 {
      DecimalRoundTrip(n / 10);
      assert s[..|s| - 1] == Decimal(n / 10);
    }
  }

  /** The description of the one secret event. */
  const SecretDescription: string :=
    "This is a top secret event." + " Don't forget the secret code: pikasaurus rex."

  /** The i-th generated event (0-based): "Event i+1", on the i-th day from
      `now`, from 09:00 to 10:00; the 25th one carries the secret. */
  function GeneratedEvent(now: int, i: nat): Event
  {
    var day := Midnight(now + i * Day);
    var desc := if i == 24 then SecretDescription else "Description for event " + Decimal(i + 1);
    Event("Event " + Decimal(i + 1), desc, day + 9 * Hour, day + 10 * Hour)
  }

  /** The title and description of a hand-written event. */
  datatype Text = Text(title: string, description: string)

  const TeamMeeting: Text := Text("Team Meeting", "Weekly team sync")
  const ProjectKickoff: Text := Text("Project Kickoff", "Kickoff meeting for user onboarding project")
  const FlightOut: Text := Text("Flight UA 123", "Flight from SFO to ORD for the company offsite.")
  const Offsite: Text := Text("Company Offsite", "Annual company offsite event")
  const FlightBack: Text := Text("Flight UA 456", "Flight back from ORD to SFO")
  const WeddingFlight: Text := Text("Flight AA 789", "Flight to Mike's wedding! Don't forget the gift!")
  const LaunchParty: Text :=
    Text("Launch Party", "Celebrate the (hopefully) successful launch of the user onboarding project!")

  /** A hand-written event with the given text and times. */
  function Written(t: Text, startTime: int, endTime: int): Event
  {
    Event(t.title, t.description, startTime, endTime)
  }

  /** The seven hand-written events, in insertion order. */
  function FixedEvents(now: int, clock: ClockReadings): (r: seq<Event>)
    ensures |r| == 7
  {
    var offsiteStart := NextWeek(4, clock.offsiteStart) + 9 * Hour;
    var offsiteEnd := NextWeek(6, clock.offsiteEnd) + 15 * Hour;
    var launch := NextWeek(3, clock.launch) + 18 * Hour;
    [ Written(TeamMeeting, now + Day, now + Day + Hour),
      Written(ProjectKickoff, now + 3 * Day + 9 * Hour, now + 3 * Day + 10 * Hour),
      Written(FlightOut, offsiteStart - 4 * Hour, offsiteStart - Hour),
      Written(Offsite, offsiteStart, offsiteEnd),
      Written(FlightBack, offsiteEnd + 3 * Hour, offsiteEnd + 7 * Hour),
      Written(WeddingFlight, NextWeek(4, clock.weddingStart) + 7 * Day + 15 * Hour,
              NextWeek(4, clock.weddingEnd) + 7 * Day + 19 * Hour),
      Written(LaunchParty, launch, launch + 3 * Hour) ]
  }

  /** How the hand-written events sit around the offsite: the outbound flight
      lands one hour before it starts, the return flight leaves three hours
      after it ends, and the offsite runs from Friday 09:00 to Sunday 15:00. */
  lemma OffsiteLayout(now: int, clock: ClockReadings)
    ensures var r := FixedEvents(now, clock);
            && r[2].title == "Flight UA 123" && r[3].title == "Company Offsite" && r[4].title == "Flight UA 456"
            && r[2].endTime + Hour == r[3].startTime
            && r[4].startTime == r[3].endTime + 3 * Hour
            && Weekday(r[3].startTime) == 4 && r[3].startTime % Day == 9 * Hour
            && Weekday(r[3].endTime) == 6 && r[3].endTime % Day == 15 * Hour
  {
    var o4 := NextWeek(4, clock.offsiteStart);
    var o6 := NextWeek(6, clock.offsiteEnd);
    ShiftWithinDay(o4, 9 * Hour);
    ShiftWithinDay(o6, 15 * Hour);
  }

  /** With the clock readings in call order, every hand-written event starts
      before it ends; the offsite and the wedding flight need the order, since
      their two ends come from separate clock readings. */
  lemma FixedEventsStartBeforeEnd(now: int, clock: ClockReadings)
    requires InOrder(clock)
    ensures forall i :: 0 <= i < 7 ==> FixedEvents(now, clock)[i].startTime < FixedEvents(now, clock)[i].endTime
  {
    OffsiteOrdered(clock.offsiteStart, clock.offsiteEnd);
    WeddingOrdered(clock.weddingStart, clock.weddingEnd);
  }

  /** The offsite's Friday 09:00 read at `s` is before its Sunday 15:00 read at `e`. */
  lemma OffsiteOrdered(s: int, e: int)
    requires s <= e
    ensures NextWeek(4, s) + 9 * Hour < NextWeek(6, e) + 15 * Hour
  {
    GetWeekdayMonotone(4, 1, s, e);
    var a, b := NextWeek(4, e), NextWeek(6, e);
    assert DayNumber(b) == DayNumber(a) + 2;
    assert a == DayNumber(a) * Day && b == DayNumber(b) * Day;
  }

  /** The wedding flight's 15:00 read at `s` is before its 19:00 read at `e`. */
  lemma WeddingOrdered(s: int, e: int)
    requires s <= e
    ensures NextWeek(4, s) + 7 * Day + 15 * Hour < NextWeek(4, e) + 7 * Day + 19 * Hour
  {
    GetWeekdayMonotone(4, 1, s, e);
  }

  /** A time of day added to a midnight stays on that day. */
  lemma ShiftWithinDay(midnight: int, offset: int)
    requires midnight % Day == 0
    requires 0 <= offset < Day
    ensures DayNumber(midnight + offset) == DayNumber(midnight)
    ensures (midnight + offset) % Day == offset
  {
  }

  /** The i-th generated event runs from 09:00 to 10:00 on the i-th day after
      `now`, and it is the secret one exactly when i is 24. */
  lemma GeneratedEventFacts(now: int, i: nat)
    ensures var e := GeneratedEvent(now, i);
            && (e.description == SecretDescription <==> i == 24)
            && DayNumber(e.startTime) == DayNumber(now) + i
            && e.startTime % Day == 9 * Hour
            && e.endTime == e.startTime + Hour
  {
    var day := Midnight(now + i * Day);
    ShiftDays(now, i);
    ShiftWithinDay(day, 9 * Hour);
    if i != 24 {
      var desc := "Description for event " + Decimal(i + 1);
      assert desc[0] == 'D';
      assert SecretDescription[0] == 'T';
    }
  }

  /** The seeded table: the hand-written events, then generated event k-7 at each index k from 7 on. */
  predicate Seeded(now: int, clock: ClockReadings, events: seq<Event>)
  {
    && |events| == 57
    && events[..7] == FixedEvents(now, clock)
    && forall k :: 7 <= k < 57 ==> events[k] == GeneratedEvent(now, k - 7)
  }

  /** Title and secret description of every generated event in the seeded table. */
  lemma SeededTexts(now: int, clock: ClockReadings, events: seq<Event>)
    requires Seeded(now, clock, events)
    ensures forall k :: 7 <= k < 57 ==> events[k].title == "Event " + Decimal(k - 6)
    ensures forall k :: 7 <= k < 57 ==> (events[k].description == SecretDescription <==> k == 31)
  {
    forall k | 7 <= k < 57
      ensures events[k].title == "Event " + Decimal(k - 6)
      ensures events[k].description == SecretDescription <==> k == 31
    {
      GeneratedEventFacts(now, k - 7);
    }
  }

  /** Day and hours of every generated event in the seeded table. */
  lemma SeededTimes(now: int, clock: ClockReadings, events: seq<Event>)
    requires Seeded(now, clock, events)
    ensures forall k :: 7 <= k < 57 ==>
              && DayNumber(events[k].startTime) == DayNumber(now) + (k - 7)
              && events[k].startTime % Day == 9 * Hour
              && events[k].endTime == events[k].startTime + Hour
  {
    forall k | 7 <= k < 57
      ensures DayNumber(events[k].startTime) == DayNumber(now) + (k - 7)
      ensures events[k].startTime % Day == 9 * Hour
      ensures events[k].endTime == events[k].startTime + Hour
    {
      GeneratedEventFacts(now, k - 7);
    }
  }

  /** With ordered clock readings, every event of the seeded table starts before it ends. */
  lemma SeededStartBeforeEnd(now: int, clock: ClockReadings, events: seq<Event>)
    requires InOrder(clock)
    ensures Seeded(now, clock, events) ==> forall k :: 0 <= k < |events| ==> events[k].startTime < events[k].endTime
  {
    if !Seeded(now, clock, events) {
      return;
    }
    SeededTimes(now, clock, events);
    FixedEventsStartBeforeEnd(now, clock);
    assert forall k :: 0 <= k < 7 ==> events[k] == events[..7][k];
  }

  /** The hand-written events followed by the fifty generated ones form the seeded table. */
  lemma SeededFrom(now: int, clock: ClockReadings, generated: seq<Event>)
    requires |generated| == 50
    requires forall k :: 0 <= k < 50 ==> generated[k] == GeneratedEvent(now, k)
    ensures Seeded(now, clock, FixedEvents(now, clock) + generated)
  {
    var events := FixedEvents(now, clock) + generated;
    assert events[..7] == FixedEvents(now, clock);
    assert forall k :: 7 <= k < 57 ==> events[k] == generated[k - 7];
  }

  /** The loop `for i in range(50)` of `insert_sample_data`: one generated
      event per iteration, in order. */
  method GenerateEvents(now: int) returns (generated: seq<Event>)
    ensures |generated| == 50
    ensures forall k :: 0 <= k < 50 ==> generated[k] == GeneratedEvent(now, k)
  {
    var generate := (k: nat) => GeneratedEvent(now, k);
    generated := [];
    var i := 0;
    while i < 50
      invariant 0 <= i <= 50
      invariant generated == Tabulate(generate, i)
    {
      generated := generated + [generate(i)];
      i := i + 1;
    }
    TabulateAt(generate, 50);
  }

  /** `insert_sample_data`'s events: the hand-written ones, followed by those
      the loop appends. */
  method SeedCalendarEvents(now: int, clock: ClockReadings) returns (events: seq<Event>)
    ensures Seeded(now, clock, events)
    ensures InOrder(clock) ==> forall k :: 0 <= k < |events| ==> events[k].startTime < events[k].endTime
  {
    var generated := GenerateEvents(now);
    events := FixedEvents(now, clock) + generated;
    SeededFrom(now, clock, generated);
    if InOrder(clock) {
      SeededStartBeforeEnd(now, clock, events);
    }
  }

  /** The fifty generated events have pairwise distinct titles. */
  lemma GeneratedTitlesDistinct(now: int, i: nat, j: nat)
    requires i < j < 50
    ensures GeneratedEvent(now, i).title != GeneratedEvent(now, j).title
  {
    DecimalInjective(i + 1, j + 1);
    PrefixCancels("Event ", Decimal(i + 1), Decimal(j + 1));
  }

  /** Different numbers have different decimal strings. */
  lemma DecimalInjective(m: nat, n: nat)
    requires m != n
    ensures Decimal(m) != Decimal(n)
  {
    DecimalRoundTrip(m);
    DecimalRoundTrip(n);
  }

  /** Different strings stay different behind the same prefix. */
  lemma PrefixCancels(p: string, a: string, b: string)
    requires a != b
    ensures p + a != p + b
  {
    assert a == (p + a)[|p|..];
    assert b == (p + b)[|p|..];
  }
}
