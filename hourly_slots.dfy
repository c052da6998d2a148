/**
 * Free-slot enumeration stepped by one hour (`getAvailableSlots` in the
 * top-level calendar.js). The cursor starts at the next whole hour after
 * "now" and moves one hour at a time; a cursor whose hour of day lies in
 * `[startHour, endHour)` yields a slot `[t, t + durationMinutes)`. Before
 * each event it runs while the cursor is before the event's start; after the
 * event the cursor is set to the event's end with its minutes zeroed.
 */
module HourlySlots {
  import opened Time
  import CalendarGateway

  /** `isValidSlot` (lines 139-142): only the hour in which the slot starts is checked. */
  predicate IsValidSlot(t: int, startHour: int, endHour: int): (valid: bool)
    ensures valid <==> startHour * MinutesPerHour <= t % MinutesPerDay < endHour * MinutesPerHour
  {
    startHour <= HourOf(t) < endHour
  }

  /** `formatSlot` (lines 150-153): the span it renders; the localized rendering is not modelled. */
  function FormatSlot(t: int, duration: int): (slot: Interval)
    ensures slot.start == t && slot.end - slot.start == duration
  {
    Interval(t, t + duration)
  }

  /** The slots for the hourly cursors `t, t + 60, ...` strictly before `limit`. */
  function HourRun(t: int, limit: int, duration: int, startHour: int, endHour: int): seq<Interval>
    decreases limit - t
  {
    if t < limit then
      (if IsValidSlot(t, startHour, endHour) then [FormatSlot(t, duration)] else [])
      + HourRun(t + MinutesPerHour, limit, duration, startHour, endHour)
    else []
  }

  /** The slots of the whole walk (lines 61-84) from cursor `t` over `events` up to `searchEnd`. */
  function HourSweep(events: seq<Interval>, t: int, duration: int, startHour: int, endHour: int, searchEnd: int): seq<Interval>
    decreases |events|
  {
    if |events| == 0 then HourRun(t, searchEnd, duration, startHour, endHour)
    else
      HourRun(t, events[0].start, duration, startHour, endHour)
      + HourSweep(events[1..], FloorHour(events[0].end), duration, startHour, endHour, searchEnd)
  }

  /** Line 31: one hour from now, rounded down to the hour. */
  function FirstCursor(now: int): int
  {
    FloorHour(now + MinutesPerHour)
  }

  /**
   * Lines 34-43: "week" ends with the current week (`endOfWeek`, calendar
   * arithmetic not modelled), "fortnight" with the day 15 days ahead, and any
   * other value with the day one month ahead (`oneMonthAhead`, given).
   */
  function SearchEnd(searchRange: string, now: int, endOfWeek: int, oneMonthAhead: int): (r: int)
    ensures searchRange == "week" ==> r == endOfWeek
    ensures searchRange == "fortnight" ==>
      now + 15 * MinutesPerDay <= r < now + 16 * MinutesPerDay && (r + 1) % MinutesPerDay == 0
    ensures searchRange != "week" && searchRange != "fortnight" ==>
      oneMonthAhead <= r < oneMonthAhead + MinutesPerDay && (r + 1) % MinutesPerDay == 0
  {
    if searchRange == "week" then endOfWeek
    else if searchRange == "fortnight" then EndOfDay(now + 15 * MinutesPerDay)
    else EndOfDay(oneMonthAhead)
  }

  /** What `getAvailableSlots` returns for a listing answer. */
  function Slots(listing: CalendarGateway.Listing<Interval>, duration: int, startHour: int, endHour: int,
                 now: int, searchEnd: int): seq<Interval>
  {
    if listing.ListFailed? then []
    else HourSweep(CalendarGateway.GetEvents(listing), FirstCursor(now), duration, startHour, endHour, searchEnd)
  }

  /**
   * A span is a slot of `HourRun(t, limit, ...)` exactly when it starts at a
   * whole number of hours from `t`, before `limit`, at a valid hour, and
   * lasts `duration` minutes.
   */
  lemma {:induction false} HourRunMembers(t: int, limit: int, duration: int, startHour: int, endHour: int, x: Interval)
    ensures x in HourRun(t, limit, duration, startHour, endHour) <==>
      && t <= x.start < limit
      && (x.start - t) % MinutesPerHour == 0
      && IsValidSlot(x.start, startHour, endHour)
      && x.end == x.start + duration
    decreases limit - t
  {
    if t < limit {
      HourRunMembers(t + MinutesPerHour, limit, duration, startHour, endHour, x);
      var head := if IsValidSlot(t, startHour, endHour) then [FormatSlot(t, duration)] else [];
      assert HourRun(t, limit, duration, startHour, endHour)
        == head + HourRun(t + MinutesPerHour, limit, duration, startHour, endHour);
      HourStep(t, x.start);
    }
  }

  /** Moving the cursor one hour keeps the offset's minutes; a later whole-hour offset is at least an hour. */
  lemma HourStep(t: int, s: int)
    ensures (s - (t + MinutesPerHour)) % MinutesPerHour == (s - t) % MinutesPerHour
    ensures t < s && (s - t) % MinutesPerHour == 0 ==> t + MinutesPerHour <= s
  {
    if t < s && (s - t) % MinutesPerHour == 0 {
      var k := (s - t) / MinutesPerHour;
      assert s - t == MinutesPerHour * k;
    }
  }

  /** A whole number of hours after a time on the hour is on the hour. */
  lemma OnTheHour(t: int, s: int)
    requires t % MinutesPerHour == 0 && (s - t) % MinutesPerHour == 0
    ensures s % MinutesPerHour == 0
  {
    var i, j := t / MinutesPerHour, (s - t) / MinutesPerHour;
    assert s == MinutesPerHour * (i + j);
  }

  /** Every slot of the walk starts on the hour, at a valid hour, and lasts `duration`. */
  lemma {:induction false} HourSweepShape(events: seq<Interval>, t: int, duration: int, startHour: int, endHour: int, searchEnd: int)
    requires t % MinutesPerHour == 0
    ensures forall x :: x in HourSweep(events, t, duration, startHour, endHour, searchEnd) ==>
      x.start % MinutesPerHour == 0 && IsValidSlot(x.start, startHour, endHour) && x.end == x.start + duration
    decreases |events|
  {
    if |events| == 0 {
      forall x | x in HourRun(t, searchEnd, duration, startHour, endHour)
        ensures x.start % MinutesPerHour == 0 && IsValidSlot(x.start, startHour, endHour) && x.end == x.start + duration
      {
        HourRunMembers(t, searchEnd, duration, startHour, endHour, x);
        OnTheHour(t, x.start);
      }
    } else {
      var next := FloorHour(events[0].end);
      HourSweepShape(events[1..], next, duration, startHour, endHour, searchEnd);
      forall x | x in HourRun(t, events[0].start, duration, startHour, endHour)
        ensures x.start % MinutesPerHour == 0 && IsValidSlot(x.start, startHour, endHour) && x.end == x.start + duration
      {
        HourRunMembers(t, events[0].start, duration, startHour, endHour, x);
        OnTheHour(t, x.start);
      }
    }
  }

  /** When every listed event starts by `searchEnd`, every slot starts before `searchEnd`. */
  lemma {:induction false} HourSweepBeforeEnd(events: seq<Interval>, t: int, duration: int, startHour: int, endHour: int, searchEnd: int)
    requires forall j :: 0 <= j < |events| ==> events[j].start <= searchEnd
    ensures forall x :: x in HourSweep(events, t, duration, startHour, endHour, searchEnd) ==> x.start < searchEnd
    decreases |events|
  {
    if |events| == 0 {
      forall x | x in HourRun(t, searchEnd, duration, startHour, endHour) ensures x.start < searchEnd {
        HourRunMembers(t, searchEnd, duration, startHour, endHour, x);
      }
    } else {
      var rest := events[1..];
      assert forall j :: 0 <= j < |rest| ==> rest[j].start <= searchEnd by {
        forall j | 0 <= j < |rest| ensures rest[j].start <= searchEnd { assert rest[j] == events[j + 1]; }
      }
      HourSweepBeforeEnd(rest, FloorHour(events[0].end), duration, startHour, endHour, searchEnd);
      forall x | x in HourRun(t, events[0].start, duration, startHour, endHour) ensures x.start < searchEnd {
        HourRunMembers(t, events[0].start, duration, startHour, endHour, x);
      }
    }
  }

  /**
   * Before an event only the slot's start is compared with the event's start:
   * with a two-hour duration the 09:00 slot runs into the 10:00-11:00 event,
   * and the 11:00 slot runs past the 12:00 search end.
   */
  lemma SlotCanOverlapEvent()
    ensures Slots(CalendarGateway.Items([Interval(600, 660)]), 120, 0, 24, 480, 720)
      == [Interval(540, 660), Interval(660, 780)]
  {
    var events := [Interval(600, 660)];
    assert events[1..] == [];
    assert HourRun(540, 600, 120, 0, 24) == [Interval(540, 660)] + HourRun(600, 600, 120, 0, 24);
    assert HourRun(660, 720, 120, 0, 24) == [Interval(660, 780)] + HourRun(720, 720, 120, 0, 24);
  }

  /**
   * Line 75 moves the cursor back when events overlap: after 10:00-14:00 and
   * 11:00-12:00 the cursor returns to 12:00, so 12:00 and 13:00, inside the
   * first event, are offered.
   */
  lemma CursorCanMoveBackwards()
    ensures Slots(CalendarGateway.Items([Interval(600, 840), Interval(660, 720)]), 60, 0, 24, 480, 900)
      == [Interval(540, 600), Interval(720, 780), Interval(780, 840), Interval(840, 900)]
  {
    var events := [Interval(600, 840), Interval(660, 720)];
    assert events[1..] == [Interval(660, 720)] && events[1..][1..] == [];
    assert HourRun(540, 600, 60, 0, 24) == [Interval(540, 600)] + HourRun(600, 600, 60, 0, 24);
    assert HourRun(840, 660, 60, 0, 24) == [];
    assert HourRun(720, 900, 60, 0, 24) == [Interval(720, 780)] + HourRun(780, 900, 60, 0, 24);
    assert HourRun(780, 900, 60, 0, 24) == [Interval(780, 840)] + HourRun(840, 900, 60, 0, 24);
    assert HourRun(840, 900, 60, 0, 24) == [Interval(840, 900)] + HourRun(900, 900, 60, 0, 24);
  }

  /**
   * `getAvailableSlots` (lines 30-91) over the listing answer: a listing error
   * gives `[]`; otherwise the hourly cursor loop of lines 61-84.
   */
  method GetAvailableSlots(listing: CalendarGateway.Listing<Interval>, durationMinutes: int, startHour: int, endHour: int,
                           searchRange: string, now: int, endOfWeek: int, oneMonthAhead: int)
    returns (slots: seq<Interval>)
    ensures slots == Slots(listing, durationMinutes, startHour, endHour, now, SearchEnd(searchRange, now, endOfWeek, oneMonthAhead))
    ensures forall x :: x in slots ==>
      x.start % MinutesPerHour == 0 && IsValidSlot(x.start, startHour, endHour) && x.end == x.start + durationMinutes
    ensures (forall j :: 0 <= j < |CalendarGateway.GetEvents(listing)| ==>
               CalendarGateway.GetEvents(listing)[j].start <= SearchEnd(searchRange, now, endOfWeek, oneMonthAhead))
      ==> forall x :: x in slots ==> x.start < SearchEnd(searchRange, now, endOfWeek, oneMonthAhead)
  {
    var start := FloorHour(now + MinutesPerHour);
    var searchEnd := SearchEnd(searchRange, now, endOfWeek, oneMonthAhead);
    if listing.ListFailed? {
      return [];
    }
    var events := CalendarGateway.GetEvents(listing);
    slots := Walk(events, start, durationMinutes, startHour, endHour, searchEnd);
    HourSweepShape(events, start, durationMinutes, startHour, endHour, searchEnd);
    if forall j :: 0 <= j < |events| ==> events[j].start <= searchEnd {
      HourSweepBeforeEnd(events, start, durationMinutes, startHour, endHour, searchEnd);
    }
  }

  /** The hourly cursor loops of lines 61-84, from cursor `start` over the listed events. */
  method Walk(events: seq<Interval>, start: int, durationMinutes: int, startHour: int, endHour: int, searchEnd: int)
    returns (slots: seq<Interval>)
    ensures slots == HourSweep(events, start, durationMinutes, startHour, endHour, searchEnd)
  {
    slots := [];
    var current := start;
    for i := 0 to |events|
      invariant slots + HourSweep(events[i..], current, durationMinutes, startHour, endHour, searchEnd)
        == HourSweep(events, start, durationMinutes, startHour, endHour, searchEnd)
    {
      var event := events[i];
      assert events[i..][0] == event && events[i..][1..] == events[i + 1..];
      var run := Advance(current, event.start, durationMinutes, startHour, endHour);
      slots := slots + run;
      current := FloorHour(event.end);
    }
    var run := Advance(current, searchEnd, durationMinutes, startHour, endHour);
    slots := slots + run;
    assert events[|events|..] == [];
  }

  /** One `while (currentTime < limit)` loop (lines 68-73 and 79-84): hourly cursors before `limit`. */
  method Advance(from: int, limit: int, durationMinutes: int, startHour: int, endHour: int) returns (run: seq<Interval>)
    ensures run == HourRun(from, limit, durationMinutes, startHour, endHour)
  {
    run := [];
    var current := from;
    while current < limit
      invariant run + HourRun(current, limit, durationMinutes, startHour, endHour)
        == HourRun(from, limit, durationMinutes, startHour, endHour)
      decreases limit - current
    {
      if IsValidSlot(current, startHour, endHour) {
        run := run + [FormatSlot(current, durationMinutes)];
      }
      current := current + MinutesPerHour;
    }
  }
}
