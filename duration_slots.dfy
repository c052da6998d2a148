/**
 * Free-slot enumeration stepped by the meeting duration (`getAvailableSlots`
 * in src/calendar.js). A cursor walks the calendar's events in start order:
 * before each event it emits back-to-back slots of `duration` minutes that
 * end by the event's start, then jumps past the event; after the last event
 * it emits slots that end by the window's end.
 */
module DurationSlots {
  import opened Time
  import CalendarGateway

  /** Every slot ends at or before every later slot starts. */
  predicate Ordered(slots: seq<Interval>)
  {
    forall i, j :: 0 <= i < j < |slots| ==> slots[i].end <= slots[j].start
  }

  /** The order `events.list` is asked for (`orderBy: "startTime"`). */
  predicate SortedByStart(events: seq<Interval>)
  {
    forall i, j :: 0 <= i < j < |events| ==> events[i].start <= events[j].start
  }

  /** No slot shares a minute with any event. */
  predicate AvoidsAll(slots: seq<Interval>, events: seq<Interval>)
  {
    forall i, j :: 0 <= i < |slots| && 0 <= j < |events| ==> Disjoint(slots[i], events[j])
  }

  /** Every event starts by `t` (the listing only returns events that start before `timeMax`). */
  predicate StartBy(events: seq<Interval>, t: int)
  {
    forall j :: 0 <= j < |events| ==> events[j].start <= t
  }

  /** The slots `[c, c+d), [c+d, c+2d), ...` of one stretch, as long as a slot ends by `limit`. */
  function Run(c: int, limit: int, d: int): seq<Interval>
    requires d > 0
    decreases limit - c
  {
    if c + d <= limit then [Interval(c, c + d)] + Run(c + d, limit, d) else []
  }

  /** Where the cursor stands after the stretch `Run(c, limit, d)`. */
  function RunEnd(c: int, limit: int, d: int): int
    requires d > 0
    decreases limit - c
  {
    if c + d <= limit then RunEnd(c + d, limit, d) else c
  }

  /** The slots of the whole walk from cursor `c` over `events` up to `windowEnd`. */
  function Sweep(events: seq<Interval>, c: int, d: int, windowEnd: int): seq<Interval>
    requires d > 0
    decreases |events|
  {
    if |events| == 0 then Run(c, windowEnd, d)
    else
      var e := events[0];
      var stop := RunEnd(c, e.start, d);
      Run(c, e.start, d) + Sweep(events[1..], if stop < e.end then e.end else stop, d, windowEnd)
  }

  /** Line 31: the cursor starts at `startTime` with its minutes zeroed, plus `duration`. */
  function FirstCursor(startTime: int, duration: int): int
  {
    FloorHour(startTime) + duration
  }

  /** What `getAvailableSlots` returns for a listing answer (lines 30-90). */
  function Slots(listing: CalendarGateway.Listing<Interval>, duration: int, startTime: int, endTime: int): seq<Interval>
    requires duration > 0
  {
    if listing.ListFailed? then []
    else Sweep(CalendarGateway.GetEvents(listing), FirstCursor(startTime, duration), duration, endTime)
  }

  /** One stretch: contiguous slots of length `d` from `c`; the next slot would pass `limit`. */
  lemma {:induction false} RunFacts(c: int, limit: int, d: int)
    requires d > 0
    ensures var r := Run(c, limit, d);
      var stop := RunEnd(c, limit, d);
      && c <= stop && limit < stop + d
      && (|r| == 0 <==> stop == c)
      && (|r| > 0 ==> r[0].start == c && r[|r| - 1].end == stop && stop <= limit)
      && (forall i :: 0 <= i < |r| ==> c <= r[i].start && r[i].end == r[i].start + d && r[i].end <= stop)
      && (forall i :: 0 <= i < |r| - 1 ==> r[i + 1].start == r[i].end)
      && Ordered(r)
    decreases limit - c
  {
    if c + d <= limit {
      RunFacts(c + d, limit, d);
      var rest := Run(c + d, limit, d);
      var r := Run(c, limit, d);
      assert r == [Interval(c, c + d)] + rest;
      forall i | 0 <= i < |r| ensures c <= r[i].start && r[i].end == r[i].start + d && r[i].end <= RunEnd(c, limit, d) {
        if i > 0 { assert r[i] == rest[i - 1]; }
      }
      forall i | 0 <= i < |r| - 1 ensures r[i + 1].start == r[i].end {
        if i > 0 { assert r[i] == rest[i - 1] && r[i + 1] == rest[i]; }
      }
      forall i, j | 0 <= i < j < |r| ensures r[i].end <= r[j].start {
        assert r[j] == rest[j - 1];
        if i > 0 { assert r[i] == rest[i - 1]; }
      }
    }
  }

  lemma OrderedConcat(a: seq<Interval>, b: seq<Interval>, m: int)
    requires Ordered(a) && Ordered(b)
    requires forall i :: 0 <= i < |a| ==> a[i].end <= m
    requires forall j :: 0 <= j < |b| ==> m <= b[j].start
    ensures Ordered(a + b)
  {
    var s := a + b;
    forall i, j | 0 <= i < j < |s| ensures s[i].end <= s[j].start {
      if j < |a| { assert s[i] == a[i] && s[j] == a[j]; }
      else if i >= |a| { assert s[i] == b[i - |a|] && s[j] == b[j - |a|]; }
      else { assert s[i] == a[i] && s[j] == b[j - |a|]; }
    }
  }

  /** Every slot of the walk lasts `d` minutes and starts at or after the first cursor; the slots are ordered. */
  lemma {:induction false} SweepShape(events: seq<Interval>, c: int, d: int, windowEnd: int)
    requires d > 0
    ensures var s := Sweep(events, c, d, windowEnd);
      && (forall i :: 0 <= i < |s| ==> c <= s[i].start && s[i].end == s[i].start + d)
      && Ordered(s)
    decreases |events|
  {
    if |events| == 0 {
      RunFacts(c, windowEnd, d);
    } else {
      var e := events[0];
      var stop := RunEnd(c, e.start, d);
      var next := if stop < e.end then e.end else stop;
      RunFacts(c, e.start, d);
      SweepShape(events[1..], next, d, windowEnd);
      var a, b := Run(c, e.start, d), Sweep(events[1..], next, d, windowEnd);
      OrderedConcat(a, b, next);
      var s := Sweep(events, c, d, windowEnd);
      assert s == a + b;
      forall i | 0 <= i < |s| ensures c <= s[i].start && s[i].end == s[i].start + d {
        if i < |a| { assert s[i] == a[i]; } else { assert s[i] == b[i - |a|]; }
      }
    }
  }

  /** With events in start order, no slot of the walk overlaps any event. */
  lemma {:induction false} SweepAvoidsEvents(events: seq<Interval>, c: int, d: int, windowEnd: int)
    requires d > 0
    requires SortedByStart(events)
    ensures AvoidsAll(Sweep(events, c, d, windowEnd), events)
    decreases |events|
  {
    if |events| > 0 {
      var e := events[0];
      var stop := RunEnd(c, e.start, d);
      var next := if stop < e.end then e.end else stop;
      RunFacts(c, e.start, d);
      var rest := events[1..];
      assert SortedByStart(rest) by {
        forall i, j | 0 <= i < j < |rest| ensures rest[i].start <= rest[j].start {
          assert rest[i] == events[i + 1] && rest[j] == events[j + 1];
        }
      }
      SweepAvoidsEvents(rest, next, d, windowEnd);
      SweepShape(rest, next, d, windowEnd);
      var a, b := Run(c, e.start, d), Sweep(rest, next, d, windowEnd);
      var s := Sweep(events, c, d, windowEnd);
      assert s == a + b;
      forall i, j | 0 <= i < |s| && 0 <= j < |events| ensures Disjoint(s[i], events[j]) {
        if i < |a| {
          // The slot ends by the first event's start, hence by every event's start.
          assert s[i] == a[i];
          assert events[0].start <= events[j].start;
        } else {
          assert s[i] == b[i - |a|];
          if j > 0 {
            assert events[j] == rest[j - 1];
          }
        }
      }
    }
  }

  /** When every event starts by the window end, no slot of the walk ends after it. */
  lemma {:induction false} SweepWithinWindow(events: seq<Interval>, c: int, d: int, windowEnd: int)
    requires d > 0
    requires StartBy(events, windowEnd)
    ensures forall i :: 0 <= i < |Sweep(events, c, d, windowEnd)| ==> Sweep(events, c, d, windowEnd)[i].end <= windowEnd
    decreases |events|
  {
    var s := Sweep(events, c, d, windowEnd);
    if |events| == 0 {
      RunFacts(c, windowEnd, d);
    } else {
      var e := events[0];
      var stop := RunEnd(c, e.start, d);
      var next := if stop < e.end then e.end else stop;
      RunFacts(c, e.start, d);
      var rest := events[1..];
      assert StartBy(rest, windowEnd) by {
        forall j | 0 <= j < |rest| ensures rest[j].start <= windowEnd { assert rest[j] == events[j + 1]; }
      }
      SweepWithinWindow(rest, next, d, windowEnd);
      var a, b := Run(c, e.start, d), Sweep(rest, next, d, windowEnd);
      assert s == a + b;
      forall i | 0 <= i < |s| ensures s[i].end <= windowEnd {
        if i < |a| { assert s[i] == a[i]; } else { assert s[i] == b[i - |a|]; }
      }
    }
  }

  /** When `startTime` is on the hour, no slot starts at `startTime` itself: the first one starts `duration` later. */
  lemma OnTheHourStartIsSkipped(listing: CalendarGateway.Listing<Interval>, duration: int, startTime: int, endTime: int)
    requires duration > 0 && startTime % MinutesPerHour == 0
    ensures forall i :: 0 <= i < |Slots(listing, duration, startTime, endTime)| ==>
      Slots(listing, duration, startTime, endTime)[i].start >= startTime + duration
  {
    if !listing.ListFailed? {
      SweepShape(CalendarGateway.GetEvents(listing), FirstCursor(startTime, duration), duration, endTime);
    }
  }

  /** A start time past the hour can yield a slot that begins before it: 10:45 with 30 minutes gives 10:30. */
  lemma StartCanPrecedeWindow()
    ensures Slots(CalendarGateway.NoItems, 30, 645, 720) == [Interval(630, 660), Interval(660, 690), Interval(690, 720)]
  {
    assert Run(630, 720, 30) == [Interval(630, 660)] + Run(660, 720, 30);
    assert Run(660, 720, 30) == [Interval(660, 690)] + Run(690, 720, 30);
    assert Run(690, 720, 30) == [Interval(690, 720)] + Run(720, 720, 30);
  }

  /**
   * One busy hour 10:00-11:00 in the window 09:00-12:00 with 60-minute slots:
   * the cursor starts at 10:00 (09:00 plus the duration), so only 11:00-12:00 is offered.
   */
  lemma OneBusyHourExample()
    ensures Slots(CalendarGateway.Items([Interval(600, 660)]), 60, 540, 720) == [Interval(660, 720)]
  {
    var events := [Interval(600, 660)];
    assert Run(600, 600, 60) == [] && RunEnd(600, 600, 60) == 600;
    assert events[1..] == [];
    assert Run(660, 720, 60) == [Interval(660, 720)] + Run(720, 720, 60);
  }

  /**
   * `getAvailableSlots` (lines 30-90) over the listing answer: a listing error
   * gives `[]`; otherwise the cursor loop of lines 51-83.
   */
  method GetAvailableSlots(listing: CalendarGateway.Listing<Interval>, duration: int, startTime: int, endTime: int)
    returns (slots: seq<Interval>)
    requires duration > 0
    ensures slots == Slots(listing, duration, startTime, endTime)
    ensures forall i :: 0 <= i < |slots| ==>
      slots[i].end == slots[i].start + duration && FirstCursor(startTime, duration) <= slots[i].start
    ensures Ordered(slots)
    ensures SortedByStart(CalendarGateway.GetEvents(listing)) ==> AvoidsAll(slots, CalendarGateway.GetEvents(listing))
    ensures StartBy(CalendarGateway.GetEvents(listing), endTime) ==> forall i :: 0 <= i < |slots| ==> slots[i].end <= endTime
  {
    var startMoment := FloorHour(startTime) + duration;
    if listing.ListFailed? {
      return [];
    }
    var events := CalendarGateway.GetEvents(listing);
    slots := Walk(events, startMoment, duration, endTime);
    SweepShape(events, startMoment, duration, endTime);
    if SortedByStart(events) {
      SweepAvoidsEvents(events, startMoment, duration, endTime);
    }
    if StartBy(events, endTime) {
      SweepWithinWindow(events, startMoment, duration, endTime);
    }
  }

  /** The cursor loops of lines 51-83, from cursor `startMoment` over the listed events. */
  method Walk(events: seq<Interval>, startMoment: int, duration: int, endTime: int) returns (slots: seq<Interval>)
    requires duration > 0
    ensures slots == Sweep(events, startMoment, duration, endTime)
  {
    slots := [];
    var current := startMoment;
    var i := 0;
    while i < |events|
      invariant 0 <= i <= |events|
      invariant slots + Sweep(events[i..], current, duration, endTime) == Sweep(events, startMoment, duration, endTime)
    {
      var event := events[i];
      assert events[i..][0] == event && events[i..][1..] == events[i + 1..];
      var run;
      run, current := Fill(current, event.start, duration);
      slots := slots + run;
      if current < event.end {
        current := event.end;
      }
      i := i + 1;
    }
    var run;
    run, current := Fill(current, endTime, duration);
    slots := slots + run;
    assert events[|events|..] == [];
  }

  /** One `while` loop (lines 58-66 and 75-83): back-to-back slots from `from` while they fit before `limit`, and where the cursor stops. */
  method Fill(from: int, limit: int, duration: int) returns (run: seq<Interval>, current: int)
    requires duration > 0
    ensures run == Run(from, limit, duration) && current == RunEnd(from, limit, duration)
  {
    run := [];
    current := from;
    while current < limit
      invariant run + Run(current, limit, duration) == Run(from, limit, duration)
      invariant RunEnd(current, limit, duration) == RunEnd(from, limit, duration)
      decreases limit - current
    {
      var slotEnd := current + duration;
      if slotEnd > limit {
        break;
      }
      assert Run(current, limit, duration) == [Interval(current, slotEnd)] + Run(slotEnd, limit, duration);
      assert run + [Interval(current, slotEnd)] + Run(slotEnd, limit, duration) == run + Run(current, limit, duration);
      run := run + [Interval(current, slotEnd)];
      current := slotEnd;
    }
    assert Run(current, limit, duration) == [] && RunEnd(current, limit, duration) == current;
    assert run + [] == run;
  }
}
