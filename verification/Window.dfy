// The promotional SMS window, 10:00 to 21:00 Indian Standard Time, as arithmetic on instants.
// Instants are nanoseconds since the Unix epoch; the zone is a fixed five and a half hours ahead.
module Window {

  const SECOND: int := 1_000_000_000
  const HOUR: int := 3600 * SECOND
  const DAY: int := 24 * HOUR
  const OFFSET: int := 5 * HOUR + 1800 * SECOND
  const OPENS: int := 10
  const CLOSES: int := 21

  // Start of the IST calendar day containing t, as an instant.
  function DayStart(t: int): (r: int)
    ensures r <= t < r + DAY
    ensures (r + OFFSET) % DAY == 0
  {
    var local := t + OFFSET;
    local - local % DAY - OFFSET
  }

  // The IST hour of day.
  function HourOf(t: int): (h: int)
    ensures 0 <= h < 24
  {
    (t - DayStart(t)) / HOUR
  }

  predicate IsOpen(t: int) {
    OPENS <= HourOf(t) < CLOSES
  }

  // Today's opening if it is still ahead, tomorrow's otherwise.
  function ResumeAt(t: int): int {
    var next := DayStart(t) + OPENS * HOUR;
    if t >= next then next + DAY else next
  }

  lemma OpenByOffset(t: int)
    ensures IsOpen(t) <==> OPENS * HOUR <= t - DayStart(t) < CLOSES * HOUR
  {
  }

  lemma SameDay(t: int, u: int)
    requires DayStart(t) <= u < DayStart(t) + DAY
    ensures DayStart(u) == DayStart(t)
  {
    DayUnique(u, DayStart(t));
  }

  lemma DayUnique(u: int, d: int)
    requires (d + OFFSET) % DAY == 0 && d <= u < d + DAY
    ensures DayStart(u) == d
  {
    var q, k := (d + OFFSET) / DAY, (DayStart(u) + OFFSET) / DAY;
    assert d + OFFSET == DAY * q && DayStart(u) + OFFSET == DAY * k;
    assert DAY * (q - k) < DAY && DAY * (k - q) < DAY;
  }

  lemma NextDay(t: int)
    ensures DayStart(DayStart(t) + DAY) == DayStart(t) + DAY
  {
    var d := DayStart(t) + DAY;
    assert (d + OFFSET) % DAY == 0;
    DayUnique(d, d);
  }

  // ---- The window in its own terms ----

  // Midnight in Indian Standard Time, five and a half hours ahead, in nanoseconds since the epoch.
  predicate IsMidnight(d: int) {
    (d + 19_800_000_000_000) % 86_400_000_000_000 == 0
  }

  // From ten in the morning to nine in the evening of some day.
  ghost predicate InSendingHours(t: int) {
    exists d :: IsMidnight(d) && d + 36_000_000_000_000 <= t < d + 75_600_000_000_000
  }

  lemma {:induction false} OpenInSendingHours(t: int)
    ensures IsOpen(t) <==> InSendingHours(t)
  {
    OpenByOffset(t);
    if IsOpen(t) {
      assert IsMidnight(DayStart(t));
    }
    if InSendingHours(t) {
      var d :| IsMidnight(d) && d + 36_000_000_000_000 <= t < d + 75_600_000_000_000;
      DayUnique(t, d);
    }
  }

  // At the instant the window closes it opens again exactly thirteen hours later.
  lemma {:induction false} ClosingIsThirteenHoursShort(d: int)
    requires IsMidnight(d)
    ensures var closing := d + 75_600_000_000_000;
            !InSendingHours(closing) && ResumeAt(closing) == closing + 46_800_000_000_000
  {
    var closing := d + 75_600_000_000_000;
    DayUnique(closing, d);
    OpenByOffset(closing);
    OpenInSendingHours(closing);
  }

  ghost predicate ClosedThroughout(from: int, to: int) {
    forall u :: from <= u < to ==> !InSendingHours(u)
  }

  ghost predicate IsNextOpening(from: int, at: int) {
    from < at && InSendingHours(at) && ClosedThroughout(from, at)
  }

  // When the window is closed, the resume instant is the least later instant at which it is open,
  // at most thirteen hours away.
  lemma {:induction false} ResumeIsNextOpening(t: int)
    requires !InSendingHours(t)
    ensures t < ResumeAt(t) <= t + 46_800_000_000_000
    ensures InSendingHours(ResumeAt(t))
    ensures ClosedThroughout(t, ResumeAt(t))
  {
    var d, r := DayStart(t), ResumeAt(t);
    OpenInSendingHours(t);
    OpenByOffset(t);
    NextDay(t);
    if r < d + DAY {
      SameDay(t, r);
    } else {
      DayUnique(r, d + DAY);
    }
    OpenByOffset(r);
    OpenInSendingHours(r);
    forall u | t <= u < r ensures !InSendingHours(u) {
      if u < d + DAY { SameDay(t, u); } else { DayUnique(u, d + DAY); }
      OpenByOffset(u);
      OpenInSendingHours(u);
    }
  }

  // Within the same interval between openings the resume instant does not move.
  lemma ResumeStable(t: int, u: int)
    requires t <= u < ResumeAt(t)
    ensures ResumeAt(u) == ResumeAt(t)
  {
    var d := DayStart(t);
    if u < d + DAY {
      SameDay(t, u);
    } else {
      NextDay(t);
      DayUnique(u, d + DAY);
    }
  }

  // At and after an opening, until the next one, the resume instant is a day later.
  lemma ResumeAfterOpening(t: int, u: int)
    requires ResumeAt(t) <= u < ResumeAt(t) + DAY
    ensures ResumeAt(u) == ResumeAt(t) + DAY
  {
    var d := DayStart(ResumeAt(t));
    OpeningOfDay(t);
    NextDay(ResumeAt(t));
    if u < d + DAY {
      SameDay(ResumeAt(t), u);
    } else {
      DayUnique(u, d + DAY);
    }
  }

  lemma OpeningOfDay(t: int)
    ensures ResumeAt(t) == DayStart(ResumeAt(t)) + OPENS * HOUR && ResumeAt(t) > t
  {
    var d := DayStart(t);
    NextDay(t);
    if t >= d + OPENS * HOUR {
      DayUnique(ResumeAt(t), d + DAY);
    } else {
      SameDay(t, ResumeAt(t));
    }
  }

  lemma ResumeMonotone(t: int, u: int)
    requires t <= u
    ensures ResumeAt(t) <= ResumeAt(u)
  {
    OpeningOfDay(u);
    if u < ResumeAt(t) {
      ResumeStable(t, u);
    }
  }

  // ---- The worker's three clock reads: the window test, the next opening, the time until it ----

  function Deferral(resumeRead: int, untilRead: int): int {
    ResumeAt(resumeRead) - untilRead
  }

  // A job refused by the window test is deferred to exactly the next opening precisely when that
  // opening is still ahead at the last read. An opening that falls between the last two reads yields a
  // nonpositive delay; one at or before the second read yields a deferral to the day after.
  lemma {:induction false} ThreeReads(test: int, resumeRead: int, untilRead: int)
    requires !InSendingHours(test) && test <= resumeRead <= untilRead
    ensures var d := Deferral(resumeRead, untilRead);
            d > 0 && untilRead + d == ResumeAt(test) <==> untilRead < ResumeAt(test)
    ensures untilRead < ResumeAt(test) ==> 0 < Deferral(resumeRead, untilRead) <= 46_800_000_000_000
    ensures resumeRead < ResumeAt(test) <= untilRead ==> Deferral(resumeRead, untilRead) <= 0
    ensures ResumeAt(test) <= resumeRead && untilRead < ResumeAt(test) + DAY ==>
              Deferral(resumeRead, untilRead) > 0 && untilRead + Deferral(resumeRead, untilRead) == ResumeAt(test) + DAY
  {
    OpenInSendingHours(test);
    ResumeIsNextOpening(test);
    if resumeRead < ResumeAt(test) {
      ResumeStable(test, resumeRead);
    } else if resumeRead < ResumeAt(test) + DAY {
      ResumeAfterOpening(test, resumeRead);
    } else {
      ResumeMonotone(test, resumeRead);
    }
  }

  // Both bad cases occur one nanosecond around 10:00 IST on 1 January 1970 (04:30 UTC).
  lemma BoundaryCrossings()
    ensures var opening := 4 * HOUR + 1800 * SECOND;
            && !IsOpen(opening - 1)
            && Deferral(opening, opening) == DAY
            && Deferral(opening - 1, opening) == 0
  {
    var opening := 4 * HOUR + 1800 * SECOND;
    DayUnique(opening - 1, -OFFSET);
    DayUnique(opening, -OFFSET);
    OpenByOffset(opening - 1);
  }
}
