/** internal/bankingcircle/businessdate.go: the bank's business day of a booking. */
module BusinessDay {
  import opened Text

  // Days are counted from 1970-01-01; off gives the bank's offset from UTC, in seconds, at an instant.

  const DAY: int := 86400
  const CUTOFF_HOUR: int := 19

  /** What the text of a timestamp turned out to be. */
  datatype Stamp = Instant(t: int) | BareDate(day: int) | Unreadable

  function Local(t: int, off: int -> int): int {
    t + off(t)
  }

  /** 0 is Sunday; 1970-01-01 was a Thursday. */
  function Weekday(day: int): int {
    (day + 4) % 7
  }

  predicate Weekend(day: int) {
    Weekday(day) == 0 || Weekday(day) == 6
  }

  /** The local day, moved on by one from 19:00. */
  function ShiftedDay(t: int, off: int -> int): int {
    (Local(t, off) + (24 - CUTOFF_HOUR) * 3600) / DAY
  }

  /** Days to the next day that is not a weekend day. */
  function ToWork(day: int): nat {
    if Weekday(day) == 6 then 2 else if Weekday(day) == 0 then 1 else 0
  }

  function Roll(day: int): int {
    day + ToWork(day)
  }

  function DayOf(t: int, off: int -> int): int {
    Roll(ShiftedDay(t, off))
  }

  method BusinessDate(ts: Stamp, off: int -> int) returns (day: Option<int>)
    ensures ts.Unreadable? ==> day == None
    ensures ts.BareDate? ==> day == Some(ts.day)
    ensures ts.Instant? ==> day == Some(DayOf(ts.t, off))
  {
    match ts
    case Unreadable => return None;
    case BareDate(d) => return Some(d);
    case Instant(t) =>
      var local := Local(t, off);
      var d := local / DAY;
      var hour := local % DAY / 3600;
      if hour >= CUTOFF_HOUR {
        d := d + 1;
      }
      assert d == ShiftedDay(t, off);
      while Weekday(d) == 6 || Weekday(d) == 0
        invariant Roll(d) == DayOf(t, off)
        decreases ToWork(d)
      {
        d := d + 1;
      }
      return Some(d);
  }

  /** 1970-01-01 was a Thursday: of days 0 to 6 the third and the fourth are a Saturday and a Sunday, and so every
      week. */
  lemma WeekendMeaning(day: int)
    ensures Weekend(day) <==> day % 7 == 2 || day % 7 == 3
    ensures Weekend(day + 7) == Weekend(day)
  {
  }

  /** The business day of an instant, from the seconds on the bank's clock: a day ends at 19:00, a Saturday counts as
      the Monday two days later and a Sunday as the Monday one day later. */
  lemma DayOfMeaning(t: int, off: int -> int)
    ensures var clock := t + off(t);
      var d := if clock % 86400 >= 68400 then clock / 86400 + 1 else clock / 86400;
      DayOf(t, off) == if d % 7 == 2 then d + 2 else if d % 7 == 3 then d + 1 else d
  {
  }

  /** The week of 14 to 21 September 2026, two hours ahead of UTC: Thursday 18:59:59 is the 17th and 19:00 the 18th;
      Friday 19:30, Saturday noon and the small hours of Monday are all Monday the 21st. */
  lemma SeptemberWeek(off: int -> int)
    requires forall t :: off(t) == 7200
    ensures var thursday := 20713 * 86400;
      && DayOf(thursday + 61199, off) == 20713 && DayOf(thursday + 61200, off) == 20714
      && DayOf(thursday + 86400 + 63000, off) == 20717
      && DayOf(thursday + 2 * 86400 + 36000, off) == 20717 && DayOf(thursday + 3 * 86400 + 82800, off) == 20717
  {
  }

  /** The business day is the first day that is not a weekend day, on or after the shifted day. */
  lemma RollIsLeast(day: int)
    ensures day <= Roll(day) && !Weekend(Roll(day))
    ensures forall d :: day <= d < Roll(day) ==> Weekend(d)
    ensures forall d :: day <= d && !Weekend(d) ==> Roll(day) <= d
  {
  }

  lemma RollMonotone(c: int, d: int)
    requires c <= d
    ensures Roll(c) <= Roll(d)
  {
    RollIsLeast(c);
    RollIsLeast(d);
  }

  /** Going from d back to c loses no working day. */
  ghost predicate OnlyWeekend(c: int, d: int) {
    forall k :: c <= k < d ==> Weekend(k)
  }

  lemma RollBackIff(c: int, d: int)
    requires c <= d
    ensures Roll(c) == Roll(d) <==> OnlyWeekend(c, d)
  {
    RollIsLeast(c);
    RollIsLeast(d);
    if OnlyWeekend(c, d) {
      RollMonotone(c, d);
      assert Roll(c) >= d;
    } else {
      var k :| c <= k < d && !Weekend(k);
      assert Roll(c) <= k;
    }
  }

  /** Every time the local clock is set back, it passes 19:00 only over weekend days. */
  ghost predicate SetBacksSafe(off: int -> int) {
    forall t :: Local(t + 1, off) < Local(t, off) ==> OnlyWeekend(ShiftedDay(t + 1, off), ShiftedDay(t, off))
  }

  ghost predicate NeverBack(off: int -> int) {
    forall t, u :: t <= u ==> DayOf(t, off) <= DayOf(u, off)
  }

  lemma ShiftedFollowsLocal(t: int, u: int, off: int -> int)
    requires Local(t, off) <= Local(u, off)
    ensures ShiftedDay(t, off) <= ShiftedDay(u, off)
  {
  }

  lemma NextSecond(t: int, off: int -> int)
    requires SetBacksSafe(off)
    ensures DayOf(t, off) <= DayOf(t + 1, off)
  {
    hide Roll;
    var c, d := ShiftedDay(t + 1, off), ShiftedDay(t, off);
    if Local(t + 1, off) < Local(t, off) {
      ShiftedFollowsLocal(t + 1, t, off);
      assert OnlyWeekend(c, d);
      RollBackIff(c, d);
    } else {
      ShiftedFollowsLocal(t, t + 1, off);
      RollMonotone(d, c);
    }
  }

  lemma {:induction false} SafeMeansNeverBack(t: int, u: int, off: int -> int)
    requires SetBacksSafe(off) && t <= u
    ensures DayOf(t, off) <= DayOf(u, off)
    decreases u - t
  {
    hide DayOf, SetBacksSafe;
    if t < u {
      NextSecond(t, off);
      SafeMeansNeverBack(t + 1, u, off);
    }
  }

  /** As time advances the business day never goes back, if and only if no set-back of the clock
      crosses 19:00 into a working day. Midnight does not matter to the day, only 19:00 does. */
  lemma NeverBackIff(off: int -> int)
    ensures NeverBack(off) <==> SetBacksSafe(off)
  {
    hide Roll, Local, ShiftedDay, DayOf;
    if SetBacksSafe(off) {
      forall t, u | t <= u ensures DayOf(t, off) <= DayOf(u, off) {
        SafeMeansNeverBack(t, u, off);
      }
    }
    if NeverBack(off) {
      forall t | Local(t + 1, off) < Local(t, off)
        ensures OnlyWeekend(ShiftedDay(t + 1, off), ShiftedDay(t, off))
      {
        ShiftedFollowsLocal(t + 1, t, off);
        assert DayOf(t, off) <= DayOf(t + 1, off);
        DayIsRolled(t, off);
        DayIsRolled(t + 1, off);
        RollMonotone(ShiftedDay(t + 1, off), ShiftedDay(t, off));
        RollBackIff(ShiftedDay(t + 1, off), ShiftedDay(t, off));
      }
    }
  }

  lemma DayIsRolled(t: int, off: int -> int)
    ensures DayOf(t, off) == Roll(ShiftedDay(t, off))
  {
  }

  /** A clock set back by an hour at any moment not in 19:00-19:59 local time is safe, at night included. */
  lemma SetBackAwayFromCutoff(t: int, off: int -> int)
    requires Local(t + 1, off) == Local(t, off) + 1 - 3600
    requires Local(t, off) % DAY / 3600 != CUTOFF_HOUR
    ensures ShiftedDay(t + 1, off) == ShiftedDay(t, off)
  {
  }
}
