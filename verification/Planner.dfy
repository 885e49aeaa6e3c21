/** The four-week planner: which cell of the grid a date is, and the runs created for it. */
module Planner {
  import opened Text

  // ----- The calendar -----

  /** Months are counted from January of year 1, days of the calendar from its first day, which is a Monday. */
  datatype Date = Date(month: nat, day: nat)

  predicate IsLeap(year: nat) {
    year % 4 == 0 && (year % 100 != 0 || year % 400 == 0)
  }

  function Length(month: nat): (n: nat)
    ensures 28 <= n <= 31
  {
    var m := month % 12 + 1;
    if m == 2 then (if IsLeap(month / 12 + 1) then 29 else 28)
    else if m in {4, 6, 9, 11} then 30
    else 31
  }

  function StartOf(month: nat): nat {
    if month == 0 then 0 else StartOf(month - 1) + Length(month - 1)
  }

  predicate Valid(d: Date) {
    1 <= d.day <= Length(d.month)
  }

  function Ordinal(d: Date): int {
    StartOf(d.month) + d.day - 1
  }

  /** Monday is 0. */
  function Weekday(d: Date): (w: int)
    ensures 0 <= w < 7
  {
    Ordinal(d) % 7
  }

  lemma MonthLength(year: nat, i: nat)
    requires i < 12
    ensures Length(12 * year + i) ==
            if i == 1 then (if IsLeap(year + 1) then 29 else 28) else if i in {3, 5, 8, 10} then 30 else 31
  {
    assert (12 * year + i) % 12 == i && (12 * year + i) / 12 == year;
  }

  /** The days of the first `n` months of a year. */
  function DaysBefore(n: nat, leap: bool): int
    requires n <= 12
  {
    if n == 0 then 0
    else DaysBefore(n - 1, leap) + (if n == 2 then (if leap then 29 else 28) else if n in {4, 6, 9, 11} then 30 else 31)
  }

  lemma {:induction false} MonthStarts(year: nat, n: nat)
    requires n <= 12
    ensures StartOf(12 * year + n) == StartOf(12 * year) + DaysBefore(n, IsLeap(year + 1))
  {
    if n > 0 {
      MonthStarts(year, n - 1);
      MonthLength(year, n - 1);
    }
  }

  lemma YearLength(leap: bool)
    ensures DaysBefore(12, leap) == if leap then 366 else 365
  {
    var more := if leap then 1 else 0;
    assert DaysBefore(1, leap) == 31;
    assert DaysBefore(3, leap) == 90 + more;
    assert DaysBefore(5, leap) == 151 + more;
    assert DaysBefore(7, leap) == 212 + more;
    assert DaysBefore(9, leap) == 273 + more;
    assert DaysBefore(11, leap) == 334 + more;
  }

  /** The days of so many years: a leap day every fourth year, but for three centuries of four. */
  function DaysOfYears(years: nat): int {
    365 * years + years / 4 - years / 100 + years / 400
  }

  lemma LeapDays(year: nat)
    ensures DaysOfYears(year + 1) == DaysOfYears(year) + if IsLeap(year + 1) then 366 else 365
  {
    Fourths(year);
    Centuries(year);
    assert (year + 1) / 400 == year / 400 + if (year + 1) % 400 == 0 then 1 else 0;
  }

  lemma Fourths(n: nat)
    ensures (n + 1) / 4 == n / 4 + if (n + 1) % 4 == 0 then 1 else 0
  {
  }

  lemma Centuries(n: nat)
    ensures (n + 1) / 100 == n / 100 + if (n + 1) % 100 == 0 then 1 else 0
    ensures (n + 1) % 400 == 0 ==> (n + 1) % 100 == 0
    ensures (n + 1) % 100 == 0 ==> (n + 1) % 4 == 0
  {
  }

  /** The calendar is the Gregorian one. */
  lemma {:induction false} YearStarts(year: nat)
    ensures StartOf(12 * year) == DaysOfYears(year)
  {
    if year > 0 {
      YearStarts(year - 1);
      MonthStarts(year - 1, 12);
      YearLength(IsLeap(year));
      LeapDays(year - 1);
    }
  }

  // ----- Cells of the grid -----

  datatype Cell = Cell(week: int, weekday: int)

  predicate OnGrid(c: Cell) {
    1 <= c.week <= 4 && 0 <= c.weekday <= 4
  }

  /** The cell of a date; week-ends and fifth occurrences are idle. */
  function PositionForDate(d: Date): Option<Cell>
    requires Valid(d)
  {
    if Weekday(d) > 4 then None
    else
      var occurrence := (d.day - 1) / 7 + 1;
      if occurrence > 4 then None else Some(Cell(occurrence, Weekday(d)))
  }

  /** The days of the month up to `d` that fall on the weekday of `d`. */
  ghost function Occurrences(d: Date): set<int> {
    set day | 1 <= day <= d.day && Weekday(Date(d.month, day)) == Weekday(d)
  }

  lemma WithinAWeek(x: int, k: int)
    requires 0 < k < 7
    ensures (x - k) % 7 != x % 7 && (x - 7) % 7 == x % 7
  {
  }

  lemma WeekEarlier(d: Date)
    requires d.day > 7
    ensures Occurrences(d) == Occurrences(Date(d.month, d.day - 7)) + {d.day}
  {
    var e := Date(d.month, d.day - 7);
    WithinAWeek(Ordinal(d), 1);
    assert Ordinal(d) - 7 == Ordinal(e) && Weekday(e) == Weekday(d);
    forall day | e.day < day < d.day ensures Weekday(Date(d.month, day)) != Weekday(d) { NoRepeat(d, day); }
    forall day ensures day in Occurrences(d) <==> day in Occurrences(e) || day == d.day {}
  }

  lemma NoRepeat(d: Date, day: nat)
    requires d.day - 7 < day < d.day
    ensures Weekday(Date(d.month, day)) != Weekday(d)
  {
    WithinAWeek(Ordinal(d), d.day - day);
    assert Ordinal(Date(d.month, day)) == Ordinal(d) - (d.day - day);
  }

  /** The week of a cell counts the occurrences of the weekday in the month so far. */
  lemma {:induction false} OccurrencesCounted(d: Date)
    requires d.day >= 1
    ensures |Occurrences(d)| == (d.day - 1) / 7 + 1
    decreases d.day
  {
    if d.day <= 7 {
      forall day | 1 <= day < d.day ensures Weekday(Date(d.month, day)) != Weekday(d) { NoRepeat(d, day); }
      assert Occurrences(d) == {d.day};
    } else {
      OccurrencesCounted(Date(d.month, d.day - 7));
      WeekEarlier(d);
    }
  }

  lemma PositionCountsWeekdays(d: Date)
    requires Valid(d)
    ensures PositionForDate(d) ==
            if Weekday(d) <= 4 && |Occurrences(d)| <= 4 then Some(Cell(|Occurrences(d)|, Weekday(d))) else None
  {
    OccurrencesCounted(d);
  }

  /** The day of the month on which a cell fires. */
  function FiringDay(month: nat, c: Cell): int {
    FiringDayFrom(StartOf(month), c)
  }

  /** The same for a month that begins on day `start` of the calendar. */
  function FiringDayFrom(start: int, c: Cell): int {
    7 * (c.week - 1) + (c.weekday - start) % 7 + 1
  }

  /** Every cell fires exactly once in every month, within its first 28 days. */
  lemma CellFiresOnce(month: nat, c: Cell, day: nat)
    requires OnGrid(c) && Valid(Date(month, day))
    ensures PositionForDate(Date(month, day)) == Some(c) <==> day == FiringDay(month, c)
    ensures 7 * (c.week - 1) < FiringDay(month, c) <= 7 * c.week <= 28
  {
    FiresFrom(StartOf(month), day, c);
  }

  lemma FiresFrom(start: int, day: nat, c: Cell)
    requires OnGrid(c) && day >= 1
    ensures (start + day - 1) % 7 == c.weekday && (day - 1) / 7 + 1 == c.week <==> day == FiringDayFrom(start, c)
    ensures 7 * (c.week - 1) < FiringDayFrom(start, c) <= 7 * c.week <= 28
  {
    var off := (day - 1) % 7;
    assert day - 1 == 7 * ((day - 1) / 7) + off;
    SameRemainder(start, off, c.weekday);
    assert (start + day - 1) % 7 == (start + off) % 7;
  }

  lemma SameRemainder(start: int, off: int, w: int)
    requires 0 <= off < 7 && 0 <= w < 7
    ensures (start + off) % 7 == w <==> off == (w - start) % 7
  {
  }

  /** On the first 28 days, working days and cells correspond; all other days are idle. */
  lemma GridIsCovered(d: Date)
    requires Valid(d)
    ensures PositionForDate(d).Some? <==> Weekday(d) <= 4 && d.day <= 28
    ensures PositionForDate(d).Some? ==>
              OnGrid(PositionForDate(d).value) && FiringDay(d.month, PositionForDate(d).value) == d.day
  {
    if PositionForDate(d).Some? { CellFiresOnce(d.month, PositionForDate(d).value, d.day); }
  }

  /**
   From one month to the next a cell fires 28 or 35 days later: 28 if four weeks later is still in the same seven
   days of the month, as it always is after a February of 28 days.
   */
  lemma ConsecutiveFirings(month: nat, c: Cell)
    requires OnGrid(c)
    ensures var here := FiringDay(month, c);
            var gap := Ordinal(Date(month + 1, FiringDay(month + 1, c))) - Ordinal(Date(month, here));
            && gap == (if here + 28 - Length(month) > 7 * (c.week - 1) then 28 else 35)
            && (Length(month) == 28 ==> gap == 28)
  {
    NextFiring(StartOf(month), Length(month), c);
    NextMonth(month, c);
  }

  lemma NextMonth(month: nat, c: Cell)
    requires OnGrid(c)
    ensures FiringDay(month + 1, c) == FiringDayFrom(StartOf(month) + Length(month), c)
    ensures Ordinal(Date(month + 1, FiringDay(month + 1, c))) - Ordinal(Date(month, FiringDay(month, c))) ==
            Length(month) + FiringDayFrom(StartOf(month) + Length(month), c) - FiringDayFrom(StartOf(month), c)
  {
  }

  lemma NextFiring(start: int, l: int, c: Cell)
    requires 28 <= l <= 31
    ensures var here, next := FiringDayFrom(start, c), FiringDayFrom(start + l, c);
            l + next - here == if here + 28 - l > 7 * (c.week - 1) then 28 else 35
    ensures FiringDayFrom(start, c) > 7 * (c.week - 1)
  {
    Gap(c.weekday, start, l);
  }

  lemma Gap(w: int, s: int, l: int)
    requires 28 <= l <= 31
    ensures var x, y := (w - s) % 7, (w - (s + l)) % 7; l - x + y == if x + 28 >= l then 28 else 35
  {
    var x, y := (w - s) % 7, (w - (s + l)) % 7;
    assert 7 * ((w - s) / 7) + x == w - s && 7 * ((w - s - l) / 7) + y == w - s - l;
    var q := (w - s) / 7 - (w - s - l) / 7;
    assert l - x + y == 7 * q;
    assert 3 < q < 6;
  }

  // ----- Time zones -----

  const DAY: int := 86_400
  const HOUR: int := 3_600

  /** Offsets from UTC in seconds, of an instant and of a local time. */
  datatype Zone = Zone(offsetAt: int -> int, offsetOfWall: int -> int)

  function FixedZone(offset: int): Zone {
    Zone(t => offset, w => offset)
  }

  function DateIn(z: Zone, instant: int): int {
    (instant + z.offsetAt(instant)) / DAY
  }

  function InstantOf(z: Zone, date: int, seconds: int): int {
    date * DAY + seconds - z.offsetOfWall(date * DAY + seconds)
  }

  /** The installation's own zone, and the zones known by name. */
  datatype Setup = Setup(app: Zone, zones: string -> Option<Zone>)

  // ----- Runs -----

  datatype PlanStatus = Recurring | ScheduledRun | OtherStatus

  /** A campaign as the planner sees it; `content` stands for the columns that a run copies. */
  datatype Plan = Plan(isPlanner: bool, parent: Option<int>, status: PlanStatus, scheduledAt: Option<int>,
                       sendTime: Option<nat>, sendZone: Option<string>, content: string, lists: set<int>)

  /** `nextId` is the sequence campaign ids are drawn from. */
  datatype Plans = Plans(campaigns: map<int, Plan>, nextId: int)

  ghost predicate WellKept(t: Plans) {
    forall c | c in t.campaigns :: c < t.nextId
  }

  function RunInstant(s: Setup, plan: Plan, date: int): int {
    var named := if Truthy(plan.sendZone) then s.zones(plan.sendZone.value) else None;
    InstantOf(if named.Some? then named.value else s.app, date,
              if plan.sendTime.Some? then plan.sendTime.value else 9 * HOUR)
  }

  predicate IsRunOn(s: Setup, plan: Plan, r: int, date: int) {
    plan.parent == Some(r) && plan.scheduledAt.Some? && DateIn(s.app, plan.scheduledAt.value) == date
  }

  /** The existence test: a window of instants narrows the search, then the dates are compared. */
  predicate RunExists(s: Setup, t: Plans, r: int, date: int) {
    var start := InstantOf(s.app, date, 0);
    exists c :: c in t.campaigns && IsRunOn(s, t.campaigns[c], r, date)
                && start - 18 * HOUR <= t.campaigns[c].scheduledAt.value <= start + 42 * HOUR
  }

  function Clone(s: Setup, plan: Plan, r: int, date: int): Plan {
    Plan(false, Some(r), ScheduledRun, Some(RunInstant(s, plan, date)), plan.sendTime, plan.sendZone, plan.content,
         plan.lists)
  }

  function EnsureRun(s: Setup, t: Plans, r: int, date: int): Plans {
    if r !in t.campaigns || !t.campaigns[r].isPlanner || RunExists(s, t, r, date) then t
    else Plans(t.campaigns[t.nextId := Clone(s, t.campaigns[r], r, date)], t.nextId + 1)
  }

  function EnsureAll(s: Setup, t: Plans, calls: seq<int>, date: int): Plans {
    if calls == [] then t else EnsureRun(s, EnsureAll(s, t, calls[..|calls| - 1], date), calls[|calls| - 1], date)
  }

  /** The campaigns placed on a cell, in the order of the table. */
  function PlacedOn(placements: seq<(int, Cell)>, c: Cell): (ids: seq<int>)
    ensures forall id :: id in ids <==> (id, c) in placements
  {
    if placements == [] then []
    else
      var last := placements[|placements| - 1];
      PlacedOn(placements[..|placements| - 1], c) + if last.1 == c then [last.0] else []
  }

  function Dispatch(s: Setup, t: Plans, placements: seq<(int, Cell)>, d: Date): Plans
    requires Valid(d)
  {
    match PositionForDate(d)
    case None => t
    case Some(c) => EnsureAll(s, t, PlacedOn(placements, c), Ordinal(d))
  }

  function Dispatches(s: Setup, t: Plans, placements: seq<(int, Cell)>, d: Date, n: nat): Plans
    requires Valid(d)
  {
    if n == 0 then t else Dispatch(s, Dispatches(s, t, placements, d, n - 1), placements, d)
  }

  // ----- What the existence test sees -----

  ghost function RunsOf(t: Plans, r: int): set<int> {
    set c | c in t.campaigns && t.campaigns[c].parent == Some(r)
  }

  ghost function RunsOn(s: Setup, t: Plans, r: int, date: int): set<int> {
    set c | c in t.campaigns && IsRunOn(s, t.campaigns[c], r, date)
  }

  /** From midnight to any instant of the same local date the zone's offset moves by at most 18 hours. */
  ghost predicate Steady(z: Zone) {
    forall instant :: -18 * HOUR <= z.offsetOfWall(DateIn(z, instant) * DAY) - z.offsetAt(instant) <= 18 * HOUR
  }

  /** The window of 18 hours before to 42 hours after midnight loses no run the date test would accept. */
  lemma WindowLosesNothing(s: Setup, t: Plans, r: int, date: int)
    requires Steady(s.app)
    ensures RunExists(s, t, r, date) <==> RunsOn(s, t, r, date) != {}
  {
    var start := InstantOf(s.app, date, 0);
    forall c | c in RunsOn(s, t, r, date)
      ensures start - 18 * HOUR <= t.campaigns[c].scheduledAt.value <= start + 42 * HOUR
    {
      var at := t.campaigns[c].scheduledAt.value;
      assert date * DAY <= at + s.app.offsetAt(at) < date * DAY + DAY;
    }
    if RunExists(s, t, r, date) {
      var c :| c in t.campaigns && IsRunOn(s, t.campaigns[c], r, date);
      assert c in RunsOn(s, t, r, date);
    } else {
      forall c: int ensures c !in RunsOn(s, t, r, date) {}
      assert RunsOn(s, t, r, date) == {};
    }
  }

  /** The run made for a date is found again by the existence test for that date. */
  predicate Lands(s: Setup, plan: Plan, date: int) {
    DateIn(s.app, RunInstant(s, plan, date)) == date
  }

  function SendZone(s: Setup, plan: Plan): Zone {
    if Truthy(plan.sendZone) && s.zones(plan.sendZone.value).Some? then s.zones(plan.sendZone.value).value else s.app
  }

  /** That is so when the send time, read on the installation's clock, is still on the same day. */
  lemma LandsWhen(s: Setup, plan: Plan, date: int)
    ensures var seconds := if plan.sendTime.Some? then plan.sendTime.value else 9 * HOUR;
            var offset := s.app.offsetAt(RunInstant(s, plan, date));
            var shift := offset - SendZone(s, plan).offsetOfWall(date * DAY + seconds);
            Lands(s, plan, date) <==> 0 <= seconds + shift < DAY
  {
  }

  // ----- One call -----

  lemma EnsureElsewhere(s: Setup, t: Plans, q: int, r: int, date: int)
    requires WellKept(t) && q != r
    ensures RunsOf(EnsureRun(s, t, q, date), r) == RunsOf(t, r)
    ensures RunsOn(s, EnsureRun(s, t, q, date), r, date) == RunsOn(s, t, r, date)
  {
  }

  lemma EnsureHere(s: Setup, t: Plans, r: int, date: int)
    requires WellKept(t) && Steady(s.app) && r in t.campaigns && t.campaigns[r].isPlanner
    ensures var u := EnsureRun(s, t, r, date);
            if RunsOn(s, t, r, date) != {} then u == t
            else && t.nextId !in RunsOf(t, r) && RunsOf(u, r) == RunsOf(t, r) + {t.nextId}
                 && RunsOn(s, u, r, date) == if Lands(s, t.campaigns[r], date) then {t.nextId} else {}
  {
    WindowLosesNothing(s, t, r, date);
    if RunsOn(s, t, r, date) == {} {
      var u := EnsureRun(s, t, r, date);
      assert u.campaigns == t.campaigns[t.nextId := Clone(s, t.campaigns[r], r, date)];
      forall c ensures c in RunsOn(s, u, r, date) <==> c == t.nextId && Lands(s, t.campaigns[r], date) {
        assert c !in RunsOn(s, t, r, date);
      }
    }
  }

  ghost predicate Extends(t: Plans, u: Plans) {
    WellKept(u) && t.nextId <= u.nextId && forall c | c in t.campaigns ::
      c in u.campaigns && u.campaigns[c] == t.campaigns[c]
  }

  /** Nothing there is changed, and whatever is new is a scheduled run cloned from its recurring campaign. */
  lemma EnsureExtends(s: Setup, t: Plans, r: int, date: int)
    requires WellKept(t)
    ensures Extends(t, EnsureRun(s, t, r, date))
    ensures forall c | c in EnsureRun(s, t, r, date).campaigns && c !in t.campaigns ::
              r in t.campaigns && EnsureRun(s, t, r, date).campaigns[c] == Clone(s, t.campaigns[r], r, date)
  {
  }

  // ----- Any number of calls for one date -----

  /** How many runs calls for a date add: none if there is one already; else one, or one each if they do not land. */
  function RunsAdded(found: bool, lands: bool, calls: nat): nat {
    if found || calls == 0 then 0 else if lands then 1 else calls
  }

  lemma {:induction false} CallsCreate(s: Setup, t: Plans, calls: seq<int>, date: int, r: int)
    requires WellKept(t) && Steady(s.app) && r in t.campaigns && t.campaigns[r].isPlanner
    ensures var u, k := EnsureAll(s, t, calls, date), multiset(calls)[r];
            var found, lands := RunsOn(s, t, r, date) != {}, Lands(s, t.campaigns[r], date);
            && Extends(t, u)
            && |RunsOf(u, r)| == |RunsOf(t, r)| + RunsAdded(found, lands, k)
            && (if found then RunsOn(s, u, r, date) == RunsOn(s, t, r, date)
                else |RunsOn(s, u, r, date)| == if lands && k > 0 then 1 else 0)
  {
    if calls != [] {
      var n := |calls| - 1;
      var u := EnsureAll(s, t, calls[..n], date);
      CallsCreate(s, t, calls[..n], date, r);
      assert calls == calls[..n] + [calls[n]];
      EnsureExtends(s, u, calls[n], date);
      if calls[n] == r { EnsureHere(s, u, r, date); } else { EnsureElsewhere(s, u, calls[n], r, date); }
    }
  }

  // ----- Any number of dispatches of one date -----

  lemma {:induction false} PlacedOnce(placements: seq<(int, Cell)>, c: Cell, r: int)
    requires forall i, j | 0 <= i < j < |placements| :: placements[i] != placements[j]
    ensures multiset(PlacedOn(placements, c))[r] == if (r, c) in placements then 1 else 0
  {
    if placements != [] {
      var n := |placements| - 1;
      PlacedOnce(placements[..n], c, r);
      assert placements == placements[..n] + [placements[n]];
      if placements[n] == (r, c) { assert (r, c) !in placements[..n]; }
    }
  }

  /**
   How many runs any number of dispatches of a date make for a recurring campaign placed on its cell. If a run is
   dated that day already, be it one made for another date, they make none; else one if the run's own instant is on
   the same date in the installation's zone, and one each if it is not.
   */
  lemma {:induction false} DispatchesCreate(s: Setup, t: Plans, placements: seq<(int, Cell)>, d: Date, n: nat, r: int)
    requires Valid(d) && WellKept(t) && Steady(s.app) && r in t.campaigns && t.campaigns[r].isPlanner
    requires forall i, j | 0 <= i < j < |placements| :: placements[i] != placements[j]
    requires PositionForDate(d).Some? && (r, PositionForDate(d).value) in placements
    ensures var u, date := Dispatches(s, t, placements, d, n), Ordinal(d);
            var found, lands := RunsOn(s, t, r, date) != {}, Lands(s, t.campaigns[r], date);
            && Extends(t, u)
            && |RunsOf(u, r)| == |RunsOf(t, r)| + RunsAdded(found, lands, n)
            && (if found then RunsOn(s, u, r, date) == RunsOn(s, t, r, date)
                else |RunsOn(s, u, r, date)| == if lands && n > 0 then 1 else 0)
  {
    if n > 0 {
      var u := Dispatches(s, t, placements, d, n - 1);
      DispatchesCreate(s, t, placements, d, n - 1, r);
      PlacedOnce(placements, PositionForDate(d).value, r);
      CallsCreate(s, u, PlacedOn(placements, PositionForDate(d).value), Ordinal(d), r);
    }
  }

  /**
   Dispatching makes exactly one run if and only if none is dated that day yet and the run made either lands on that
   day or is the only one tried.
   */
  lemma {:induction false} ExactlyOneRun(s: Setup, t: Plans, placements: seq<(int, Cell)>, d: Date, n: nat, r: int)
    requires Valid(d) && WellKept(t) && Steady(s.app) && r in t.campaigns && t.campaigns[r].isPlanner
    requires forall i, j | 0 <= i < j < |placements| :: placements[i] != placements[j]
    requires PositionForDate(d).Some? && (r, PositionForDate(d).value) in placements && n >= 1
    ensures |RunsOf(Dispatches(s, t, placements, d, n), r)| == |RunsOf(t, r)| + 1 <==>
            RunsOn(s, t, r, Ordinal(d)) == {} && (Lands(s, t.campaigns[r], Ordinal(d)) || n == 1)
  {
    DispatchesCreate(s, t, placements, d, n, r);
  }

  /** The run a call makes is dated by its instant, which may be another day: that day then counts as served. */
  lemma RunServesAnotherDate(s: Setup, t: Plans, r: int, date: int, other: int)
    requires WellKept(t) && Steady(s.app) && r in t.campaigns && t.campaigns[r].isPlanner
    requires RunsOn(s, t, r, date) == {} && DateIn(s.app, RunInstant(s, t.campaigns[r], date)) == other
    ensures var u := EnsureRun(s, t, r, date); EnsureRun(s, u, r, other) == u
  {
    var u := EnsureRun(s, t, r, date);
    WindowLosesNothing(s, t, r, date);
    WindowLosesNothing(s, u, r, other);
    assert t.nextId in RunsOn(s, u, r, other);
  }

  /**
   An hour west of the installation, half past eleven at night is the day after. On two days in a row the first run
   serves the second day, so that the second day gets none although its own would not land on it either.
   */
  lemma AdjacentDaysShareARun(t: Plans, r: int, date: int) returns (s: Setup)
    requires WellKept(t) && r in t.campaigns && t.campaigns[r].isPlanner && RunsOf(t, r) == {}
    requires t.campaigns[r].sendTime == Some(23 * 3600 + 1800) && t.campaigns[r].sendZone == Some("Atlantic/Azores")
    ensures Steady(s.app) && !Lands(s, t.campaigns[r], date) && !Lands(s, t.campaigns[r], date + 1)
    ensures var u := EnsureRun(s, t, r, date);
            |RunsOf(u, r)| == 1 && RunsOn(s, u, r, date + 1) != {} && EnsureRun(s, u, r, date + 1) == u
  {
    s := Setup(FixedZone(0), name => if name == "Atlantic/Azores" then Some(FixedZone(-HOUR)) else None);
    var plan := t.campaigns[r];
    forall day ensures DateIn(s.app, RunInstant(s, plan, day)) == day + 1 {
      assert RunInstant(s, plan, day) == (day + 1) * DAY + 1800;
    }
    forall c: int ensures c !in RunsOn(s, t, r, date) { assert c !in RunsOf(t, r); }
    assert RunsOn(s, t, r, date) == {};
    EnsureHere(s, t, r, date);
    RunServesAnotherDate(s, t, r, date, date + 1);
    assert t.nextId in RunsOn(s, EnsureRun(s, t, r, date), r, date + 1);
  }

  /** An hour east of the installation, half past midnight is the day before: every dispatch makes another run. */
  lemma HalfPastMidnightNeverLands(plan: Plan, date: int) returns (s: Setup)
    requires plan.sendTime == Some(1800) && plan.sendZone == Some("Europe/Tirana")
    ensures Steady(s.app) && !Lands(s, plan, date)
  {
    s := Setup(FixedZone(0), name => if name == "Europe/Tirana" then Some(FixedZone(HOUR)) else None);
    assert RunInstant(s, plan, date) == date * DAY - 1800;
    assert DateIn(s.app, date * DAY - 1800) == date - 1;
  }

  // ----- Any history of dispatches -----

  predicate AllValid(dates: seq<Date>) {
    forall i | 0 <= i < |dates| :: Valid(dates[i])
  }

  /** Dates dispatched one after the other, in any order and as often as may be. */
  function DispatchEach(s: Setup, t: Plans, placements: seq<(int, Cell)>, dates: seq<Date>): Plans
    requires AllValid(dates)
  {
    if dates == [] then t
    else
      var n := |dates| - 1;
      Dispatch(s, DispatchEach(s, t, placements, dates[..n]), placements, dates[n])
  }

  /** Campaign `r` is placed on the cell of the date. */
  predicate PlacedFor(placements: seq<(int, Cell)>, d: Date, r: int)
    requires Valid(d)
  {
    PositionForDate(d).Some? && (r, PositionForDate(d).value) in placements
  }

  /** The days dispatched on whose cell campaign `r` is placed. */
  function DaysFor(placements: seq<(int, Cell)>, dates: seq<Date>, r: int): set<int>
    requires AllValid(dates)
  {
    set i | 0 <= i < |dates| && PlacedFor(placements, dates[i], r) :: Ordinal(dates[i])
  }

  lemma DaysGrow(placements: seq<(int, Cell)>, dates: seq<Date>, r: int)
    requires AllValid(dates) && dates != []
    ensures var n := |dates| - 1;
            DaysFor(placements, dates, r) ==
            DaysFor(placements, dates[..n], r) + if PlacedFor(placements, dates[n], r) then {Ordinal(dates[n])} else {}
  {
  }

  /** The days on which campaign `r` has runs, when each of its runs lands on the date it was made for. */
  ghost predicate Served(s: Setup, u: Plans, r: int, dates: set<int>) {
    |RunsOf(u, r)| == |dates| && forall date :: RunsOn(s, u, r, date) != {} <==> date in dates
  }

  lemma RunsAfter(s: Setup, u: Plans, r: int, date: int)
    requires WellKept(u) && Steady(s.app) && r in u.campaigns && u.campaigns[r].isPlanner
    requires RunsOn(s, u, r, date) == {} && Lands(s, u.campaigns[r], date)
    ensures forall x ::
              RunsOn(s, EnsureRun(s, u, r, date), r, x) == if x == date then {u.nextId} else RunsOn(s, u, r, x)
  {
    var v := EnsureRun(s, u, r, date);
    WindowLosesNothing(s, u, r, date);
    assert v.campaigns == u.campaigns[u.nextId := Clone(s, u.campaigns[r], r, date)];
    EnsureHere(s, u, r, date);
    forall x | x != date ensures RunsOn(s, v, r, x) == RunsOn(s, u, r, x) {
      forall c: int ensures c in RunsOn(s, v, r, x) <==> c in RunsOn(s, u, r, x) {}
    }
  }

  lemma RunsElsewhere(s: Setup, u: Plans, q: int, date: int, r: int)
    requires WellKept(u) && q != r
    ensures forall x :: RunsOn(s, EnsureRun(s, u, q, date), r, x) == RunsOn(s, u, r, x)
  {
    forall x ensures RunsOn(s, EnsureRun(s, u, q, date), r, x) == RunsOn(s, u, r, x) {}
  }

  lemma ServeNewDate(s: Setup, u: Plans, r: int, date: int, dates: set<int>)
    requires WellKept(u) && Steady(s.app) && r in u.campaigns && u.campaigns[r].isPlanner && Served(s, u, r, dates)
    requires RunsOn(s, u, r, date) == {} && Lands(s, u.campaigns[r], date)
    ensures Served(s, EnsureRun(s, u, r, date), r, dates + {date})
  {
    EnsureHere(s, u, r, date);
    RunsAfter(s, u, r, date);
    assert date !in dates;
  }

  lemma ServeOneMore(s: Setup, u: Plans, q: int, date: int, r: int, dates: set<int>)
    requires WellKept(u) && Steady(s.app) && r in u.campaigns && u.campaigns[r].isPlanner && Served(s, u, r, dates)
    requires q == r ==> Lands(s, u.campaigns[r], date)
    ensures Served(s, EnsureRun(s, u, q, date), r, if q == r then dates + {date} else dates)
  {
    if q != r {
      EnsureElsewhere(s, u, q, r, date);
      RunsElsewhere(s, u, q, date, r);
    } else if RunsOn(s, u, r, date) == {} {
      ServeNewDate(s, u, r, date, dates);
    } else {
      EnsureHere(s, u, r, date);
      assert dates + {date} == dates;
    }
  }

  lemma {:induction false} ServeCalls(s: Setup, u: Plans, calls: seq<int>, date: int, r: int, dates: set<int>)
    requires WellKept(u) && Steady(s.app) && r in u.campaigns && u.campaigns[r].isPlanner && Served(s, u, r, dates)
    requires r in calls ==> Lands(s, u.campaigns[r], date)
    ensures Extends(u, EnsureAll(s, u, calls, date))
    ensures Served(s, EnsureAll(s, u, calls, date), r, if r in calls then dates + {date} else dates)
  {
    if calls != [] {
      var n := |calls| - 1;
      var v := EnsureAll(s, u, calls[..n], date);
      ServeCalls(s, u, calls[..n], date, r, dates);
      EnsureExtends(s, v, calls[n], date);
      ServeOneMore(s, v, calls[n], date, r, if r in calls[..n] then dates + {date} else dates);
      assert calls == calls[..n] + [calls[n]];
      assert dates + {date} + {date} == dates + {date};
    }
  }

  lemma ServeDispatch(s: Setup, u: Plans, placements: seq<(int, Cell)>, d: Date, r: int, days: set<int>)
    requires WellKept(u) && Steady(s.app) && r in u.campaigns && u.campaigns[r].isPlanner && Served(s, u, r, days)
    requires Valid(d) && (PlacedFor(placements, d, r) ==> Lands(s, u.campaigns[r], Ordinal(d)))
    ensures Extends(u, Dispatch(s, u, placements, d))
    ensures Served(s, Dispatch(s, u, placements, d), r,
                   if PlacedFor(placements, d, r) then days + {Ordinal(d)} else days)
  {
    if PositionForDate(d).Some? {
      ServeCalls(s, u, PlacedOn(placements, PositionForDate(d).value), Ordinal(d), r, days);
    }
  }

  /** Whenever campaign `r` is dispatched its run lands: on every date whose cell it is placed on. */
  ghost predicate AlwaysLands(s: Setup, plan: Plan, placements: seq<(int, Cell)>, r: int) {
    forall d: Date | Valid(d) && PlacedFor(placements, d, r) :: Lands(s, plan, Ordinal(d))
  }

  lemma NoRunsYet(s: Setup, t: Plans, r: int)
    requires RunsOf(t, r) == {}
    ensures forall date :: RunsOn(s, t, r, date) == {}
  {
    forall date ensures RunsOn(s, t, r, date) == {} {
      forall c: int ensures c !in RunsOn(s, t, r, date) { assert c !in RunsOf(t, r); }
    }
  }

  /** It is enough that the runs land on the dates dispatched: then each such day has its one run. */
  lemma {:induction false} LandingRunsServe(s: Setup, t: Plans, placements: seq<(int, Cell)>, dates: seq<Date>, r: int)
    requires WellKept(t) && Steady(s.app) && r in t.campaigns && t.campaigns[r].isPlanner && RunsOf(t, r) == {}
    requires AllValid(dates)
    requires forall i | 0 <= i < |dates| && PlacedFor(placements, dates[i], r) ::
               Lands(s, t.campaigns[r], Ordinal(dates[i]))
    ensures Extends(t, DispatchEach(s, t, placements, dates))
    ensures Served(s, DispatchEach(s, t, placements, dates), r, DaysFor(placements, dates, r))
  {
    if dates == [] {
      NoRunsYet(s, t, r);
    } else {
      var n := |dates| - 1;
      var u, d := DispatchEach(s, t, placements, dates[..n]), dates[n];
      LandingRunsServe(s, t, placements, dates[..n], r);
      DaysGrow(placements, dates, r);
      assert PlacedFor(placements, d, r) ==> Lands(s, u.campaigns[r], Ordinal(d));
      ServeDispatch(s, u, placements, d, r, DaysFor(placements, dates[..n], r));
    }
  }

  lemma TwiceTheSameDate(s: Setup, t: Plans, placements: seq<(int, Cell)>, r: int, d: Date)
    requires WellKept(t) && Steady(s.app) && r in t.campaigns && t.campaigns[r].isPlanner && RunsOf(t, r) == {}
    requires forall i, j | 0 <= i < j < |placements| :: placements[i] != placements[j]
    requires Valid(d) && PlacedFor(placements, d, r) && !Lands(s, t.campaigns[r], Ordinal(d))
    ensures |RunsOf(DispatchEach(s, t, placements, [d, d]), r)| == 2 && |DaysFor(placements, [d, d], r)| == 1
  {
    var dates := [d, d];
    NoRunsYet(s, t, r);
    DispatchesCreate(s, t, placements, d, 2, r);
    assert dates[..1] == [d] && [d][..0] == [];
    assert DispatchEach(s, t, placements, [d]) == Dispatches(s, t, placements, d, 1);
    assert DispatchEach(s, t, placements, dates) == Dispatches(s, t, placements, d, 2);
    assert DaysFor(placements, dates, r) == {Ordinal(d)} by { assert dates[0] == d; }
  }

  /**
   The promise of one run per calendar day, whatever dates are dispatched, in whatever order and how often: it holds
   for every history if and only if the campaign's runs land on all dates whose cells it is placed on. Then there is
   exactly one for every such day dispatched.
   */
  lemma {:induction false} OneRunPerDay(s: Setup, t: Plans, placements: seq<(int, Cell)>, r: int)
    requires WellKept(t) && Steady(s.app) && r in t.campaigns && t.campaigns[r].isPlanner && RunsOf(t, r) == {}
    requires forall i, j | 0 <= i < j < |placements| :: placements[i] != placements[j]
    ensures (forall dates | AllValid(dates) ::
               |RunsOf(DispatchEach(s, t, placements, dates), r)| <= |DaysFor(placements, dates, r)|) <==>
            AlwaysLands(s, t.campaigns[r], placements, r)
    ensures (forall dates | AllValid(dates) ::
               |RunsOf(DispatchEach(s, t, placements, dates), r)| == |DaysFor(placements, dates, r)|) <==>
            AlwaysLands(s, t.campaigns[r], placements, r)
  {
    if AlwaysLands(s, t.campaigns[r], placements, r) {
      forall dates | AllValid(dates)
        ensures |RunsOf(DispatchEach(s, t, placements, dates), r)| == |DaysFor(placements, dates, r)|
      {
        LandingRunsServe(s, t, placements, dates, r);
      }
    } else {
      var d: Date :| Valid(d) && PlacedFor(placements, d, r) && !Lands(s, t.campaigns[r], Ordinal(d));
      TwiceTheSameDate(s, t, placements, r, d);
      assert AllValid([d, d]);
    }
  }

  // ----- What a created run is -----

  /** The instant is the campaign's send time, nine o'clock if it has none, on the date by the clocks of its zone. */
  predicate DueOn(s: Setup, plan: Plan, date: int, instant: int) {
    var wall := date * 86_400 + if plan.sendTime.Some? then plan.sendTime.value else 32_400;
    var known := plan.sendZone.Some? && plan.sendZone.value != "" && s.zones(plan.sendZone.value).Some?;
    instant + (if known then s.zones(plan.sendZone.value).value else s.app).offsetOfWall(wall) == wall
  }

  /** A scheduled campaign of its own that takes lists, content and send time from its parent `r`. */
  predicate IsRunOf(s: Setup, parent: Plan, r: int, date: int, run: Plan) {
    && !run.isPlanner && run.parent == Some(r) && run.status == ScheduledRun
    && run.lists == parent.lists && run.content == parent.content
    && run.sendTime == parent.sendTime && run.sendZone == parent.sendZone
    && run.scheduledAt.Some? && DueOn(s, parent, date, run.scheduledAt.value)
  }

  /** Of the parent some run is due on the date, by the installation's clock. */
  predicate HasRunOn(s: Setup, campaigns: map<int, Plan>, r: int, date: int) {
    exists c :: c in campaigns && campaigns[c].parent == Some(r) && campaigns[c].scheduledAt.Some? &&
                var local := campaigns[c].scheduledAt.value + s.app.offsetAt(campaigns[c].scheduledAt.value);
                date * 86_400 <= local < (date + 1) * 86_400
  }

  /** The table after one call: the recurring campaign has a run that day already, or gets one under the next id. */
  ghost predicate RunMade(s: Setup, t: Plans, r: int, date: int, u: Plans) {
    if r in t.campaigns && t.campaigns[r].isPlanner && !HasRunOn(s, t.campaigns, r, date)
    then u.nextId == t.nextId + 1 && t.nextId in u.campaigns
         && u.campaigns == t.campaigns[t.nextId := u.campaigns[t.nextId]]
         && IsRunOf(s, t.campaigns[r], r, date, u.campaigns[t.nextId])
    else u == t
  }

  lemma CloneIsRun(s: Setup, plan: Plan, r: int, date: int)
    ensures IsRunOf(s, plan, r, date, Clone(s, plan, r, date))
  {
  }

  /** A call makes a run exactly when there is none for that day, and the run is the parent's for that day. */
  lemma CallMakesRun(s: Setup, t: Plans, r: int, date: int)
    requires Steady(s.app)
    ensures RunMade(s, t, r, date, EnsureRun(s, t, r, date))
  {
  }

  /** Old campaigns stand, and each new one is the day's run of one of these recurring campaigns. */
  ghost predicate NewRuns(s: Setup, t: Plans, callers: set<int>, date: int, u: Plans) {
    && Extends(t, u) && (forall c :: c in u.campaigns <==> c in t.campaigns || t.nextId <= c < u.nextId)
    && forall c | t.nextId <= c < u.nextId :: IsRunOfSome(s, t, callers, date, u.campaigns[c])
  }

  predicate IsRunOfSome(s: Setup, t: Plans, callers: set<int>, date: int, run: Plan) {
    && run.parent.Some? && run.parent.value in callers && run.parent.value in t.campaigns
    && t.campaigns[run.parent.value].isPlanner
    && IsRunOf(s, t.campaigns[run.parent.value], run.parent.value, date, run)
  }

  lemma OneMoreCall(s: Setup, t: Plans, callers: set<int>, date: int, u: Plans, r: int)
    requires WellKept(t) && NewRuns(s, t, callers, date, u) && r in callers
    ensures NewRuns(s, t, callers, date, EnsureRun(s, u, r, date))
  {
    EnsureExtends(s, u, r, date);
    if r in u.campaigns && u.campaigns[r].isPlanner {
      assert r in t.campaigns || IsRunOfSome(s, t, callers, date, u.campaigns[r]);
      CloneIsRun(s, u.campaigns[r], r, date);
    }
  }

  /** Whatever campaigns are called for: only runs of theirs are added. */
  lemma {:induction false} CallsMakeRuns(s: Setup, t: Plans, calls: seq<int>, date: int, callers: set<int>)
    requires WellKept(t) && forall r | r in calls :: r in callers
    ensures NewRuns(s, t, callers, date, EnsureAll(s, t, calls, date))
  {
    if calls != [] {
      var n := |calls| - 1;
      CallsMakeRuns(s, t, calls[..n], date, callers);
      OneMoreCall(s, t, callers, date, EnsureAll(s, t, calls[..n], date), calls[n]);
    }
  }

  ghost function PlacedIds(placements: seq<(int, Cell)>, d: Date): set<int>
    requires Valid(d)
  {
    set i | 0 <= i < |placements| && PositionForDate(d) == Some(placements[i].1) :: placements[i].0
  }

  /** A dispatch adds nothing but runs of recurring campaigns placed on the date's cell. */
  lemma DispatchMakesRuns(s: Setup, t: Plans, placements: seq<(int, Cell)>, d: Date)
    requires Valid(d) && WellKept(t)
    ensures NewRuns(s, t, PlacedIds(placements, d), Ordinal(d), Dispatch(s, t, placements, d))
  {
    if PositionForDate(d).Some? {
      var calls := PlacedOn(placements, PositionForDate(d).value);
      forall r | r in calls ensures r in PlacedIds(placements, d) {
        assert (r, PositionForDate(d).value) in placements;
      }
      CallsMakeRuns(s, t, calls, Ordinal(d), PlacedIds(placements, d));
    }
  }

  // ----- The planner on its tables -----

  class PlannerTables {
    var campaigns: map<int, Plan>
    var nextId: int
    var placements: seq<(int, Cell)>

    ghost function Contents(): Plans
      reads this
    {
      Plans(campaigns, nextId)
    }

    method CreateRun(s: Setup, r: int, date: int) returns (id: Option<int>)
      modifies this`campaigns, this`nextId
      ensures Contents() == EnsureRun(s, old(Contents()), r, date)
      ensures id == if nextId == old(nextId) then None else Some(old(nextId))
      ensures Steady(s.app) ==> RunMade(s, old(Contents()), r, date, Contents())
      ensures id.Some? ==> r in old(campaigns) && id.value in campaigns
                           && IsRunOf(s, old(campaigns)[r], r, date, campaigns[id.value])
    {
      if Steady(s.app) { CallMakesRun(s, Contents(), r, date); }
      if r in campaigns { CloneIsRun(s, campaigns[r], r, date); }
      if r !in campaigns || !campaigns[r].isPlanner { return None; }
      var rec := campaigns[r];
      if RunExists(s, Plans(campaigns, nextId), r, date) { return None; }
      var instant := RunInstant(s, rec, date);
      var run := Plan(false, Some(r), ScheduledRun, Some(instant), rec.sendTime, rec.sendZone, rec.content, {});
      id := Some(nextId);
      campaigns := campaigns[nextId := run];
      campaigns := campaigns[nextId := run.(lists := rec.lists)];
      nextId := nextId + 1;
    }

    /** `created` lists the runs made, which take the next ids in turn. */
    method DispatchPlanner(s: Setup, d: Date) returns (created: seq<int>)
      requires Valid(d)
      modifies this`campaigns, this`nextId
      ensures Contents() == Dispatch(s, old(Contents()), placements, d)
      ensures |created| == nextId - old(nextId) && forall i | 0 <= i < |created| :: created[i] == old(nextId) + i
      ensures WellKept(old(Contents())) ==>
                NewRuns(s, old(Contents()), PlacedIds(placements, d), Ordinal(d), Contents())
    {
      if WellKept(Contents()) { DispatchMakesRuns(s, Contents(), placements, d); }
      created := [];
      var cell := PositionForDate(d);
      if cell.None? { return; }
      var ids := PlacedOn(placements, cell.value);
      for i := 0 to |ids|
        invariant Contents() == EnsureAll(s, old(Contents()), ids[..i], Ordinal(d))
        invariant |created| == nextId - old(nextId) && forall j | 0 <= j < |created| :: created[j] == old(nextId) + j
      {
        assert ids[..i + 1][..i] == ids[..i];
        var id := CreateRun(s, ids[i], Ordinal(d));
        if id.Some? { created := created + [id.value]; }
      }
      assert ids[..|ids|] == ids;
    }
  }
}
