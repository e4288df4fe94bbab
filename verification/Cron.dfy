/**
  Cron schedules (internal/cron/cron.go): the skipping search for the next
  matching minute against a search that tries every minute, and the nine-year
  limit against the whole calendar.

  A mask is the set of its bit positions.
 */
module Cron {
  import opened Wrappers
  import opened Calendar
  import opened Text

  datatype Schedule = Schedule(
    minute: set<int>,
    hour: set<int>,
    dom: set<int>,
    month: set<int>,
    dow: set<int>,
    domStar: bool,
    dowStar: bool)
  {
    /** No field is empty or out of range, and a star selects everything. */
    ghost predicate Valid() {
      && Selected(minute, 0, 59) && Selected(hour, 0, 23) && Selected(dom, 1, 31)
      && Selected(month, 1, 12) && Selected(dow, 0, 6)
      && (domStar ==> forall d :: 1 <= d <= 31 ==> d in dom)
      && (dowStar ==> forall w :: 0 <= w <= 6 ==> w in dow)
    }

    /** The day rule of the POSIX crontab utility: two restricted day fields match when either does. */
    predicate DayMatches(t: Time) {
      var domOK := t.d in dom;
      var dowOK := t.Weekday() in dow;
      if !domStar && !dowStar then domOK || dowOK else domOK && dowOK
    }

    predicate Matches(t: Time) {
      t.mo in month && DayMatches(t) && t.h in hour && t.mi in minute
    }

    /** Every day selected is one no year has, such as 30 February. */
    ghost predicate Impossible() {
      dowStar && forall d, m :: d in dom && m in month ==> d > LongestMonth(m)
    }
  }

  ghost predicate Selected(mask: set<int>, lo: int, hi: int) {
    (exists v :: v in mask) && forall v :: v in mask ==> lo <= v <= hi
  }

  function LongestMonth(m: int): int {
    if m == 2 then 29 else DaysIn(0, m)
  }

  const NEXT_LIMIT_YEARS := 9

  // ------------------------------------------------------ minute by minute search

  /** Tries every minute from `t` up to the limit. */
  ghost function Search(s: Schedule, t: Time, limit: Time): Option<Time>
    requires t.Valid() && limit.Valid()
    decreases if t.NotAfter(limit) then 1 + Minutes(limit) - Minutes(t) else 0
  {
    if !t.NotAfter(limit) then None
    else if s.Matches(t) then Some(t)
    else
      StepsValid(t);
      MinutesStep(t);
      MinutesOrder(t, limit);
      MinutesOrder(NextMinute(t), limit);
      Search(s, NextMinute(t), limit)
  }

  ghost predicate NoneFrom(s: Schedule, t: Time, u: Time) {
    forall v: Time :: v.Valid() && t.NotAfter(v) && v.Before(u) ==> !s.Matches(v)
  }

  /** The search finds the least matching minute, if there is one in range. */
  lemma {:induction false} SearchLeast(s: Schedule, t: Time, limit: Time)
    requires t.Valid() && limit.Valid()
    ensures var r := Search(s, t, limit);
      if r.Some? then r.value.Valid() && s.Matches(r.value) && t.NotAfter(r.value) && r.value.NotAfter(limit)
                      && NoneFrom(s, t, r.value)
      else forall v: Time :: v.Valid() && t.NotAfter(v) && v.NotAfter(limit) ==> !s.Matches(v)
    decreases if t.NotAfter(limit) then 1 + Minutes(limit) - Minutes(t) else 0
  {
    hide Minutes, Time.Valid, Schedule.Matches, NextMinute;
    if t.NotAfter(limit) && !s.Matches(t) {
      StepsValid(t);
      MinutesStep(t);
      MinutesOrder(t, limit);
      MinutesOrder(NextMinute(t), limit);
      SearchLeast(s, NextMinute(t), limit);
      forall v: Time | v.Valid() && t.Before(v) ensures NextMinute(t).NotAfter(v) {
        NothingBetween(t, v);
      }
    }
  }

  /** Minutes that do not match may be skipped. */
  lemma {:induction false} SearchSkip(s: Schedule, t: Time, u: Time, limit: Time)
    requires t.Valid() && u.Valid() && limit.Valid() && t.NotAfter(u) && NoneFrom(s, t, u)
    ensures Search(s, t, limit) == Search(s, u, limit)
    decreases Minutes(u) - Minutes(t)
  {
    hide Minutes, Time.Valid, Schedule.Matches, NextMinute;
    if t != u && t.NotAfter(limit) {
      StepsValid(t);
      MinutesStep(t);
      NothingBetween(t, u);
      MinutesOrder(t, u);
      SearchSkip(s, NextMinute(t), u, limit);
    }
  }

  // -------------------------------------------------------------- skipping search

  /**
    `Next`. `after` is the whole minute that contains the argument; seconds play
    no part, since the candidates are whole minutes.
   */
  method Next(s: Schedule, after: Time) returns (r: Option<Time>)
    requires after.Valid()
    ensures r == Search(s, NextMinute(after), AddYears(after, NEXT_LIMIT_YEARS))
    ensures r.Some? ==> s.Matches(r.value) && after.Before(r.value) && NoneFrom(s, NextMinute(after), r.value)
    ensures s.Valid() ==> (r.None? <==> s.Impossible())
  {
    hide *;
    NextIs(s, after);
    StepsValid(after);
    AddYearsValid(after, NEXT_LIMIT_YEARS);
    var t := NextMinute(after);
    var limit := AddYears(after, NEXT_LIMIT_YEARS);
    while t.NotAfter(limit)
      invariant t.Valid() && Search(s, NextMinute(after), limit) == Search(s, t, limit)
      decreases Minutes(limit) - Minutes(t)
    {
      StepsValid(t);
      StepsGrow(t, limit);
      SearchEnds(s, t, limit);
      if t.mo !in s.month {
        SkipMonth(s, t, limit);
        t := NextMonth(t);
        continue;
      }
      if !s.DayMatches(t) {
        SkipDay(s, t, limit);
        t := NextDay(t);
        continue;
      }
      if t.h !in s.hour {
        SkipHour(s, t, limit);
        t := NextHour(t);
        continue;
      }
      if t.mi !in s.minute {
        SkipMinute(s, t, limit);
        t := NextMinute(t);
        continue;
      }
      return Some(t);
    }
    SearchEnds(s, t, limit);
    return None;
  }

  lemma StepsGrow(t: Time, limit: Time)
    requires t.Valid() && limit.Valid() && t.NotAfter(limit)
    ensures Minutes(t) < Minutes(NextMonth(t)) && Minutes(t) < Minutes(NextDay(t))
    ensures Minutes(t) < Minutes(NextHour(t)) && Minutes(t) < Minutes(NextMinute(t)) && Minutes(t) <= Minutes(limit)
  {
    hide Minutes, Time.Valid, NextMonth, NextDay, NextHour, NextMinute;
    StepsValid(t);
    MinutesOrder(t, NextMonth(t));
    MinutesOrder(t, NextDay(t));
    MinutesOrder(t, NextHour(t));
    MinutesOrder(t, NextMinute(t));
    MinutesOrder(t, limit);
  }

  lemma SearchEnds(s: Schedule, t: Time, limit: Time)
    requires t.Valid() && limit.Valid()
    ensures !t.NotAfter(limit) ==> Search(s, t, limit) == None
    ensures t.NotAfter(limit) && t.mo in s.month && s.DayMatches(t) && t.h in s.hour && t.mi in s.minute ==>
      Search(s, t, limit) == Some(t)
  {
  }

  lemma SkipMonth(s: Schedule, t: Time, limit: Time)
    requires t.Valid() && limit.Valid() && t.mo !in s.month
    ensures Search(s, t, limit) == Search(s, NextMonth(t), limit)
  {
    hide Search, DaysIn;
    StepsValid(t);
    SearchSkip(s, t, NextMonth(t), limit);
  }

  lemma SkipDay(s: Schedule, t: Time, limit: Time)
    requires t.Valid() && limit.Valid() && !s.DayMatches(t)
    ensures Search(s, t, limit) == Search(s, NextDay(t), limit)
  {
    hide Search, DaysIn, DayNum;
    StepsValid(t);
    forall v: Time | v.Valid() && t.NotAfter(v) && v.Before(NextDay(t)) ensures !s.Matches(v) {
      assert v.y == t.y && v.mo == t.mo && v.d == t.d;
    }
    SearchSkip(s, t, NextDay(t), limit);
  }

  lemma SkipHour(s: Schedule, t: Time, limit: Time)
    requires t.Valid() && limit.Valid() && t.h !in s.hour
    ensures Search(s, t, limit) == Search(s, NextHour(t), limit)
  {
    hide Search, DaysIn, DayNum, Schedule.DayMatches;
    StepsValid(t);
    SearchSkip(s, t, NextHour(t), limit);
  }

  lemma SkipMinute(s: Schedule, t: Time, limit: Time)
    requires t.Valid() && limit.Valid() && t.mi !in s.minute
    ensures Search(s, t, limit) == Search(s, NextMinute(t), limit)
  {
    hide Search, DaysIn, DayNum, Schedule.DayMatches;
    StepsValid(t);
    SearchSkip(s, t, NextMinute(t), limit);
  }

  // ------------------------------------------------------------------- completeness

  lemma Pick(mask: set<int>, lo: int, hi: int) returns (v: int)
    requires Selected(mask, lo, hi)
    ensures v in mask && lo <= v <= hi
  {
    v :| v in mask;
  }

  /** A schedule that is not impossible has a run in the eight years after any given one. */
  lemma SomeRun(s: Schedule, y: int) returns (t: Time)
    requires s.Valid() && !s.Impossible()
    ensures t.Valid() && s.Matches(t) && y < t.y <= y + 8
  {
    hide DayNum;
    var h := Pick(s.hour, 0, 23);
    var mi := Pick(s.minute, 0, 59);
    if s.dowStar {
      var d, m :| d in s.dom && m in s.month && d <= LongestMonth(m);
      var year := LeapWithinEight(y);
      t := Time(year, m, d, h, mi);
    } else {
      var m := Pick(s.month, 1, 12);
      var w := Pick(s.dow, 0, 6);
      var d := WeekdayInFirstWeek(y + 1, m, w);
      assert Time(y + 1, m, d, 0, 0).Weekday() == Time(y + 1, m, d, h, mi).Weekday();
      t := Time(y + 1, m, d, h, mi);
    }
  }

  /** An impossible schedule matches no minute of the calendar. */
  lemma ImpossibleNever(s: Schedule, t: Time)
    requires s.Impossible() && t.Valid()
    ensures !s.Matches(t)
  {
  }

  /** The cut-off hides no run: the search fails exactly for the schedules that never match. */
  lemma LimitIsEnough(s: Schedule, after: Time)
    requires s.Valid() && after.Valid()
    ensures NextMinute(after).Valid() && AddYears(after, NEXT_LIMIT_YEARS).Valid()
    ensures Search(s, NextMinute(after), AddYears(after, NEXT_LIMIT_YEARS)).None? <==> s.Impossible()
    ensures s.Impossible() <==> forall t: Time :: t.Valid() ==> !s.Matches(t)
  {
    hide Schedule.Matches, Schedule.Valid, Schedule.Impossible, Time.Valid, Search, NextMinute, AddYears;
    StepsValid(after);
    AddYearsValid(after, NEXT_LIMIT_YEARS);
    var limit := AddYears(after, NEXT_LIMIT_YEARS);
    SearchLeast(s, NextMinute(after), limit);
    if s.Impossible() {
      forall t: Time | t.Valid() ensures !s.Matches(t) {
        ImpossibleNever(s, t);
      }
    } else {
      var t := SomeRun(s, after.y);
      assert after.Before(t) && t.NotAfter(limit);
      NothingBetween(after, t);
    }
  }

  lemma NextIs(s: Schedule, after: Time)
    requires after.Valid()
    ensures NextMinute(after).Valid() && AddYears(after, NEXT_LIMIT_YEARS).Valid()
    ensures var r := Search(s, NextMinute(after), AddYears(after, NEXT_LIMIT_YEARS));
      && (r.Some? ==> s.Matches(r.value) && after.Before(r.value) && NoneFrom(s, NextMinute(after), r.value))
      && (s.Valid() ==> (r.None? <==> s.Impossible()))
  {
    hide Schedule.Matches, Schedule.Valid, Schedule.Impossible, Time.Valid, Search, NextMinute, AddYears, NoneFrom;
    StepsValid(after);
    AddYearsValid(after, NEXT_LIMIT_YEARS);
    SearchLeast(s, NextMinute(after), AddYears(after, NEXT_LIMIT_YEARS));
    if s.Valid() {
      LimitIsEnough(s, after);
    }
  }

  // ------------------------------------------------------------------ the day rule

  /**
    The minute is one the schedule names: its month, hour and minute are selected,
    and so is its day. With both day fields restricted either of them may select
    it; with one restricted, that one does.
   */
  predicate Names(s: Schedule, t: Time) {
    && t.mo in s.month && t.h in s.hour && t.mi in s.minute
    && (if s.domStar && s.dowStar then true
        else if s.domStar then t.Weekday() in s.dow
        else if s.dowStar then t.d in s.dom
        else t.d in s.dom || t.Weekday() in s.dow)
  }

  lemma MatchesNamed(s: Schedule, t: Time)
    requires s.Valid() && t.Valid()
    ensures s.Matches(t) <==> Names(s, t)
  {
    hide Time.Weekday;
    WeekdayRange(t);
  }

  lemma WeekdayRange(t: Time)
    ensures 0 <= t.Weekday() <= 6
  {
  }

  /** `Next` gives the first minute after the argument that the schedule names, and none only if it names none. */
  lemma NextNamed(s: Schedule, after: Time)
    requires s.Valid() && after.Valid()
    ensures NextMinute(after).Valid() && AddYears(after, NEXT_LIMIT_YEARS).Valid()
    ensures var r := Search(s, NextMinute(after), AddYears(after, NEXT_LIMIT_YEARS));
      if r.Some? then
        && r.value.Valid() && Names(s, r.value) && after.Before(r.value)
        && (forall t: Time :: t.Valid() && after.Before(t) && t.Before(r.value) ==> !Names(s, t))
      else forall t: Time :: t.Valid() ==> !Names(s, t)
  {
    hide Schedule.Matches, Schedule.Valid, Schedule.Impossible, Time.Valid, Search, NextMinute, AddYears, Names;
    NextIs(s, after);
    LimitIsEnough(s, after);
    forall t: Time | t.Valid() ensures s.Matches(t) <==> Names(s, t) {
      MatchesNamed(s, t);
    }
    SearchLeast(s, NextMinute(after), AddYears(after, NEXT_LIMIT_YEARS));
    forall t: Time | t.Valid() && after.Before(t) ensures NextMinute(after).NotAfter(t) {
      NothingBetween(after, t);
    }
  }

  // -------------------------------------------------------------------------- parsing

  datatype Error = FieldCount | EmptyItem | BadStep | StepNotPositive | BadValue | OutOfRange | Reversed

  /** One item of a field: the values `lo`, `lo + step`, ... up to `hi`. */
  datatype Item = Item(lo: int, hi: int, step: int) {
    function At(n: int): int {
      lo + n * step
    }

    ghost predicate Selects(v: int) {
      v <= hi && exists n :: n >= 0 && At(n) == v
    }

    /** What two additions of the step take away once they wrap around. */
    function Back(): int {
      2 * (MAX_INT + 1 - step)
    }

    function Home(n: int): int {
      lo - n * Back()
    }

    /** A value below the range that the addition comes back to after it has wrapped around. */
    ghost predicate Strays(v: int) {
      v >= 0 && exists n :: n >= 1 && Home(n) == v
    }

    /** No addition comes back to a value of the mask. */
    predicate Exact() {
      lo < Back()
    }

    /** As the parser makes it. */
    predicate Proper() {
      0 <= lo <= hi < WORD && 0 < step <= MAX_INT
    }
  }

  /** The bits of a mask. */
  const WORD := 64

  /** Addition of 64-bit integers. */
  function Plus(a: int, b: int): int {
    if a + b > MAX_INT then a + b - 2 * (MAX_INT + 1) else a + b
  }

  datatype Field = Minute | Hour | Dom | Month | Dow {
    function Min(): int {
      if this.Dom? || this.Month? then 1 else 0
    }

    function Max(): int {
      match this
      case Minute => 59
      case Hour => 23
      case Dom => 31
      case Month => 12
      case Dow => 7
    }

    /** The names a value may be given by. */
    function Names(): seq<string> {
      match this
      case Month => ["jan", "feb", "mar", "apr", "may", "jun", "jul", "aug", "sep", "oct", "nov", "dec"]
      case Dow => ["sun", "mon", "tue", "wed", "thu", "fri", "sat"]
      case _ => []
    }
  }

  /** `strings.ToLower`, as far as it can lead to an ASCII letter. */
  function Lower(s: string): string {
    seq(|s|, i requires 0 <= i < |s| => LowerChar(s[i]))
  }

  function LowerChar(c: char): char {
    if 'A' <= c <= 'Z' then (c as int + 32) as char
    else if c == 0x130 as char then 'i'
    else if c == 0x212A as char then 'k'
    else c
  }

  function Position(s: string, names: seq<string>): (k: nat)
    ensures k <= |names| && s !in names[..k]
    ensures k < |names| ==> names[k] == s
  {
    if names == [] || names[0] == s then 0 else
      var k := 1 + Position(s, names[1..]);
      assert names == [names[0]] + names[1..];
      k
  }

  function ParseValue(s: string, f: Field): (r: Result<int, Error>)
    ensures r.Ok? ==> f.Min() <= r.value <= f.Max()
  {
    var k := Position(Lower(s), f.Names());
    if k < |f.Names()| then Ok(f.Min() + k)
    else
      match Atoi(s)
      case None => Err(BadValue)
      case Some(v) => if v < f.Min() || v > f.Max() then Err(OutOfRange) else Ok(v)
  }

  /** A step after the slash; without one it is 1. */
  function ParseStep(part: string, slash: nat): (r: Result<int, Error>)
    requires slash <= |part|
    ensures r.Ok? ==> 0 < r.value <= MAX_INT
  {
    if slash == |part| then Ok(1)
    else
      match Atoi(part[slash + 1..])
      case None => Err(BadStep)
      case Some(n) => if n < 1 then Err(StepNotPositive) else Ok(n)
  }

  function ParseRange(range: string, hasStep: bool, f: Field): (r: Result<(int, int), Error>)
    ensures r.Ok? ==> f.Min() <= r.value.0 <= r.value.1 <= f.Max()
  {
    if range == "*" then Ok((f.Min(), f.Max()))
    else if '-' in range then
      var dash := Index(range, '-');
      match ParseValue(range[..dash], f)
      case Err(e) => Err(e)
      case Ok(lo) =>
        match ParseValue(range[dash + 1..], f)
        case Err(e) => Err(e)
        case Ok(hi) => if lo > hi then Err(Reversed) else Ok((lo, hi))
    else
      match ParseValue(range, f)
      case Err(e) => Err(e)
      case Ok(v) => Ok((v, if hasStep then f.Max() else v))
  }

  function ParseItem(part: string, f: Field): (r: Result<Item, Error>)
    ensures r.Ok? ==> f.Min() <= r.value.lo <= r.value.hi <= f.Max() && r.value.Proper()
  {
    if part == "" then Err(EmptyItem)
    else
      var slash := Index(part, '/');
      match ParseStep(part, slash)
      case Err(e) => Err(e)
      case Ok(step) =>
        match ParseRange(part[..slash], slash < |part|, f)
        case Err(e) => Err(e)
        case Ok((lo, hi)) => Ok(Item(lo, hi, step))
  }

  /** The field is well formed: each of its items is. */
  ghost predicate FieldOk(field: string, f: Field) {
    var parts := Split(field, ',');
    forall k :: 0 <= k < |parts| ==> ParseItem(parts[k], f).Ok?
  }

  /** Some item of the field selects `v`. */
  ghost predicate FieldSelects(field: string, f: Field, v: int) {
    exists item :: ItemOf(field, f, item) && item.Selects(v)
  }

  /** Some item of the field sets the bit `v`. */
  ghost predicate FieldMarks(field: string, f: Field, v: int) {
    exists item :: ItemOf(field, f, item) && Marks(item, v)
  }

  ghost predicate Marks(item: Item, v: int) {
    item.Selects(v) || item.Strays(v)
  }

  ghost predicate FieldExact(field: string, f: Field) {
    forall item :: ItemOf(field, f, item) ==> item.Exact()
  }

  ghost predicate ItemOf(field: string, f: Field, item: Item) {
    exists k :: 0 <= k < |Split(field, ',')| && ParseItem(Split(field, ',')[k], f) == Ok(item)
  }

  /** `e` is what is wrong with the first malformed item. */
  ghost predicate FirstError(field: string, f: Field, e: Error) {
    var parts := Split(field, ',');
    exists k :: 0 <= k < |parts| && ParseItem(parts[k], f) == Err(e)
             && forall j :: 0 <= j < k ==> ParseItem(parts[j], f).Ok?
  }

  /**
    The values of one item, added to a mask. The addition can wrap around, and a
    shift by a negative number, taken as unsigned, leaves no bit.
   */
  method AddItem(mask: set<int>, item: Item) returns (r: set<int>)
    requires item.Proper()
    ensures Marked(item, mask, r)
  {
    hide *;
    r := mask;
    var v := item.lo;
    ghost var n, home := 0, true;
    WalkStarts(item, mask);
    while v <= item.hi
      invariant if v <= item.hi then Walk(item, mask, r, v, n, home) else Marked(item, mask, r)
      decreases Left(item, v, n, home)
    {
      WalkStep(item, mask, r, v, n, home);
      if v >= 0 {
        r := r + {v};
      }
      n, home := n + (if Small(item) || !home then 1 else 0), Small(item) || !home;
      v := Plus(v, item.step);
    }
  }

  /** `r` is `mask` with the bits of the item. */
  ghost predicate Marked(item: Item, mask: set<int>, r: set<int>) {
    forall u :: u in r <==> u in mask || Marks(item, u)
  }

  /** The additions cannot wrap around. */
  predicate Small(item: Item) {
    item.step <= MAX_INT - WORD
  }

  /**
    Before the next turn. With a small step `v` is the `n`-th value. With a large
    one the turns alternate between a value from `lo` downwards and a negative
    one that has wrapped around.
   */
  ghost predicate Walk(item: Item, mask: set<int>, r: set<int>, v: int, n: int, home: bool) {
    n >= 0 &&
    if Small(item) then
      && home && v == item.At(n)
      && (forall u :: u in r <==> u in mask || exists m :: 0 <= m < n && item.At(m) == u)
      && (n > 0 ==> item.At(n - 1) <= item.hi)
    else
      && v == item.Home(n) - (if home then 0 else 2 * (MAX_INT + 1) - item.step)
      && (!home ==> 0 <= item.Home(n))
      && (n > 0 ==> item.Home(n - 1) >= 0)
      && (forall u :: u in r <==> u in mask || exists m :: 0 <= m < (if home then n else n + 1) && item.Home(m) == u)
  }

  function Left(item: Item, v: int, n: int, home: bool): int {
    if v > item.hi then 0
    else if Small(item) then 1 + item.hi - v
    else 4 * WORD + 2 * item.Home(n) + if home then 1 else 0
  }

  lemma WalkStarts(item: Item, mask: set<int>)
    requires item.Proper()
    ensures item.lo <= item.hi && Walk(item, mask, mask, item.lo, 0, true)
  {
  }

  lemma WalkStep(item: Item, mask: set<int>, r: set<int>, v: int, n: int, home: bool)
    requires item.Proper() && v <= item.hi && Walk(item, mask, r, v, n, home)
    ensures var r', v' := if v >= 0 then r + {v} else r, Plus(v, item.step);
      var n', home' := n + (if Small(item) || !home then 1 else 0), Small(item) || !home;
      && (if v' <= item.hi then Walk(item, mask, r', v', n', home') else Marked(item, mask, r'))
      && Left(item, v, n, home) > Left(item, v', n', home') >= 0
  {
    hide *;
    if Small(item) {
      StepSmall(item, mask, r, v, n, home);
    } else if home {
      StepHome(item, mask, r, v, n);
    } else {
      StepAway(item, mask, r, v, n);
    }
  }

  lemma StepSmall(item: Item, mask: set<int>, r: set<int>, v: int, n: int, home: bool)
    requires item.Proper() && Small(item) && v <= item.hi && Walk(item, mask, r, v, n, home)
    ensures var r', v' := if v >= 0 then r + {v} else r, Plus(v, item.step);
      && (if v' <= item.hi then Walk(item, mask, r', v', n + 1, true) else Marked(item, mask, r'))
      && Left(item, v, n, home) > Left(item, v', n + 1, true) >= 0
  {
    AtStep(item, n);
    AtGrows(item, 0, n);
    var r', v' := r + {v}, Plus(v, item.step);
    hide Item.At, Item.Home, Item.Back, Item.Strays;
    assert v == item.At(n) >= item.At(0) == item.lo && v' == item.At(n + 1) by {
      AtZero(item);
    }
    forall u ensures u in r' <==> u in mask || exists m :: 0 <= m < n + 1 && item.At(m) == u {
      if u in r' && u !in mask {
        if u == v {
          assert 0 <= n < n + 1 && item.At(n) == u;
        }
      }
    }
    if v' > item.hi {
      forall u ensures u in r' <==> u in mask || Marks(item, u) {
        SmallMarks(item, n, u);
      }
    }
  }

  lemma AtZero(item: Item)
    ensures item.At(0) == item.lo && item.Home(0) == item.lo
  {
  }

  /** With a small step the values up to `hi` are the first, and none strays. */
  lemma SmallMarks(item: Item, n: int, u: int)
    requires item.Proper() && Small(item) && n >= 0 && item.At(n) <= item.hi < item.At(n + 1)
    ensures Marks(item, u) <==> exists m :: 0 <= m < n + 1 && item.At(m) == u
  {
    hide Item.At, Item.Home;
    if item.Strays(u) {
      var m :| m >= 1 && item.Home(m) == u;
      HomeFalls(item, 1, m);
      HomeStep(item, 0);
      AtZero(item);
      assert false;
    }
    if item.Selects(u) {
      var m :| m >= 0 && item.At(m) == u;
      if m > n {
        AtGrows(item, n + 1, m);
        assert false;
      }
    }
    if m :| 0 <= m < n + 1 && item.At(m) == u {
      AtGrows(item, m, n);
    }
  }

  lemma HomeStep(item: Item, n: int)
    ensures item.Home(n + 1) == item.Home(n) - item.Back()
  {
  }

  lemma HomeFalls(item: Item, m: int, n: int)
    requires item.step <= MAX_INT && m <= n
    ensures item.Home(n) <= item.Home(m)
  {
    assert item.Home(m) - item.Home(n) == (n - m) * item.Back();
  }

  /** A large step: only `lo` is selected, and the strays are what comes after it on the way down. */
  lemma LargeMarks(item: Item, n: int, u: int)
    requires item.Proper() && !Small(item) && n >= 0 && item.Home(n) < 0 && (n > 0 ==> item.Home(n - 1) >= 0)
    ensures Marks(item, u) <==> exists m :: 0 <= m < n && item.Home(m) == u
  {
    hide Item.At, Item.Home;
    AtZero(item);
    if item.Strays(u) {
      var m :| m >= 1 && item.Home(m) == u;
      if m >= n {
        HomeFalls(item, n, m);
        assert false;
      }
    }
    if item.Selects(u) {
      var m :| m >= 0 && item.At(m) == u;
      if m > 0 {
        AtStep(item, 0);
        AtGrows(item, 1, m);
        assert false;
      }
      assert 0 <= 0 < n && item.Home(0) == u;
    }
    if m :| 0 <= m < n && item.Home(m) == u {
      HomeFalls(item, m, n - 1);
      if m == 0 {
        assert item.At(0) == u;
      }
    }
  }

  lemma StepHome(item: Item, mask: set<int>, r: set<int>, v: int, n: int)
    requires item.Proper() && !Small(item) && v <= item.hi && Walk(item, mask, r, v, n, true)
    ensures var r', v' := if v >= 0 then r + {v} else r, Plus(v, item.step);
      && (if v' <= item.hi then Walk(item, mask, r', v', n, false) else Marked(item, mask, r'))
      && Left(item, v, n, true) > Left(item, v', n, false) >= 0
  {
    hide Item.At, Item.Home, Marks;
    AtZero(item);
    HomeStep(item, n - 1);
    HomeStep(item, n);
    var r', v' := if v >= 0 then r + {v} else r, Plus(v, item.step);
    assert v == item.Home(n);
    if v >= 0 {
      forall u ensures u in r' <==> u in mask || exists m :: 0 <= m < n + 1 && item.Home(m) == u {
        if u == v {
          assert 0 <= n < n + 1 && item.Home(n) == u;
        }
      }
    }
    if v' > item.hi {
      forall u ensures u in r' <==> u in mask || Marks(item, u) {
        LargeMarks(item, if v >= 0 then n + 1 else n, u);
      }
    }
  }

  lemma StepAway(item: Item, mask: set<int>, r: set<int>, v: int, n: int)
    requires item.Proper() && !Small(item) && v <= item.hi && Walk(item, mask, r, v, n, false)
    ensures var v' := Plus(v, item.step);
      && v < 0 && v' <= item.hi && Walk(item, mask, r, v', n + 1, true)
      && Left(item, v, n, false) > Left(item, v', n + 1, true) >= 0
  {
    hide Item.At, Item.Home;
    AtZero(item);
    HomeStep(item, n);
    HomeFalls(item, 0, n);
  }

  /** The bits of an item are the values it stands for exactly if its step is not too large. */
  lemma ItemExact(item: Item)
    requires item.Proper()
    ensures item.Exact() <==> forall v :: Marks(item, v) <==> item.Selects(v)
  {
    hide Item.At, Item.Home;
    AtZero(item);
    HomeStep(item, 0);
    if item.Exact() {
      forall v ensures Marks(item, v) <==> item.Selects(v) {
        if item.Strays(v) {
          var m :| m >= 1 && item.Home(m) == v;
          HomeFalls(item, 1, m);
          assert false;
        }
      }
    } else {
      var v := item.Home(1);
      assert item.Strays(v) && Marks(item, v);
      if item.Selects(v) {
        var m :| m >= 0 && item.At(m) == v;
        AtGrows(item, 0, m);
        assert false;
      }
    }
  }

  lemma AtStep(item: Item, n: int)
    ensures item.At(n + 1) == item.At(n) + item.step
  {
  }

  lemma AtGrows(item: Item, m: int, n: int)
    requires item.step > 0 && m <= n
    ensures item.At(m) <= item.At(n)
  {
    assert item.At(n) - item.At(m) == (n - m) * item.step;
  }

  /** `parseField`. */
  method ParseField(field: string, f: Field) returns (r: Result<(set<int>, bool), Error>)
    ensures r.Ok? <==> FieldOk(field, f)
    ensures r.Ok? ==> forall v :: v in r.value.0 <==> FieldMarks(field, f, v)
    ensures r.Ok? ==> (r.value.1 <==> field == "*")
    ensures r.Err? ==> FirstError(field, f, r.error)
  {
    hide *;
    var mask: set<int>, star := {}, false;
    var parts := Split(field, ',');
    ReadStarts(field, f);
    for i := 0 to |parts|
      invariant Read(field, f, i, mask)
      invariant star <==> field == "*" && i > 0
    {
      var item := ParseItem(parts[i], f);
      if item.Err? {
        ReadFails(field, f, i, mask);
        return Err(item.error);
      }
      StarAlone(field);
      if parts[i] == "*" && field == "*" {
        star := true;
      }
      ghost var was := mask;
      mask := AddItem(mask, item.value);
      ReadStep(field, f, i, was, mask);
    }
    ReadEnds(field, f, mask);
    return Ok((mask, star));
  }

  /** The first `i` items are well formed and `mask` holds their bits. */
  ghost predicate Read(field: string, f: Field, i: nat, mask: set<int>) {
    var parts := Split(field, ',');
    && i <= |parts|
    && (forall k :: 0 <= k < i ==> ParseItem(parts[k], f).Ok?)
    && (forall v :: v in mask <==> exists k :: 0 <= k < i && Marks(ParseItem(parts[k], f).value, v))
  }

  lemma ReadStarts(field: string, f: Field)
    ensures Read(field, f, 0, {})
  {
  }

  lemma ReadStep(field: string, f: Field, i: nat, was: set<int>, mask: set<int>)
    requires Read(field, f, i, was) && i < |Split(field, ',')| && ParseItem(Split(field, ',')[i], f).Ok?
    requires Marked(ParseItem(Split(field, ',')[i], f).value, was, mask)
    ensures Read(field, f, i + 1, mask)
  {
    hide Split, ParseItem, Marks;
  }

  lemma ReadFails(field: string, f: Field, i: nat, mask: set<int>)
    requires Read(field, f, i, mask) && i < |Split(field, ',')| && ParseItem(Split(field, ',')[i], f).Err?
    ensures !FieldOk(field, f) && FirstError(field, f, ParseItem(Split(field, ',')[i], f).error)
  {
    hide Split, ParseItem, Marks;
  }

  lemma ReadEnds(field: string, f: Field, mask: set<int>)
    requires Read(field, f, |Split(field, ',')|, mask)
    ensures FieldOk(field, f) && forall v :: v in mask <==> FieldMarks(field, f, v)
  {
    hide Split, ParseItem, Marks;
    forall v ensures v in mask <==> FieldMarks(field, f, v) {
      if v in mask {
        var k :| 0 <= k < |Split(field, ',')| && Marks(ParseItem(Split(field, ',')[k], f).value, v);
        assert ItemOf(field, f, ParseItem(Split(field, ',')[k], f).value);
      }
    }
  }

  /** What the text of a schedule means, if it is well formed. */
  ghost predicate Reads(expr: string, s: Schedule) {
    var fields := Fields(expr);
    && |fields| == 5
    && FieldReads(fields[0], Minute, s.minute) && FieldReads(fields[1], Hour, s.hour)
    && FieldReads(fields[2], Dom, s.dom) && FieldReads(fields[3], Month, s.month)
    && FieldOk(fields[4], Dow)
    && (forall v :: v in s.dow <==>
          (FieldSelects(fields[4], Dow, v) && v != 7) || (v == 0 && FieldSelects(fields[4], Dow, 7)))
    && (s.domStar <==> fields[2] == "*") && (s.dowStar <==> fields[4] == "*")
  }

  ghost predicate FieldReads(field: string, f: Field, mask: set<int>) {
    FieldOk(field, f) && forall v :: v in mask <==> FieldSelects(field, f, v)
  }

  /** What the parser makes of the text. */
  ghost predicate Builds(expr: string, s: Schedule) {
    var fields := Fields(expr);
    && |fields| == 5
    && FieldBuilds(fields[0], Minute, s.minute) && FieldBuilds(fields[1], Hour, s.hour)
    && FieldBuilds(fields[2], Dom, s.dom) && FieldBuilds(fields[3], Month, s.month)
    && FieldOk(fields[4], Dow)
    && (forall v :: v in s.dow <==>
          (FieldMarks(fields[4], Dow, v) && v != 7) || (v == 0 && FieldMarks(fields[4], Dow, 7)))
    && (s.domStar <==> fields[2] == "*") && (s.dowStar <==> fields[4] == "*")
  }

  ghost predicate FieldBuilds(field: string, f: Field, mask: set<int>) {
    FieldOk(field, f) && forall v :: v in mask <==> FieldMarks(field, f, v)
  }

  /** No step of the text is so large that it makes a difference. */
  ghost predicate Exact(expr: string) {
    var fields := Fields(expr);
    && |fields| == 5 && FieldExact(fields[0], Minute) && FieldExact(fields[1], Hour)
    && FieldExact(fields[2], Dom) && FieldExact(fields[3], Month) && FieldExact(fields[4], Dow)
  }

  const FIELDS: seq<Field> := [Minute, Hour, Dom, Month, Dow]

  /** The error is about the first malformed field. */
  ghost predicate FieldFails(expr: string, e: Error) {
    var fields := Fields(expr);
    if |fields| != 5 then e == FieldCount
    else exists i :: 0 <= i < 5 && FirstError(fields[i], FIELDS[i], e)
                  && forall j :: 0 <= j < i ==> FieldOk(fields[j], FIELDS[j])
  }

  /** The text is a well-formed schedule. */
  ghost predicate Accepts(expr: string) {
    |Fields(expr)| == 5 && forall i :: 0 <= i < 5 ==> FieldOk(Fields(expr)[i], FIELDS[i])
  }

  /** `Parse`. */
  method Parse(expr: string) returns (r: Result<Schedule, Error>)
    ensures r.Ok? ==> Builds(expr, r.value)
    ensures r.Ok? && Exact(expr) ==> Reads(expr, r.value)
    ensures r.Ok? ==>
      (r.value.Valid() <==> !FieldMarks(Fields(expr)[2], Dom, 0) && !FieldMarks(Fields(expr)[3], Month, 0))
    ensures r.Err? ==> FieldFails(expr, r.error)
    ensures r.Ok? <==> Accepts(expr)
  {
    hide *;
    var fields := Fields(expr);
    if |fields| != 5 {
      CountFails(expr);
      return Err(FieldCount);
    }
    FieldsKnown();
    var masks, stars := [], [];
    for i := 0 to 5
      invariant |masks| == |stars| == i
      invariant forall j :: 0 <= j < i ==> FieldOk(fields[j], FIELDS[j])
      invariant forall j, v :: 0 <= j < i ==> (v in masks[j] <==> FieldMarks(fields[j], FIELDS[j], v))
      invariant forall j :: 0 <= j < i ==> (stars[j] <==> fields[j] == "*")
    {
      var field := ParseField(fields[i], FIELDS[i]);
      if field.Err? {
        FieldErr(expr, i, field.error);
        return Err(field.error);
      }
      masks := masks + [field.value.0];
      stars := stars + [field.value.1];
    }
    var s := Schedule(masks[0], masks[1], masks[2], masks[3], masks[4], stars[2], stars[4]);
    if 7 in s.dow {
      s := s.(dow := s.dow + {0});
      s := s.(dow := s.dow - {7});
    }
    BuildsIs(expr, s);
    BuildsValid(expr, s);
    if Exact(expr) {
      BuildsReads(expr, s);
    }
    return Ok(s);
  }

  lemma FieldsKnown()
    ensures FIELDS == [Minute, Hour, Dom, Month, Dow]
  {
  }

  lemma CountFails(expr: string)
    requires |Fields(expr)| != 5
    ensures FieldFails(expr, FieldCount) && !Accepts(expr)
  {
  }

  lemma ErrorNotOk(field: string, f: Field, e: Error)
    requires FirstError(field, f, e)
    ensures !FieldOk(field, f)
  {
    hide Split, ParseItem;
  }

  lemma FieldErr(expr: string, i: nat, e: Error)
    requires i < 5 == |Fields(expr)| && FirstError(Fields(expr)[i], FIELDS[i], e)
    requires forall j :: 0 <= j < i ==> FieldOk(Fields(expr)[j], FIELDS[j])
    ensures FieldFails(expr, e) && !Accepts(expr)
  {
    hide Fields, FirstError, FieldOk, Split;
    ErrorNotOk(Fields(expr)[i], FIELDS[i], e);
  }

  lemma BuildsIs(expr: string, s: Schedule)
    requires |Fields(expr)| == 5
    requires forall j :: 0 <= j < 5 ==> FieldOk(Fields(expr)[j], FIELDS[j])
    requires var fields := Fields(expr);
      && (forall v :: v in s.minute <==> FieldMarks(fields[0], FIELDS[0], v))
      && (forall v :: v in s.hour <==> FieldMarks(fields[1], FIELDS[1], v))
      && (forall v :: v in s.dom <==> FieldMarks(fields[2], FIELDS[2], v))
      && (forall v :: v in s.month <==> FieldMarks(fields[3], FIELDS[3], v))
      && (forall v :: v in s.dow <==>
            (FieldMarks(fields[4], FIELDS[4], v) && v != 7) || (v == 0 && FieldMarks(fields[4], FIELDS[4], 7)))
      && (s.domStar <==> fields[2] == "*") && (s.dowStar <==> fields[4] == "*")
    ensures Builds(expr, s) && Accepts(expr)
  {
    hide Fields, FieldMarks, FieldOk, Split;
    assert FieldOk(Fields(expr)[0], FIELDS[0]) && FieldOk(Fields(expr)[1], FIELDS[1]);
    assert FieldOk(Fields(expr)[2], FIELDS[2]) && FieldOk(Fields(expr)[3], FIELDS[3]);
    assert FieldOk(Fields(expr)[4], FIELDS[4]);
  }

  lemma FieldExactly(field: string, f: Field, v: int)
    requires FieldExact(field, f)
    ensures FieldMarks(field, f, v) <==> FieldSelects(field, f, v)
  {
    hide Split, ParseItem, Marks, Item.Selects, Item.Exact, Item.Proper;
    forall item | ItemOf(field, f, item) ensures Marks(item, v) <==> item.Selects(v) {
      ItemProper(field, f, item);
      ItemExact(item);
    }
  }

  lemma ItemProper(field: string, f: Field, item: Item)
    requires ItemOf(field, f, item)
    ensures item.Proper()
  {
    hide Split, ParseItem;
  }

  /** Unless a step is too large, the parser makes of a text what it means. */
  lemma BuildsReads(expr: string, s: Schedule)
    requires Exact(expr)
    ensures Builds(expr, s) <==> Reads(expr, s)
  {
    hide Fields, FieldMarks, FieldSelects, FieldOk, FieldExact;
    var fields := Fields(expr);
    forall v ensures FieldMarks(fields[0], Minute, v) <==> FieldSelects(fields[0], Minute, v) {
      FieldExactly(fields[0], Minute, v);
    }
    forall v ensures FieldMarks(fields[1], Hour, v) <==> FieldSelects(fields[1], Hour, v) {
      FieldExactly(fields[1], Hour, v);
    }
    forall v ensures FieldMarks(fields[2], Dom, v) <==> FieldSelects(fields[2], Dom, v) {
      FieldExactly(fields[2], Dom, v);
    }
    forall v ensures FieldMarks(fields[3], Month, v) <==> FieldSelects(fields[3], Month, v) {
      FieldExactly(fields[3], Month, v);
    }
    forall v ensures FieldMarks(fields[4], Dow, v) <==> FieldSelects(fields[4], Dow, v) {
      FieldExactly(fields[4], Dow, v);
    }
  }

  lemma InRange(field: string, f: Field, v: int)
    requires FieldSelects(field, f, v)
    ensures f.Min() <= v <= f.Max()
  {
    hide Split, ParseItem, Field.Min, Field.Max;
    var it :| ItemOf(field, f, it) && it.Selects(v);
    var n :| n >= 0 && it.At(n) == v;
    AtGrows(it, 0, n);
  }

  /** A stray value lies below the range, which leaves room only where the range starts at 1. */
  lemma MarksRange(field: string, f: Field, v: int)
    requires FieldMarks(field, f, v)
    ensures 0 <= v <= f.Max() && (v < f.Min() ==> v == 0)
  {
    hide Split, ParseItem, Field.Max, Item.At, Item.Home;
    var it :| ItemOf(field, f, it) && Marks(it, v);
    if it.Strays(v) {
      var n :| n >= 1 && it.Home(n) == v;
      HomeFalls(it, 0, n);
      AtZero(it);
    } else {
      assert FieldSelects(field, f, v);
      InRange(field, f, v);
    }
  }

  lemma SelectsSome(field: string, f: Field) returns (v: int)
    requires FieldOk(field, f)
    ensures FieldSelects(field, f, v)
  {
    hide Split, ParseItem, Field.Min, Field.Max;
    var item := ParseItem(Split(field, ',')[0], f).value;
    assert item.At(0) == item.lo;
    assert ItemOf(field, f, item) && item.Selects(item.lo);
    v := item.lo;
  }

  lemma FieldBuilt(field: string, f: Field, mask: set<int>)
    requires FieldBuilds(field, f, mask)
    ensures Selected(mask, f.Min(), f.Max()) <==> f.Min() == 0 || !FieldMarks(field, f, 0)
  {
    hide FieldOk, FieldSelects, FieldMarks, Field.Max;
    var v := SelectsSome(field, f);
    SelectsMarks(field, f, v);
    assert v in mask;
    forall v | v in mask ensures 0 <= v <= f.Max() && (v < f.Min() ==> v == 0) {
      MarksRange(field, f, v);
    }
  }

  lemma SelectsMarks(field: string, f: Field, v: int)
    requires FieldSelects(field, f, v)
    ensures FieldMarks(field, f, v)
  {
    hide ItemOf, Item.Selects;
    var item :| ItemOf(field, f, item) && item.Selects(v);
    assert Marks(item, v);
  }

  lemma FieldBuildsAt(field: string, f: Field, mask: set<int>, v: int)
    requires FieldBuilds(field, f, mask)
    ensures v in mask <==> FieldMarks(field, f, v)
  {
  }

  /** Sunday has two numbers; only 0 is left. */
  lemma DowBuilt(field: string, dow: set<int>)
    requires FieldOk(field, Dow)
    requires forall v :: v in dow <==>
      (FieldMarks(field, Dow, v) && v != 7) || (v == 0 && FieldMarks(field, Dow, 7))
    ensures Selected(dow, 0, 6)
  {
    hide FieldOk, FieldSelects, FieldMarks;
    var v := SelectsSome(field, Dow);
    SelectsMarks(field, Dow, v);
    assert (if v == 7 then 0 else v) in dow;
    forall v | v in dow ensures 0 <= v <= 6 {
      if v != 0 {
        MarksRange(field, Dow, v);
      }
    }
  }

  lemma StarSelects(f: Field, v: int)
    requires f.Min() <= v <= f.Max()
    ensures FieldSelects("*", f, v)
  {
    StarAlone("*");
    var item := Item(f.Min(), f.Max(), 1);
    StarItem(f);
    assert Split("*", ',')[0] == "*";
    assert ItemOf("*", f, item);
    assert item.At(v - f.Min()) == v;
  }

  lemma StarItem(f: Field)
    ensures ParseItem("*", f) == Ok(Item(f.Min(), f.Max(), 1))
  {
    assert '/' !in "*";
    assert "*"[..1] == "*";
  }

  /**
    What the parser makes is a valid schedule, unless a step so large that it
    wraps around has left the bit of a day or month 0.
   */
  lemma BuildsValid(expr: string, s: Schedule)
    requires Builds(expr, s)
    ensures s.Valid() <==> !FieldMarks(Fields(expr)[2], Dom, 0) && !FieldMarks(Fields(expr)[3], Month, 0)
  {
    hide FieldMarks, FieldSelects, FieldOk, Fields, Split, FieldBuilds, Selected;
    var fields := Fields(expr);
    FieldBuilt(fields[0], Minute, s.minute);
    FieldBuilt(fields[1], Hour, s.hour);
    FieldBuilt(fields[2], Dom, s.dom);
    FieldBuilt(fields[3], Month, s.month);
    DowBuilt(fields[4], s.dow);
    StarsHold(expr, s);
  }

  /** A star selects everything. */
  lemma StarsHold(expr: string, s: Schedule)
    requires Builds(expr, s)
    ensures s.domStar ==> forall d :: 1 <= d <= 31 ==> d in s.dom
    ensures s.dowStar ==> forall w :: 0 <= w <= 6 ==> w in s.dow
  {
    hide FieldMarks, FieldSelects, FieldOk, Fields, Split, FieldBuilds;
    var fields := Fields(expr);
    forall d | 1 <= d <= 31 && s.domStar ensures d in s.dom {
      StarSelects(Dom, d);
      SelectsMarks(fields[2], Dom, d);
      FieldBuildsAt(fields[2], Dom, s.dom, d);
    }
    forall w | 0 <= w <= 6 && s.dowStar ensures w in s.dow {
      StarSelects(Dow, w);
      SelectsMarks(fields[4], Dow, w);
    }
  }

  /** Text without such steps gives a valid schedule. */
  lemma ReadsValid(expr: string, s: Schedule)
    requires Builds(expr, s) && Exact(expr)
    ensures s.Valid()
  {
    hide FieldMarks, FieldSelects, FieldOk, Fields, FieldBuilds;
    BuildsValid(expr, s);
    FieldExactly(Fields(expr)[2], Dom, 0);
    FieldExactly(Fields(expr)[3], Month, 0);
    if FieldSelects(Fields(expr)[2], Dom, 0) {
      InRange(Fields(expr)[2], Dom, 0);
    }
    if FieldSelects(Fields(expr)[3], Month, 0) {
      InRange(Fields(expr)[3], Month, 0);
    }
  }

  /** Without the bits of a day or month 0. */
  function Trimmed(s: Schedule): Schedule {
    s.(dom := s.dom - {0}, month := s.month - {0})
  }

  lemma FieldTrimmed(field: string, f: Field, mask: set<int>)
    requires FieldBuilds(field, f, mask) && f.Min() == 1
    ensures Selected(mask - {0}, f.Min(), f.Max())
  {
    hide FieldOk, FieldSelects, FieldMarks, Field.Max;
    var v := SelectsSome(field, f);
    SelectsMarks(field, f, v);
    InRange(field, f, v);
    assert v in mask - {0};
    forall v | v in mask - {0} ensures 1 <= v <= f.Max() {
      MarksRange(field, f, v);
    }
  }

  lemma TrimmedValid(expr: string, s: Schedule)
    requires Builds(expr, s)
    ensures Trimmed(s).Valid()
  {
    hide FieldMarks, FieldSelects, FieldOk, Fields, Split, FieldBuilds, Selected;
    var fields := Fields(expr);
    FieldBuilt(fields[0], Minute, s.minute);
    FieldBuilt(fields[1], Hour, s.hour);
    FieldTrimmed(fields[2], Dom, s.dom);
    FieldTrimmed(fields[3], Month, s.month);
    DowBuilt(fields[4], s.dow);
    StarsHold(expr, s);
  }

  lemma TrimmedMatches(s: Schedule, t: Time)
    requires t.Valid()
    ensures Trimmed(s).Matches(t) <==> s.Matches(t)
  {
    hide Time.Weekday;
  }

  /** The cut-off hides no run of a schedule made from any text, a day or month 0 or not. */
  lemma LimitIsEnoughParsed(expr: string, s: Schedule, after: Time)
    requires Builds(expr, s) && after.Valid()
    ensures NextMinute(after).Valid() && AddYears(after, NEXT_LIMIT_YEARS).Valid()
    ensures Search(s, NextMinute(after), AddYears(after, NEXT_LIMIT_YEARS)).None? <==>
      forall t: Time :: t.Valid() ==> !s.Matches(t)
  {
    hide Builds, Schedule.Matches, Schedule.Valid, Schedule.Impossible;
    hide Time.Valid, Search, NextMinute, AddYears, Trimmed;
    var s0 := Trimmed(s);
    TrimmedValid(expr, s);
    LimitIsEnough(s0, after);
    forall t: Time | t.Valid() ensures s0.Matches(t) <==> s.Matches(t) {
      TrimmedMatches(s, t);
    }
    SearchLeast(s, NextMinute(after), AddYears(after, NEXT_LIMIT_YEARS));
    SearchLeast(s0, NextMinute(after), AddYears(after, NEXT_LIMIT_YEARS));
  }

  lemma StarAlone(field: string)
    ensures field == "*" ==> Split(field, ',') == ["*"]
  {
    if field == "*" {
      SplitWhole(field, ',');
    }
  }

  // ----------------------------------------------------------------------- rendering

  function Decimal(v: int): string
    requires 0 <= v
    decreases v
  {
    if v < 10 then [('0' as int + v) as char] else Decimal(v / 10) + [('0' as int + v % 10) as char]
  }

  /** The selected values in increasing order. */
  function Values(mask: set<int>, lo: int, hi: int): (vs: seq<int>)
    ensures forall v :: v in vs <==> v in mask && lo <= v <= hi
    decreases hi - lo + 1
  {
    if lo > hi then [] else (if lo in mask then [lo] else []) + Values(mask, lo + 1, hi)
  }

  function Items(vs: seq<int>): seq<string>
    requires forall v :: v in vs ==> 0 <= v < 100
  {
    seq(|vs|, k requires 0 <= k < |vs| => assert vs[k] in vs; Decimal(vs[k]))
  }

  function RenderMask(mask: set<int>, lo: int, hi: int): string
    requires 0 <= lo && hi < 100
  {
    Join(Items(Values(mask, lo, hi)), ',')
  }

  function Columns(s: Schedule): seq<string> {
    [RenderMask(s.minute, 0, 59), RenderMask(s.hour, 0, 23), if s.domStar then "*" else RenderMask(s.dom, 1, 31),
     RenderMask(s.month, 1, 12), if s.dowStar then "*" else RenderMask(s.dow, 0, 6)]
  }

  /** A schedule written out with a list of numbers for every field that is not a star. */
  function Render(s: Schedule): string {
    Join(Columns(s), ' ')
  }

  lemma {:induction false} DecimalDigits(v: int)
    requires 0 <= v
    ensures Decimal(v) != "" && AllDigits(Decimal(v)) && Value(Decimal(v)) == v
    decreases v
  {
    var s := Decimal(v);
    if v >= 10 {
      DecimalDigits(v / 10);
      assert s[..|s| - 1] == Decimal(v / 10);
    } else {
      assert s[..0] == "";
    }
  }

  lemma NotName(s: string, f: Field)
    requires s != "" && (IsDigit(s[0]) || s[0] == '+')
    ensures Position(Lower(s), f.Names()) == |f.Names()|
  {
    assert Lower(s)[0] == s[0];
    forall k | 0 <= k < |f.Names()| ensures f.Names()[k] != Lower(s) {
      assert |f.Names()[k]| == 3 && 'a' <= f.Names()[k][0] <= 'z';
    }
  }

  lemma DecimalItem(v: int, f: Field)
    requires f.Min() <= v <= f.Max()
    ensures ParseItem(Decimal(v), f) == Ok(Item(v, v, 1)) && ParseValue(Decimal(v), f) == Ok(v)
  {
    hide Decimal, Value, Field.Names, Lower, Position;
    DecimalDigits(v);
    var s := Decimal(v);
    NotName(s, f);
    assert IsDigit(s[0]);
    assert '/' !in s && '-' !in s && s != "*";
    assert s[..|s|] == s;
    assert Atoi(s) == Some(v);
    assert ParseValue(s, f) == Ok(v);
  }

  lemma RenderWord(mask: set<int>, lo: int, hi: int)
    requires 0 <= lo && hi < 100 && Selected(mask, lo, hi)
    ensures IsWord(RenderMask(mask, lo, hi))
    ensures RenderMask(mask, lo, hi) != "*"
  {
    hide Decimal, Join;
    var vs := Values(mask, lo, hi);
    var parts := Items(vs);
    var v := Pick(mask, lo, hi);
    assert v in vs;
    var s := RenderMask(mask, lo, hi);
    assert vs[0] in vs;
    DecimalDigits(vs[0]);
    JoinStarts(parts, ',');
    forall i | 0 <= i < |s| ensures !IsSpace(s[i]) && s[i] != '*' {
      JoinChars(parts, ',', s[i]);
      if s[i] != ',' {
        var k :| 0 <= k < |parts| && s[i] in parts[k];
        assert vs[k] in vs;
        DecimalDigits(vs[k]);
      }
    }
  }

  lemma RenderSplit(mask: set<int>, lo: int, hi: int)
    requires 0 <= lo && hi < 100 && Selected(mask, lo, hi)
    ensures Split(RenderMask(mask, lo, hi), ',') == Items(Values(mask, lo, hi))
  {
    hide Decimal, Join, Split;
    var vs := Values(mask, lo, hi);
    var v := Pick(mask, lo, hi);
    assert v in vs;
    forall k | 0 <= k < |vs| ensures ',' !in Items(vs)[k] {
      assert vs[k] in vs;
      DecimalDigits(vs[k]);
    }
    SplitJoin(Items(vs), ',');
  }

  lemma RenderReads(mask: set<int>, lo: int, hi: int, f: Field)
    requires f.Min() <= lo && hi <= f.Max() && Selected(mask, lo, hi)
    ensures FieldReads(RenderMask(mask, lo, hi), f, mask) && FieldExact(RenderMask(mask, lo, hi), f)
  {
    hide Decimal, Join, Split, RenderMask, Field.Min, Field.Max, ParseItem;
    FieldBounds(f);
    var vs := Values(mask, lo, hi);
    var field := RenderMask(mask, lo, hi);
    RenderSplit(mask, lo, hi);
    forall k | 0 <= k < |vs| ensures ParseItem(Split(field, ',')[k], f) == Ok(Item(vs[k], vs[k], 1)) {
      assert vs[k] in vs;
      DecimalItem(vs[k], f);
    }
    forall v ensures v in mask <==> FieldSelects(field, f, v) {
      ListSelects(field, f, vs, v);
    }
    ListExact(field, f, vs);
  }

  lemma ListExact(field: string, f: Field, vs: seq<int>)
    requires |Split(field, ',')| == |vs|
    requires forall k :: 0 <= k < |vs| ==> ParseItem(Split(field, ',')[k], f) == Ok(Item(vs[k], vs[k], 1))
    ensures FieldExact(field, f)
  {
    hide Split, ParseItem;
    forall item | ItemOf(field, f, item) ensures item.Exact() {
      ItemProper(field, f, item);
    }
  }

  lemma ListSelects(field: string, f: Field, vs: seq<int>, v: int)
    requires |Split(field, ',')| == |vs|
    requires forall k :: 0 <= k < |vs| ==> ParseItem(Split(field, ',')[k], f) == Ok(Item(vs[k], vs[k], 1))
    ensures v in vs <==> FieldSelects(field, f, v)
  {
    hide Split, ParseItem;
    if v in vs {
      var k :| 0 <= k < |vs| && vs[k] == v;
      var item := Item(v, v, 1);
      assert ParseItem(Split(field, ',')[k], f) == Ok(item);
      assert ItemOf(field, f, item) && item.At(0) == v;
    }
    if FieldSelects(field, f, v) {
      var item :| ItemOf(field, f, item) && item.Selects(v);
      var k :| 0 <= k < |vs| && ParseItem(Split(field, ',')[k], f) == Ok(item);
      assert item == Item(vs[k], vs[k], 1) && vs[k] in vs;
    }
  }

  lemma FieldBounds(f: Field)
    ensures 0 <= f.Min() <= f.Max() < 100
  {
  }

  lemma StarReads(f: Field, mask: set<int>)
    requires forall v :: v in mask <==> f.Min() <= v <= f.Max()
    ensures FieldReads("*", f, mask) && FieldExact("*", f)
  {
    hide FieldSelects;
    StarAlone("*");
    StarItem(f);
    assert FieldExact("*", f) by {
      hide ParseItem, Split;
    }
    forall v ensures v in mask <==> FieldSelects("*", f, v) {
      if v in mask {
        StarSelects(f, v);
      } else if FieldSelects("*", f, v) {
        InRange("*", f, v);
      }
    }
  }

  lemma RenderFields(s: Schedule)
    requires s.Valid()
    ensures Fields(Render(s)) == Columns(s)
    ensures s.domStar <==> Columns(s)[2] == "*"
    ensures s.dowStar <==> Columns(s)[4] == "*"
  {
    hide RenderMask, Selected, Join, Fields;
    RenderWord(s.minute, 0, 59);
    RenderWord(s.hour, 0, 23);
    RenderWord(s.dom, 1, 31);
    RenderWord(s.month, 1, 12);
    RenderWord(s.dow, 0, 6);
    FieldsJoin(Columns(s));
  }

  lemma DowReads(s: Schedule)
    requires s.Valid()
    ensures var field := Columns(s)[4];
      && FieldOk(field, Dow) && FieldExact(field, Dow) && (FieldSelects(field, Dow, 7) ==> s.dowStar)
      && forall v :: v in s.dow <==> FieldSelects(field, Dow, v) && v != 7
  {
    hide RenderMask, FieldOk, FieldSelects, FieldExact;
    if s.dowStar {
      StarReads(Dow, {0, 1, 2, 3, 4, 5, 6, 7});
    } else {
      RenderReads(s.dow, 0, 6, Dow);
    }
  }

  lemma DomReads(s: Schedule)
    requires s.Valid()
    ensures FieldReads(Columns(s)[2], Dom, s.dom) && FieldExact(Columns(s)[2], Dom)
  {
    hide RenderMask, FieldReads, FieldExact;
    if s.domStar {
      StarReads(Dom, s.dom);
    } else {
      RenderReads(s.dom, 1, 31, Dom);
    }
  }

  lemma RenderIsRead(s: Schedule)
    requires s.Valid()
    ensures Reads(Render(s), s) && Exact(Render(s))
  {
    hide RenderMask, FieldReads, FieldExact, Fields, FieldSelects, FieldOk, Selected;
    RenderFields(s);
    RenderReads(s.minute, 0, 59, Minute);
    RenderReads(s.hour, 0, 23, Hour);
    DomReads(s);
    RenderReads(s.month, 1, 12, Month);
    DowReads(s);
  }

  lemma ReadsUnique(expr: string, s: Schedule, t: Schedule)
    requires Reads(expr, s) && Reads(expr, t)
    ensures s == t
  {
    hide Fields, FieldSelects, FieldOk;
    SameMask(s.minute, t.minute);
    SameMask(s.hour, t.hour);
    SameMask(s.dom, t.dom);
    SameMask(s.month, t.month);
    SameMask(s.dow, t.dow);
  }

  lemma SameMask(a: set<int>, b: set<int>)
    requires forall v :: v in a <==> v in b
    ensures a == b
  {
    forall v: int | v in a ensures v in b {
    }
    forall v: int | v in b ensures v in a {
    }
  }

  /**
    Parsing undoes rendering: every valid schedule is made from its own text, and
    nothing else is.
   */
  lemma ParseRender(s: Schedule, t: Schedule)
    requires s.Valid()
    ensures Builds(Render(s), t) <==> t == s
  {
    hide Reads, Builds, Exact, Render, Schedule.Valid;
    RenderIsRead(s);
    BuildsReads(Render(s), s);
    BuildsReads(Render(s), t);
    if Reads(Render(s), t) {
      ReadsUnique(Render(s), s, t);
    }
  }

  // ------------------------------------------------------------------ large steps

  /** A value and a step, written out. */
  function Stepped(v: int, step: int): string
    requires 0 <= v && 0 <= step
  {
    Decimal(v) + "/" + Decimal(step)
  }

  lemma SteppedItem(v: int, step: int, f: Field)
    requires f.Min() <= v <= f.Max() && 0 < step <= MAX_INT
    ensures ParseItem(Stepped(v, step), f) == Ok(Item(v, f.Max(), step)) && ',' !in Stepped(v, step)
  {
    hide Decimal, Value, ParseValue, Field.Max;
    var part := Stepped(v, step);
    var lo, n := Decimal(v), Decimal(step);
    DecimalDigits(v);
    DecimalDigits(step);
    DecimalItem(v, f);
    assert lo[0] != '*' && IsDigit(lo[0]) && IsDigit(n[0]);
    assert '/' !in lo && '-' !in lo;
    IndexPast(lo, n, '/');
    assert part[..|lo|] == lo && part[|lo| + 1..] == n;
    assert Atoi(n) == Some(step);
  }

  lemma OneItem(field: string, f: Field, item: Item)
    requires ',' !in field && ParseItem(field, f) == Ok(item)
    ensures FieldOk(field, f) && forall it :: ItemOf(field, f, it) <==> it == item
  {
    hide ParseItem, Split;
    SplitWhole(field, ',');
    assert Split(field, ',')[0] == field;
  }

  lemma OneItemMarks(field: string, f: Field, item: Item, u: int)
    requires forall it :: ItemOf(field, f, it) <==> it == item
    ensures FieldMarks(field, f, u) <==> Marks(item, u)
    ensures FieldSelects(field, f, u) <==> item.Selects(u)
  {
    hide ItemOf, Marks, Item.Selects;
    assert ItemOf(field, f, item);
  }

  /** A field that is one value and a step sets the bits of what it says exactly if the step is not too large. */
  lemma SteppedExact(v: int, step: int, f: Field)
    requires f.Min() <= v <= f.Max() && 0 < step <= MAX_INT
    ensures var field := Stepped(v, step);
      && FieldOk(field, f)
      && ((forall u :: FieldMarks(field, f, u) <==> FieldSelects(field, f, u)) <==> v < 2 * (MAX_INT + 1 - step))
  {
    hide FieldOk, ItemOf, ParseItem, Stepped, Marks, Item.Selects, Item.Proper, FieldMarks, FieldSelects;
    var field, item := Stepped(v, step), Item(v, f.Max(), step);
    SteppedItem(v, step, f);
    OneItem(field, f, item);
    ItemProper(field, f, item);
    ItemExact(item);
    forall u
      ensures (FieldMarks(field, f, u) <==> FieldSelects(field, f, u)) <==> (Marks(item, u) <==> item.Selects(u))
    {
      OneItemMarks(field, f, item, u);
    }
  }

  /** The second day of the month with the largest step is that day alone, but the bit of day 0 is set as well. */
  lemma LargeStep()
    ensures var field := Stepped(2, MAX_INT);
      FieldOk(field, Dom) && FieldMarks(field, Dom, 0) && !FieldSelects(field, Dom, 0)
  {
    var field, item := Stepped(2, MAX_INT), Item(2, 31, MAX_INT);
    SteppedItem(2, MAX_INT, Dom);
    hide ParseItem, Stepped, Split;
    OneItem(field, Dom, item);
    assert item.Home(1) == 0;
    assert Marks(item, 0) && ItemOf(field, Dom, item);
    if FieldSelects(field, Dom, 0) {
      InRange(field, Dom, 0);
    }
  }
}
