/** Renewal cycles as the administrator writes them, and the loop that renews a past due date. */
module Renewals {
  import opened Wrappers
  import opened Text
  import opened Calendar

  // ---------- renewal cycles ----------

  datatype RenewalCycle = Days(count: nat) | Months(count: nat)

  const U32_MAX: nat := 0xFFFF_FFFF
  const MAX_RENEWALS: nat := 1200

  function WithoutSeparators(s: string): string {
    if s == "" then ""
    else if s[0] == ' ' || s[0] == '_' || s[0] == '-' then WithoutSeparators(s[1..])
    else [s[0]] + WithoutSeparators(s[1..])
  }

  function DigitLength(s: string): (n: nat)
    ensures n <= |s| && forall i :: 0 <= i < n ==> IsAsciiDigit(s[i])
  {
    if s == "" || !IsAsciiDigit(s[0]) then 0 else 1 + DigitLength(s[1..])
  }

  function DigitValue(c: char): nat
    requires IsAsciiDigit(c)
  {
    c as int - '0' as int
  }

  function ParseDigits(s: string): nat
    requires forall i :: 0 <= i < |s| ==> IsAsciiDigit(s[i])
  {
    if s == "" then 0 else ParseDigits(s[..|s| - 1]) * 10 + DigitValue(s[|s| - 1])
  }

  function NamedCycle(name: string): (r: Option<RenewalCycle>)
    ensures r.Some? ==> r.value.count > 0
  {
    if name in ["day", "daily", "d"] then Some(Days(1))
    else if name in ["week", "weekly", "w"] then Some(Days(7))
    else if name in ["month", "monthly", "m", "mo"] then Some(Months(1))
    else if name in ["quarter", "quarterly", "q", "season"] then Some(Months(3))
    else if name in ["halfyear", "semiannual", "semiannually"] then Some(Months(6))
    else if name in ["year", "yearly", "annual", "annually", "y"] then Some(Months(12))
    else None
  }

  function CountedCycle(number: nat, unit: string): (r: Option<RenewalCycle>)
    ensures r.Some? ==> r.value.count > 0
  {
    if number > U32_MAX || number == 0 then None
    else if unit in ["", "d", "day", "days"] then Some(Days(number))
    else if unit in ["w", "week", "weeks"] then Some(Days(number * 7))
    else if unit in ["m", "mo", "month", "months"] then Some(Months(number))
    else if unit in ["q", "quarter", "quarters"] then if number * 3 > U32_MAX then None else Some(Months(number * 3))
    else if unit in ["y", "year", "years"] then if number * 12 > U32_MAX then None else Some(Months(number * 12))
    else None
  }

  /** "monthly", "2 weeks", "90"...: a parsed cycle always moves forward. */
  function ParseRenewalCycle(cycle: string): (r: Option<RenewalCycle>)
    ensures r.Some? ==> r.value.count > 0
  {
    var normalized := WithoutSeparators(Lower(Trim(cycle)));
    var digits := DigitLength(normalized);
    if normalized == "" then None
    else if NamedCycle(normalized).Some? then NamedCycle(normalized)
    else if digits == 0 then None
    else CountedCycle(ParseDigits(normalized[..digits]), normalized[digits..])
  }

  lemma FirstCharacter(c: char, rest: string)
    ensures WithoutSeparators([c] + rest) == (if c in " _-" then "" else [c]) + WithoutSeparators(rest)
  {
    assert ([c] + rest)[1..] == rest;
  }

  /** Wherever it stands, a space, underscore or hyphen is dropped and any other character kept. */
  lemma {:induction false} SeparatorsFallAway(before: string, c: char, after: string)
    ensures WithoutSeparators(before + [c] + after) ==
            WithoutSeparators(before) + (if c in " _-" then "" else [c]) + WithoutSeparators(after)
  {
    if before == "" {
      assert before + [c] + after == [c] + after;
      FirstCharacter(c, after);
    } else {
      SeparatorsFallAway(before[1..], c, after);
      assert before + [c] + after == [before[0]] + (before[1..] + [c] + after);
      FirstCharacter(before[0], before[1..] + [c] + after);
      FirstCharacter(before[0], before[1..]);
      assert before == [before[0]] + before[1..];
      hide WithoutSeparators;
    }
  }

  lemma {:induction false} LettersKeep(s: string)
    requires forall i :: 0 <= i < |s| ==> IsAsciiLower(s[i]) || IsAsciiDigit(s[i])
    ensures WithoutSeparators(s) == s && Lower(s) == s
  {
    if s != "" {
      LettersKeep(s[1..]);
      assert s == [s[0]] + s[1..];
      assert forall i :: 0 <= i < |s| ==> Lower(s)[i] == s[i];
    }
  }

  lemma {:induction false} DigitsEnd(digits: string, unit: string)
    requires forall i :: 0 <= i < |digits| ==> IsAsciiDigit(digits[i])
    requires unit == "" || !IsAsciiDigit(unit[0])
    ensures DigitLength(digits + unit) == |digits|
  {
    if digits == "" {
      assert digits + unit == unit;
    } else {
      assert (digits + unit)[1..] == digits[1..] + unit;
      DigitsEnd(digits[1..], unit);
    }
  }

  lemma {:induction false} DecimalReads(n: nat)
    ensures forall i :: 0 <= i < |Decimal(n)| ==> IsAsciiDigit(Decimal(n)[i])
    ensures ParseDigits(Decimal(n)) == n
  {
    var s := Decimal(n);
    assert forall i :: 0 <= i < |s| ==> s[i] in s;
    if n >= 10 {
      DecimalReads(n / 10);
      assert s[..|s| - 1] == Decimal(n / 10);
    } else {
      assert s[..0] == "";
    }
  }

  lemma NamesStartWithLetters(name: string)
    requires name != "" && IsAsciiDigit(name[0])
    ensures NamedCycle(name) == None
  {
  }

  /** A number written before a unit is read back, for every number and every lower-case unit. */
  lemma CountedCycleComesBack(n: nat, unit: string)
    requires forall i :: 0 <= i < |unit| ==> IsAsciiLower(unit[i])
    ensures ParseRenewalCycle(Decimal(n) + unit) == CountedCycle(n, unit)
  {
    var digits, text := Decimal(n), Decimal(n) + unit;
    DecimalReads(n);
    assert forall i :: 0 <= i < |text| ==> text[i] == if i < |digits| then digits[i] else unit[i - |digits|];
    TrimFixed(text);
    LettersKeep(text);
    DigitsEnd(digits, unit);
    NamesStartWithLetters(text);
    assert text[..|digits|] == digits && text[|digits|..] == unit;
  }

  /** The names of cycles, and the units that may follow a number; a plain number counts days. */
  const NAMES: map<string, RenewalCycle> := map[
    "day" := Days(1), "daily" := Days(1), "d" := Days(1),
    "week" := Days(7), "weekly" := Days(7), "w" := Days(7),
    "month" := Months(1), "monthly" := Months(1), "m" := Months(1), "mo" := Months(1),
    "quarter" := Months(3), "quarterly" := Months(3), "q" := Months(3), "season" := Months(3),
    "halfyear" := Months(6), "semiannual" := Months(6), "semiannually" := Months(6),
    "year" := Months(12), "yearly" := Months(12), "annual" := Months(12), "annually" := Months(12), "y" := Months(12)]

  const UNITS: map<string, RenewalCycle> := map[
    "" := Days(1), "d" := Days(1), "day" := Days(1), "days" := Days(1),
    "w" := Days(7), "week" := Days(7), "weeks" := Days(7),
    "m" := Months(1), "mo" := Months(1), "month" := Months(1), "months" := Months(1),
    "q" := Months(3), "quarter" := Months(3), "quarters" := Months(3),
    "y" := Months(12), "year" := Months(12), "years" := Months(12)]

  function Times(n: nat, unit: RenewalCycle): RenewalCycle {
    match unit case Days(k) => Days(n * k) case Months(k) => Months(n * k)
  }

  predicate AllDigits(s: string) {
    forall i :: 0 <= i < |s| ==> IsAsciiDigit(s[i])
  }

  /** A number from 1 to the 32-bit limit and a known unit; months must stay within the limit too. */
  predicate IsCount(text: string, digits: string, unit: string, cycle: RenewalCycle) {
    && text == digits + unit && digits != "" && AllDigits(digits) && unit in UNITS
    && 0 < ParseDigits(digits) <= U32_MAX && cycle == Times(ParseDigits(digits), UNITS[unit])
    && (cycle.Months? ==> cycle.count <= U32_MAX)
  }

  ghost predicate CountsSomehow(text: string, cycle: RenewalCycle) {
    exists digits, unit :: IsCount(text, digits, unit, cycle)
  }

  lemma NamedCycleIs(name: string, cycle: RenewalCycle)
    ensures NamedCycle(name) == Some(cycle) <==> name in NAMES && NAMES[name] == cycle
  {
    NamedCycleHasName(name);
    NameHasCycle(name);
  }

  lemma NamedCycleHasName(name: string)
    ensures NamedCycle(name).Some? ==> name in NAMES
  {
  }

  lemma NameHasCycle(name: string)
    ensures name in NAMES ==> NamedCycle(name) == Some(NAMES[name])
  {
  }

  lemma CountedCycleIs(n: nat, unit: string, cycle: RenewalCycle)
    ensures CountedCycle(n, unit) == Some(cycle) <==>
            && unit in UNITS && 0 < n <= U32_MAX && cycle == Times(n, UNITS[unit]) && (cycle.Months? ==> cycle.count <= U32_MAX)
  {
  }

  lemma UnitsStartWithLetters(unit: string)
    requires unit in UNITS
    ensures unit == "" || !IsAsciiDigit(unit[0])
  {
  }

  /** The accepted texts, in full: spaces, underscores and hyphens dropped, a name of a cycle or a counted unit. */
  lemma AcceptedCyclesAre(text: string, cycle: RenewalCycle)
    ensures var normalized := WithoutSeparators(Lower(Trim(text)));
            ParseRenewalCycle(text) == Some(cycle) <==>
            (normalized in NAMES && NAMES[normalized] == cycle) || CountsSomehow(normalized, cycle)
  {
    hide NamedCycle, CountedCycle, WithoutSeparators, Lower, Trim, ParseDigits;
    var normalized := WithoutSeparators(Lower(Trim(text)));
    var n := DigitLength(normalized);
    var digits, unit := normalized[..n], normalized[n..];
    NamedCycleIs(normalized, cycle);
    NamesAreNotCounts(normalized, cycle);
    if n > 0 {
      CountedCycleIs(ParseDigits(digits), unit, cycle);
      assert normalized == digits + unit;
    }
    if CountsSomehow(normalized, cycle) {
      var d, u :| IsCount(normalized, d, u, cycle);
      UnitsStartWithLetters(u);
      DigitsEnd(d, u);
      assert digits == d && unit == u;
    }
    if n > 0 && CountedCycle(ParseDigits(digits), unit) == Some(cycle) {
      assert IsCount(normalized, digits, unit, cycle);
    }
  }

  lemma NamesAreNotCounts(text: string, cycle: RenewalCycle)
    ensures text in NAMES ==> NamedCycle(text) == Some(NAMES[text]) && !CountsSomehow(text, cycle) && text != ""
    ensures text !in NAMES ==> NamedCycle(text) == None
    ensures CountsSomehow(text, cycle) ==> text != ""
  {
    if text in NAMES {
      NamedCycleIs(text, NAMES[text]);
      LettersFirst(text);
    }
    if NamedCycle(text).Some? {
      NamedCycleIs(text, NamedCycle(text).value);
    }
  }

  lemma LettersFirst(name: string)
    requires name in NAMES
    ensures name != "" && !IsAsciiDigit(name[0])
  {
  }

  /** What a record's cycle text amounts to. */
  datatype Cycle = NoCycle | BadCycle | Every(cycle: RenewalCycle)

  function ReadCycle(text: string): (r: Cycle)
    ensures Forward(r)
  {
    match ParseRenewalCycle(text)
    case Some(cycle) => Every(cycle)
    case None => if Trim(text) == "" then NoCycle else BadCycle
  }

  predicate Forward(cycle: Cycle) {
    cycle.Every? ==> cycle.cycle.count > 0
  }

  function AddCycle(d: Date, cycle: RenewalCycle): (r: Option<Date>)
    requires ValidDate(d)
    ensures r.Some? ==> ValidDate(r.value)
  {
    match cycle
    case Days(n) => AddDays(d, n)
    case Months(n) => AddMonths(d, n)
  }

  lemma AddCycleMovesForward(d: Date, cycle: RenewalCycle)
    requires ValidDate(d) && cycle.count > 0
    ensures AddCycle(d, cycle).Some? ==> Before(d, AddCycle(d, cycle).value)
  {
    match cycle {
      case Days(n) =>
        AddDaysNumber(d, n);
        if AddDays(d, n).Some? {
          DayNumberOrders(d, AddDays(d, n).value);
        }
      case Months(n) =>
        if AddMonths(d, n).Some? {
          LaterMonthIsLater(d, AddMonths(d, n).value);
        }
    }
  }

  // ---------- automatic renewal ----------

  datatype Renewal = Settled(date: Date, count: nat) | Overflowed | TooMany

  /** The renewal loop, from a date reached after `count` of at most `limit` renewals. */
  function RenewFrom(date: Date, cycle: RenewalCycle, today: Date, count: nat, limit: nat): (r: Renewal)
    requires ValidDate(date)
    ensures r.Settled? ==> ValidDate(r.date)
    decreases DayNumber(LAST_DATE) - DayNumber(date)
  {
    if !Before(date, today) then Settled(date, count)
    else
      match AddCycle(date, cycle)
      case None => Overflowed
      case Some(next) =>
        if !Before(date, next) then Overflowed
        else if count + 1 > limit then TooMany
        else
          DayNumberOrders(date, next);
          DayNumberOrders(next, LAST_DATE);
          RenewFrom(next, cycle, today, count + 1, limit)
  }

  /** The k-th due date: the start, moved on by the cycle k times. */
  function DueDate(start: Date, cycle: RenewalCycle, k: nat): (r: Option<Date>)
    requires ValidDate(start)
    ensures r.Some? ==> ValidDate(r.value)
  {
    if k == 0 then Some(start)
    else
      match DueDate(start, cycle, k - 1)
      case None => None
      case Some(d) => AddCycle(d, cycle)
  }

  /** The k-th due date exists and is already past. */
  predicate Past(start: Date, cycle: RenewalCycle, today: Date, k: nat)
    requires ValidDate(start)
  {
    DueDate(start, cycle, k).Some? && Before(DueDate(start, cycle, k).value, today)
  }

  /** Due dates rise, so a past one follows only past ones. */
  lemma {:induction false} PastIsDownwardClosed(start: Date, cycle: RenewalCycle, today: Date, k: nat, j: nat)
    requires ValidDate(start) && cycle.count > 0 && j <= k && Past(start, cycle, today, k)
    ensures Past(start, cycle, today, j)
    decreases k
  {
    if j < k {
      AddCycleMovesForward(DueDate(start, cycle, k - 1).value, cycle);
      PastIsDownwardClosed(start, cycle, today, k - 1, j);
    }
  }

  /** What the loop's outcome says about the due dates from index `count` on. */
  predicate Describes(r: Renewal, start: Date, cycle: RenewalCycle, today: Date, limit: nat)
    requires ValidDate(start)
  {
    match r
    case Settled(date, count) =>
      && count <= limit
      && DueDate(start, cycle, count) == Some(date) && !Before(date, today)
      && (count > 0 ==> Past(start, cycle, today, count - 1))
    case TooMany => Past(start, cycle, today, limit) && DueDate(start, cycle, limit + 1).Some?
    case Overflowed => exists k :: 0 <= k <= limit && RunsOut(start, cycle, today, k)
  }

  lemma {:induction false} RenewFromDescribes(start: Date, cycle: RenewalCycle, today: Date, count: nat, limit: nat)
    requires ValidDate(start) && cycle.count > 0 && count <= limit && DueDate(start, cycle, count).Some?
    requires count > 0 ==> Past(start, cycle, today, count - 1)
    ensures Describes(RenewFrom(DueDate(start, cycle, count).value, cycle, today, count, limit), start, cycle, today, limit)
    decreases limit + 1 - count
  {
    var date := DueDate(start, cycle, count).value;
    if Before(date, today) {
      AddCycleMovesForward(date, cycle);
      assert DueDate(start, cycle, count + 1) == AddCycle(date, cycle);
      assert Past(start, cycle, today, count);
      assert AddCycle(date, cycle).None? ==> RunsOut(start, cycle, today, count);
      if AddCycle(date, cycle).Some? && count < limit {
        RenewFromDescribes(start, cycle, today, count + 1, limit);
      }
    }
  }

  /**
  Renewal finds the least due date that is not past: it settles on the first of start, start + cycle, ...
  not before today, if that is reached within the limit, and every earlier one is past.  The server's limit
  is MAX_RENEWALS.
  */
  lemma RenewalIsLeastDueDate(start: Date, cycle: RenewalCycle, today: Date, limit: nat, j: nat)
    requires ValidDate(start) && cycle.count > 0
    ensures var r := RenewFrom(start, cycle, today, 0, limit);
            r.Settled? ==>
              && r.count <= limit
              && DueDate(start, cycle, r.count) == Some(r.date) && !Before(r.date, today)
              && (j < r.count ==> Past(start, cycle, today, j))
  {
    RenewFromDescribes(start, cycle, today, 0, limit);
    var r := RenewFrom(start, cycle, today, 0, limit);
    if r.Settled? && j < r.count {
      PastIsDownwardClosed(start, cycle, today, r.count - 1, j);
    }
  }

  /** The calendar runs out after a due date that is still past. */
  predicate RunsOut(start: Date, cycle: RenewalCycle, today: Date, k: nat)
    requires ValidDate(start)
  {
    Past(start, cycle, today, k) && DueDate(start, cycle, k + 1).None?
  }

  lemma SettledExcludesOthers(r: Renewal, start: Date, cycle: RenewalCycle, today: Date, limit: nat)
    requires ValidDate(start) && cycle.count > 0 && r.Settled? && Describes(r, start, cycle, today, limit)
    ensures !Past(start, cycle, today, limit)
    ensures forall k :: 0 <= k <= limit ==> !RunsOut(start, cycle, today, k)
  {
    hide AddCycle, DueDate, RunsOut;
    if Past(start, cycle, today, limit) {
      PastIsDownwardClosed(start, cycle, today, limit, r.count);
    }
    forall k | 0 <= k <= limit
      ensures !RunsOut(start, cycle, today, k)
    {
      SettledNeverRunsOut(start, cycle, today, r.count, k);
    }
  }

  lemma RunningOutStops(start: Date, cycle: RenewalCycle, today: Date, limit: nat, k: nat)
    requires ValidDate(start) && cycle.count > 0 && k <= limit && RunsOut(start, cycle, today, k)
    ensures DueDate(start, cycle, limit + 1).None?
  {
    hide AddCycle, DueDate;
    DueDatesStop(start, cycle, k + 1, limit + 1);
  }

  /** No two outcomes describe the same renewal. */
  lemma OutcomesAreExclusive(r: Renewal, start: Date, cycle: RenewalCycle, today: Date, limit: nat)
    requires ValidDate(start) && cycle.count > 0 && Describes(r, start, cycle, today, limit)
    ensures r.TooMany? <==> Past(start, cycle, today, limit) && DueDate(start, cycle, limit + 1).Some?
    ensures r.Overflowed? <==> exists k :: 0 <= k <= limit && RunsOut(start, cycle, today, k)
  {
    hide AddCycle, DueDate;
    if r.Settled? {
      SettledExcludesOthers(r, start, cycle, today, limit);
    } else if k :| 0 <= k <= limit && RunsOut(start, cycle, today, k) {
      RunningOutStops(start, cycle, today, limit, k);
    }
  }

  /**
  The other outcomes, exactly: too many cycles when the last allowed renewal is still past and one more exists;
  an invalid cycle when the calendar runs out at a date that is still past.
  */
  lemma RenewalFailsExactlyWhen(start: Date, cycle: RenewalCycle, today: Date, limit: nat)
    requires ValidDate(start) && cycle.count > 0
    ensures RenewFrom(start, cycle, today, 0, limit).TooMany? <==>
            Past(start, cycle, today, limit) && DueDate(start, cycle, limit + 1).Some?
    ensures RenewFrom(start, cycle, today, 0, limit).Overflowed? <==>
            exists k :: 0 <= k <= limit && RunsOut(start, cycle, today, k)
  {
    hide RenewFrom, Describes, AddCycle, RunsOut, Past;
    RenewFromDescribes(start, cycle, today, 0, limit);
    OutcomesAreExclusive(RenewFrom(start, cycle, today, 0, limit), start, cycle, today, limit);
  }

  lemma SettledNeverRunsOut(start: Date, cycle: RenewalCycle, today: Date, count: nat, k: nat)
    requires ValidDate(start) && cycle.count > 0
    requires DueDate(start, cycle, count).Some? && !Before(DueDate(start, cycle, count).value, today)
    ensures !RunsOut(start, cycle, today, k)
  {
    if Past(start, cycle, today, k) {
      if count <= k {
        PastIsDownwardClosed(start, cycle, today, k, count);
      } else if DueDate(start, cycle, k + 1).None? {
        DueDatesStop(start, cycle, k + 1, count);
      }
    }
  }

  lemma {:induction false} DueDatesStop(start: Date, cycle: RenewalCycle, k: nat, n: nat)
    requires ValidDate(start) && k <= n && DueDate(start, cycle, k).None?
    ensures DueDate(start, cycle, n).None?
    decreases n
  {
    if k < n {
      DueDatesStop(start, cycle, k, n - 1);
    }
  }

  lemma {:induction false} DayCycleDates(start: Date, n: nat, k: nat)
    requires ValidDate(start)
    ensures var d := DueDate(start, Days(n), k); d.Some? ==> DayNumber(d.value) == DayNumber(start) + k * n
    decreases k
  {
    if k > 0 {
      DayCycleDates(start, n, k - 1);
      assert (k - 1) * n + n == k * n;
      if DueDate(start, Days(n), k - 1).Some? {
        AddDaysNumber(DueDate(start, Days(n), k - 1).value, n);
      }
    }
  }

  /** a / b rounded up. */
  function CeilingDiv(a: int, b: nat): int
    requires b > 0
  {
    (a + b - 1) / b
  }

  /** Day cycles in closed form: the days overdue, divided by the cycle and rounded up. */
  lemma DayCyclesClosedForm(start: Date, n: nat, today: Date, limit: nat)
    requires ValidDate(start) && ValidDate(today) && n > 0
    ensures var r := RenewFrom(start, Days(n), today, 0, limit);
            r.Settled? ==>
              && r.count == (if Before(start, today) then CeilingDiv(DayNumber(today) - DayNumber(start), n) else 0)
              && DayNumber(r.date) == DayNumber(start) + r.count * n
  {
    hide RenewFrom, DayNumber, AddCycle;
    RenewFromDescribes(start, Days(n), today, 0, limit);
    var r := RenewFrom(start, Days(n), today, 0, limit);
    if r.Settled? && r.count > 0 {
      var last := DueDate(start, Days(n), r.count - 1).value;
      PastIsDownwardClosed(start, Days(n), today, r.count - 1, 0);
      DayCycleDates(start, n, r.count);
      DayCycleDates(start, n, r.count - 1);
      DayNumberOrders(last, today);
      DayNumberOrders(r.date, today);
      CeilingDivIs(DayNumber(today) - DayNumber(start), n, r.count);
    }
  }

  lemma CeilingDivIs(a: int, b: nat, q: nat)
    requires b > 0 && (q - 1) * b < a <= q * b
    ensures CeilingDiv(a, b) == q
  {
    var x := a + b - 1;
    assert (q - 1) * b == q * b - b;
    MulBeyond(q, x / b, b);
    MulBeyond(x / b, q, b);
    assert x == (x / b) * b + x % b;
  }

  lemma MulBeyond(a: int, c: int, b: nat)
    ensures a < c ==> a * b + b <= c * b
  {
    if a < c {
      var d := c - a - 1;
      assert c == a + 1 + d;
      assert (a + 1 + d) * b == a * b + b + d * b;
      assert d * b >= 0;
    }
  }

  /** The month reached after `j` renewals of `m` months. */
  function MonthAt(start: Date, m: nat, j: nat): int {
    MonthIndex(start) + j * m
  }

  /** The day is the start's, cut down by the shortest month visited. */
  predicate CutToShortest(day: int, start: Date, m: nat, k: nat) {
    && day <= start.day
    && (forall j :: 0 <= j <= k ==> day <= MonthLengthAt(MonthAt(start, m, j)))
    && (day == start.day || exists j :: 0 <= j <= k && day == MonthLengthAt(MonthAt(start, m, j)))
  }

  /** Month cycles land k * m months on, on the start's day cut to the shortest month passed on the way. */
  lemma {:induction false} MonthCyclesDrift(start: Date, m: nat, k: nat)
    requires ValidDate(start)
    ensures var d := DueDate(start, Months(m), k);
            d.Some? ==> MonthIndex(d.value) == MonthAt(start, m, k) && CutToShortest(d.value.day, start, m, k)
    decreases k
  {
    if k == 0 {
      assert MonthIndex(start) / 12 == start.year && MonthIndex(start) % 12 + 1 == start.month;
    } else {
      MonthCyclesDrift(start, m, k - 1);
      var before := DueDate(start, Months(m), k - 1);
      if before.Some? && AddMonths(before.value, m).Some? {
        CutOnce(start, m, k, before.value, AddMonths(before.value, m).value);
      }
    }
  }

  lemma CutOnce(start: Date, m: nat, k: nat, before: Date, after: Date)
    requires k > 0 && CutToShortest(before.day, start, m, k - 1) && MonthIndex(before) == MonthAt(start, m, k - 1)
    requires ValidDate(before) && AddMonths(before, m) == Some(after)
    ensures MonthIndex(after) == MonthAt(start, m, k) && CutToShortest(after.day, start, m, k)
  {
    assert (k - 1) * m + m == k * m;
    assert after.day <= before.day && after.day <= MonthLengthAt(MonthAt(start, m, k));
    if after.day != start.day && after.day == before.day {
      var j :| 0 <= j <= k - 1 && before.day == MonthLengthAt(MonthAt(start, m, j));
      assert after.day == MonthLengthAt(MonthAt(start, m, j));
    }
  }
}
