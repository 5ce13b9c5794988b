/** The client's billing window: the traffic of the current month, or of the current cycle from a rotate day on. */
module Vnstat {
  import opened Wrappers
  import opened Calendar

  datatype Row = Row(date: Date, rx: nat, tx: nat)

  /** One network interface; version 1 reports name it by id and list `months`, version 2 `month` and `day`. */
  datatype Iface = Iface(id: string, name: string, total: Bytes, months: seq<Row>, month: seq<Row>, day: seq<Row>)

  datatype Report = Report(version: string, interfaces: seq<Iface>)

  datatype Bytes = Bytes(rx: nat, tx: nat)
  {
    function Plus(other: Bytes): Bytes { Bytes(rx + other.rx, tx + other.tx) }

    function Times(n: nat): Bytes { Bytes(rx * n, tx * n) }

    predicate Within(other: Bytes) { rx <= other.rx && tx <= other.tx }
  }

  const ZERO := Bytes(0, 0)

  datatype Args = Args(rotate: nat, only: seq<string>, exclude: seq<string>)

  predicate Contains(name: string, part: string) {
    exists i | 0 <= i <= |name| :: part <= name[i..]
  }

  predicate SkipIface(args: Args, name: string) {
    if args.only != [] then name !in args.only else exists part :: part in args.exclude && Contains(name, part)
  }

  /** Where the client stops. */
  datatype Panic = UnknownVersion | DaysUnsupported | InvalidRotate

  datatype Traffic = Traffic(total: Bytes, billed: Bytes)

  // ---------- what is billed ----------

  predicate SameMonth(a: Date, b: Date) {
    a.year == b.year && a.month == b.month
  }

  function PreviousMonth(today: Date): Date {
    if today.month == 1 then Date(today.year - 1, 12, 1) else Date(today.year, today.month - 1, 1)
  }

  /** The rows the rotating window takes in, as the two branches of the client do. */
  predicate InWindow(d: Date, today: Date, rotate: nat) {
    if today.day >= rotate then SameMonth(d, today) && d.day >= rotate
    else (SameMonth(d, PreviousMonth(today)) && d.day >= rotate) || (SameMonth(d, today) && d.day < rotate)
  }

  predicate Billed(d: Date, today: Date, rotating: bool, rotate: nat) {
    if rotating then InWindow(d, today, rotate) else SameMonth(d, today)
  }

  function BilledSum(rows: seq<Row>, today: Date, rotating: bool, rotate: nat): Bytes {
    if rows == [] then ZERO
    else
      var last := rows[|rows| - 1];
      var before := BilledSum(rows[..|rows| - 1], today, rotating, rotate);
      if Billed(last.date, today, rotating, rotate) then before.Plus(Bytes(last.rx, last.tx)) else before
  }

  function NameOf(iface: Iface, v1: bool): string {
    if v1 then iface.id else iface.name
  }

  function RowsOf(iface: Iface, v1: bool, rotating: bool): seq<Row> {
    if rotating then iface.day else if v1 then iface.months else iface.month
  }

  function Counted(ifaces: seq<Iface>, v1: bool, args: Args): seq<Iface> {
    if ifaces == [] then []
    else
      var last := ifaces[|ifaces| - 1];
      Counted(ifaces[..|ifaces| - 1], v1, args) + if SkipIface(args, NameOf(last, v1)) then [] else [last]
  }

  function TotalOf(ifaces: seq<Iface>): Bytes {
    if ifaces == [] then ZERO else TotalOf(ifaces[..|ifaces| - 1]).Plus(ifaces[|ifaces| - 1].total)
  }

  function BilledOf(ifaces: seq<Iface>, v1: bool, today: Date, rotating: bool, rotate: nat): Bytes {
    if ifaces == [] then ZERO
    else
      BilledOf(ifaces[..|ifaces| - 1], v1, today, rotating, rotate)
        .Plus(BilledSum(RowsOf(ifaces[|ifaces| - 1], v1, rotating), today, rotating, rotate))
  }

  /** Daily rows of a version 1 report stop the client, but only once an interface is counted. */
  function Expected(j: Report, today: Date, rotating: bool, args: Args): Result<Traffic, Panic> {
    var v1 := j.version == "1";
    var counted := Counted(j.interfaces, v1, args);
    if !v1 && j.version != "2" then Err(UnknownVersion)
    else if v1 && rotating && counted != [] then Err(DaysUnsupported)
    else
      var factor := if v1 then 1024 else 1;
      Ok(Traffic(TotalOf(counted).Times(factor), BilledOf(counted, v1, today, rotating, args.rotate).Times(factor)))
  }

  method CalcTraffic(j: Report, today: Date, rotating: bool, args: Args) returns (r: Result<Traffic, Panic>)
    ensures r == Expected(j, today, rotating, args)
  {
    hide SkipIface, BilledSum, RowsOf, Counted, TotalOf, BilledOf;
    NothingCounted(j.version == "1", today, rotating, args);
    var v1 := false;
    if j.version == "1" {
      v1 := true;
    } else if j.version != "2" {
      return Err(UnknownVersion);
    }
    var total, billed := ZERO, ZERO;
    for i := 0 to |j.interfaces|
      invariant total == TotalOf(Counted(j.interfaces[..i], v1, args))
      invariant billed == BilledOf(Counted(j.interfaces[..i], v1, args), v1, today, rotating, args.rotate)
      invariant v1 && rotating ==> Counted(j.interfaces[..i], v1, args) == []
    {
      var iface := j.interfaces[i];
      ghost var before := Counted(j.interfaces[..i], v1, args);
      CountedStep(j.interfaces, i, v1, args);
      if SkipIface(args, NameOf(iface, v1)) {
        assert before + [] == before;
        continue;
      }
      SumsStep(before, iface, v1, today, rotating, args.rotate);
      total := total.Plus(iface.total);
      if rotating && v1 {
        CountedStays(j.interfaces, i + 1, v1, args);
        return Err(DaysUnsupported);
      }
      var rows := RowsOf(iface, v1, rotating);
      var month := SumBilled(rows, today, rotating, args.rotate);
      billed := billed.Plus(month);
    }
    assert j.interfaces[..|j.interfaces|] == j.interfaces;
    var factor := if v1 then 1024 else 1;
    r := Ok(Traffic(total.Times(factor), billed.Times(factor)));
  }

  lemma NothingCounted(v1: bool, today: Date, rotating: bool, args: Args)
    ensures Counted([], v1, args) == [] && TotalOf([]) == ZERO && BilledOf([], v1, today, rotating, args.rotate) == ZERO
  {
  }

  lemma CountedStep(ifaces: seq<Iface>, i: nat, v1: bool, args: Args)
    requires i < |ifaces|
    ensures Counted(ifaces[..i + 1], v1, args) ==
            Counted(ifaces[..i], v1, args) + if SkipIface(args, NameOf(ifaces[i], v1)) then [] else [ifaces[i]]
  {
    hide SkipIface;
    assert ifaces[..i + 1][..i] == ifaces[..i];
  }

  lemma SumsStep(counted: seq<Iface>, iface: Iface, v1: bool, today: Date, rotating: bool, rotate: nat)
    ensures TotalOf(counted + [iface]) == TotalOf(counted).Plus(iface.total)
    ensures BilledOf(counted + [iface], v1, today, rotating, rotate) ==
            BilledOf(counted, v1, today, rotating, rotate).Plus(BilledSum(RowsOf(iface, v1, rotating), today, rotating, rotate))
  {
    hide BilledSum, RowsOf;
    assert (counted + [iface])[..|counted|] == counted;
  }

  method SumBilled(rows: seq<Row>, today: Date, rotating: bool, rotate: nat) returns (sum: Bytes)
    ensures sum == BilledSum(rows, today, rotating, rotate)
  {
    var rx: nat, tx: nat := 0, 0;
    for k := 0 to |rows|
      invariant Bytes(rx, tx) == BilledSum(rows[..k], today, rotating, rotate)
    {
      var d := rows[k];
      assert rows[..k + 1][..k] == rows[..k];
      if !rotating {
        if today.year == d.date.year && today.month == d.date.month {
          rx, tx := rx + d.rx, tx + d.tx;
        }
      } else if today.day >= rotate {
        if d.date.year == today.year && d.date.month == today.month && d.date.day >= rotate {
          rx, tx := rx + d.rx, tx + d.tx;
        }
      } else {
        var year, month := today.year, today.month - 1;
        if month == 0 {
          month := 12;
          year := year - 1;
        }
        if d.date.year == year && d.date.month == month && d.date.day >= rotate {
          rx, tx := rx + d.rx, tx + d.tx;
        }
        if d.date.year == today.year && d.date.month == today.month && d.date.day < rotate {
          rx, tx := rx + d.rx, tx + d.tx;
        }
      }
    }
    assert rows[..|rows|] == rows;
    sum := Bytes(rx, tx);
  }

  lemma {:induction false} CountedStays(ifaces: seq<Iface>, i: nat, v1: bool, args: Args)
    requires i <= |ifaces| && Counted(ifaces[..i], v1, args) != []
    ensures Counted(ifaces, v1, args) != []
    decreases |ifaces| - i
  {
    if i == |ifaces| {
      assert ifaces[..i] == ifaces;
    } else {
      assert ifaces[..i + 1][..i] == ifaces[..i];
      CountedStays(ifaces, i + 1, v1, args);
    }
  }

  /** The rotate day decides how the report is asked for and read. */
  method GetTraffic(monthly: Report, daily: Report, today: Date, args: Args) returns (r: Result<Traffic, Panic>)
    ensures args.rotate == 0 || args.rotate > 28 ==> r == Err(InvalidRotate)
    ensures args.rotate == 1 ==> r == Expected(monthly, today, false, args)
    ensures 2 <= args.rotate <= 28 ==> r == Expected(daily, today, true, args)
  {
    if args.rotate == 1 {
      r := CalcTraffic(monthly, today, false, args);
    } else if args.rotate > 1 && args.rotate <= 28 {
      r := CalcTraffic(daily, today, true, args);
    } else {
      r := Err(InvalidRotate);
    }
  }

  // ---------- cycles ----------

  /** Cycles are counted by the month in which they start. */
  function CycleOf(d: Date, rotate: nat): int {
    MonthIndex(d) - if d.day < rotate then 1 else 0
  }

  function CycleStart(cycle: int, rotate: nat): Date {
    Date(cycle / 12, cycle % 12 + 1, rotate)
  }

  /** The window takes in exactly the days of today's cycle, but for those of a later month. */
  lemma WindowIsTheCycle(d: Date, today: Date, rotate: nat)
    requires ValidDate(d) && ValidDate(today) && 2 <= rotate <= 28
    ensures InWindow(d, today, rotate) <==> CycleOf(d, rotate) == CycleOf(today, rotate) && MonthIndex(d) <= MonthIndex(today)
    ensures !Before(today, d) ==> (InWindow(d, today, rotate) <==> CycleOf(d, rotate) == CycleOf(today, rotate))
  {
  }

  /** A cycle is the half-open interval of days from its start to the start of the next. */
  lemma CycleIsHalfOpen(d: Date, cycle: int, rotate: nat)
    requires ValidDate(d) && 1 <= rotate <= 28
    requires ValidDate(CycleStart(cycle, rotate)) && ValidDate(CycleStart(cycle + 1, rotate))
    ensures CycleOf(d, rotate) == cycle <==>
            DayNumber(CycleStart(cycle, rotate)) <= DayNumber(d) < DayNumber(CycleStart(cycle + 1, rotate))
  {
    hide DayNumber;
    DayNumberOrders(d, CycleStart(cycle, rotate));
    DayNumberOrders(d, CycleStart(cycle + 1, rotate));
    StartOrders(d, cycle, rotate);
    StartOrders(d, cycle + 1, rotate);
  }

  lemma StartOrders(d: Date, cycle: int, rotate: nat)
    requires ValidDate(d) && 1 <= rotate <= 28
    ensures Before(d, CycleStart(cycle, rotate)) <==> CycleOf(d, rotate) < cycle
  {
    var start := CycleStart(cycle, rotate);
    assert MonthIndex(start) == cycle && 1 <= start.month <= 12;
    if MonthIndex(d) < cycle {
      LaterMonthIsLater(d, start);
    } else if MonthIndex(d) > cycle {
      LaterMonthIsLater(start, d);
    } else {
      assert d.year == start.year && d.month == start.month;
    }
  }

  /** A cycle has 28 to 31 days. */
  lemma CycleLength(cycle: int, rotate: nat)
    ensures DayNumber(CycleStart(cycle + 1, rotate)) - DayNumber(CycleStart(cycle, rotate)) == MonthLengthAt(cycle)
    ensures 28 <= MonthLengthAt(cycle) <= 31
  {
    var y, m := cycle / 12, cycle % 12 + 1;
    if m == 12 {
      assert (cycle + 1) / 12 == y + 1 && (cycle + 1) % 12 == 0;
      YearStep(y);
      WholeYear(y);
    } else {
      assert (cycle + 1) / 12 == y && (cycle + 1) % 12 == m;
    }
  }

  /** The 32 latest days, which the client asks for, reach back to the start of today's cycle. */
  lemma AskedDaysCoverTheCycle(today: Date, rotate: nat)
    requires ValidDate(today) && 1 <= rotate <= 28
    requires var cycle := CycleOf(today, rotate);
             ValidDate(CycleStart(cycle, rotate)) && ValidDate(CycleStart(cycle + 1, rotate))
    ensures 0 <= DayNumber(today) - DayNumber(CycleStart(CycleOf(today, rotate), rotate)) < 31
  {
    hide DayNumber;
    CycleIsHalfOpen(today, CycleOf(today, rotate), rotate);
    CycleLength(CycleOf(today, rotate), rotate);
  }

  // ---------- each day counted once ----------

  function CycleSum(rows: seq<Row>, rotate: nat, cycle: int): Bytes {
    if rows == [] then ZERO
    else
      var last := rows[|rows| - 1];
      var before := CycleSum(rows[..|rows| - 1], rotate, cycle);
      if CycleOf(last.date, rotate) == cycle then before.Plus(Bytes(last.rx, last.tx)) else before
  }

  /** What is billed today is the sum of today's cycle, over rows that are not from the future. */
  lemma {:induction false} BilledIsCycleSum(rows: seq<Row>, today: Date, rotate: nat)
    requires ValidDate(today) && 2 <= rotate <= 28
    requires UpToToday(rows, today)
    ensures BilledSum(rows, today, true, rotate) == CycleSum(rows, rotate, CycleOf(today, rotate))
  {
    if rows != [] {
      BilledIsCycleSum(rows[..|rows| - 1], today, rotate);
      WindowIsTheCycle(rows[|rows| - 1].date, today, rotate);
    }
  }

  function CycleSumOf(ifaces: seq<Iface>, rotate: nat, cycle: int): Bytes {
    if ifaces == [] then ZERO
    else CycleSumOf(ifaces[..|ifaces| - 1], rotate, cycle).Plus(CycleSum(ifaces[|ifaces| - 1].day, rotate, cycle))
  }

  /** No row is from the future. */
  predicate UpToToday(rows: seq<Row>, today: Date) {
    forall k :: 0 <= k < |rows| ==> ValidDate(rows[k].date) && !Before(today, rows[k].date)
  }

  lemma {:induction false} BilledIsCycleSumOf(ifaces: seq<Iface>, today: Date, rotate: nat)
    requires ValidDate(today) && 2 <= rotate <= 28
    requires forall i :: 0 <= i < |ifaces| ==> UpToToday(ifaces[i].day, today)
    ensures BilledOf(ifaces, false, today, true, rotate) == CycleSumOf(ifaces, rotate, CycleOf(today, rotate))
  {
    if ifaces != [] {
      BilledIsCycleSumOf(ifaces[..|ifaces| - 1], today, rotate);
      BilledIsCycleSum(ifaces[|ifaces| - 1].day, today, rotate);
    }
  }

  /** A version 2 report is billed the days of today's cycle, over the interfaces that are counted. */
  lemma RotatingBillIsTheCycle(j: Report, today: Date, args: Args)
    requires j.version == "2" && ValidDate(today) && 2 <= args.rotate <= 28
    requires forall i :: 0 <= i < |j.interfaces| ==> UpToToday(j.interfaces[i].day, today)
    ensures var counted := Counted(j.interfaces, false, args);
            Expected(j, today, true, args) ==
            Ok(Traffic(TotalOf(counted), CycleSumOf(counted, args.rotate, CycleOf(today, args.rotate))))
  {
    var counted := Counted(j.interfaces, false, args);
    CountedAreInterfaces(j.interfaces, false, args);
    forall i | 0 <= i < |counted|
      ensures UpToToday(counted[i].day, today)
    {
      assert counted[i] in j.interfaces;
    }
    BilledIsCycleSumOf(counted, today, args.rotate);
  }

  function SumOfRows(rows: seq<Row>): Bytes {
    if rows == [] then ZERO else SumOfRows(rows[..|rows| - 1]).Plus(Bytes(rows[|rows| - 1].rx, rows[|rows| - 1].tx))
  }

  /** The sums of `n` consecutive cycles together. */
  function SumOfCycles(rows: seq<Row>, rotate: nat, first: int, n: nat): Bytes
    decreases n
  {
    if n == 0 then ZERO else SumOfCycles(rows, rotate, first, n - 1).Plus(CycleSum(rows, rotate, first + n - 1))
  }

  lemma {:induction false} LastRowCountsOnce(rows: seq<Row>, rotate: nat, first: int, n: nat)
    requires rows != []
    ensures var last := rows[|rows| - 1];
            var before := SumOfCycles(rows[..|rows| - 1], rotate, first, n);
            SumOfCycles(rows, rotate, first, n) ==
            if first <= CycleOf(last.date, rotate) < first + n then before.Plus(Bytes(last.rx, last.tx)) else before
    decreases n
  {
    if n > 0 {
      LastRowCountsOnce(rows, rotate, first, n - 1);
    }
  }

  lemma {:induction false} NoRowsNoCycles(rotate: nat, first: int, n: nat)
    ensures SumOfCycles([], rotate, first, n) == ZERO
    decreases n
  {
    if n > 0 {
      NoRowsNoCycles(rotate, first, n - 1);
    }
  }

  /** Every row falls into exactly one cycle: the cycles add up to all the rows. */
  lemma {:induction false} CyclesAddUp(rows: seq<Row>, rotate: nat, first: int, n: nat)
    requires forall k :: 0 <= k < |rows| ==> first <= CycleOf(rows[k].date, rotate) < first + n
    ensures SumOfCycles(rows, rotate, first, n) == SumOfRows(rows)
    decreases |rows|
  {
    if rows == [] {
      NoRowsNoCycles(rotate, first, n);
    } else {
      CyclesAddUp(rows[..|rows| - 1], rotate, first, n);
      LastRowCountsOnce(rows, rotate, first, n);
    }
  }

  // ---------- the earlier traffic ----------

  lemma {:induction false} BilledWithinRows(rows: seq<Row>, today: Date, rotating: bool, rotate: nat)
    ensures BilledSum(rows, today, rotating, rotate).Within(SumOfRows(rows))
  {
    if rows != [] {
      BilledWithinRows(rows[..|rows| - 1], today, rotating, rotate);
    }
  }

  lemma {:induction false} BilledWithinTotal(ifaces: seq<Iface>, v1: bool, today: Date, rotating: bool, rotate: nat)
    requires forall k :: 0 <= k < |ifaces| ==> SumOfRows(RowsOf(ifaces[k], v1, rotating)).Within(ifaces[k].total)
    ensures BilledOf(ifaces, v1, today, rotating, rotate).Within(TotalOf(ifaces))
  {
    if ifaces != [] {
      BilledWithinTotal(ifaces[..|ifaces| - 1], v1, today, rotating, rotate);
      BilledWithinRows(RowsOf(ifaces[|ifaces| - 1], v1, rotating), today, rotating, rotate);
    }
  }

  lemma {:induction false} CountedAreInterfaces(ifaces: seq<Iface>, v1: bool, args: Args)
    ensures forall iface :: iface in Counted(ifaces, v1, args) ==> iface in ifaces
  {
    if ifaces != [] {
      CountedAreInterfaces(ifaces[..|ifaces| - 1], v1, args);
    }
  }

  /** If the rows of each interface add up to at most its total, the traffic before the window is never negative. */
  lemma EarlierTrafficIsNotNegative(j: Report, today: Date, rotating: bool, args: Args)
    requires Expected(j, today, rotating, args).Ok?
    requires forall k :: 0 <= k < |j.interfaces| ==>
               SumOfRows(RowsOf(j.interfaces[k], j.version == "1", rotating)).Within(j.interfaces[k].total)
    ensures Expected(j, today, rotating, args).value.billed.Within(Expected(j, today, rotating, args).value.total)
  {
    var v1 := j.version == "1";
    var counted := Counted(j.interfaces, v1, args);
    CountedAreInterfaces(j.interfaces, v1, args);
    forall k | 0 <= k < |counted|
      ensures SumOfRows(RowsOf(counted[k], v1, rotating)).Within(counted[k].total)
    {
      assert counted[k] in j.interfaces;
    }
    BilledWithinTotal(counted, v1, today, rotating, args.rotate);
  }

  // ---------- the figures as plain sums ----------

  function Sum(n: nat, f: nat -> nat): nat {
    if n == 0 then 0 else Sum(n - 1, f) + f(n - 1)
  }

  lemma {:induction false} SumSame(n: nat, f: nat -> nat, g: nat -> nat)
    requires forall i: nat :: i < n ==> f(i) == g(i)
    ensures Sum(n, f) == Sum(n, g)
  {
    if n > 0 {
      SumSame(n - 1, f, g);
    }
  }

  ghost predicate OccursIn(part: string, name: string) {
    exists before, behind :: name == before + part + behind
  }

  /** An interface counts if it is one of those asked for, or, if none is asked for, if its name holds no excluded part. */
  ghost predicate Chosen(args: Args, name: string) {
    && (args.only != [] ==> name in args.only)
    && (args.only == [] ==> forall part :: part in args.exclude ==> !OccursIn(part, name))
  }

  lemma ContainsIsOccursIn(name: string, part: string)
    ensures Contains(name, part) <==> OccursIn(part, name)
  {
    if Contains(name, part) {
      var i :| 0 <= i <= |name| && part <= name[i..];
      assert name == name[..i] + part + name[i + |part|..];
    }
    if OccursIn(part, name) {
      var before, behind :| name == before + part + behind;
      assert part <= name[|before|..];
    }
  }

  lemma ChosenIsNotSkipped(args: Args, name: string)
    ensures SkipIface(args, name) <==> !Chosen(args, name)
  {
    forall part | part in args.exclude
      ensures Contains(name, part) <==> OccursIn(part, name)
    {
      ContainsIsOccursIn(name, part);
    }
  }

  /** The row is billed: in today's month, or, from rotate day 2 on, in today's cycle and not in a later month. */
  predicate Bills(d: Date, today: Date, rotating: bool, rotate: nat) {
    if rotating then CycleOf(d, rotate) == CycleOf(today, rotate) && MonthIndex(d) <= MonthIndex(today)
    else MonthIndex(d) == MonthIndex(today)
  }

  predicate ValidRows(rows: seq<Row>) {
    forall k :: 0 <= k < |rows| ==> ValidDate(rows[k].date)
  }

  function BilledAt(rows: seq<Row>, today: Date, rotating: bool, rotate: nat, k: nat): Bytes {
    if k < |rows| && Bills(rows[k].date, today, rotating, rotate) then Bytes(rows[k].rx, rows[k].tx) else ZERO
  }

  lemma BilledBills(d: Date, today: Date, rotating: bool, rotate: nat)
    requires ValidDate(d) && ValidDate(today) && (rotating ==> 2 <= rotate <= 28)
    ensures Billed(d, today, rotating, rotate) <==> Bills(d, today, rotating, rotate)
  {
    if rotating {
      WindowIsTheCycle(d, today, rotate);
    }
  }

  lemma {:induction false} RowsSum(rows: seq<Row>, today: Date, rotating: bool, rotate: nat)
    requires ValidRows(rows) && ValidDate(today) && (rotating ==> 2 <= rotate <= 28)
    ensures BilledSum(rows, today, rotating, rotate).rx == Sum(|rows|, k => BilledAt(rows, today, rotating, rotate, k).rx)
    ensures BilledSum(rows, today, rotating, rotate).tx == Sum(|rows|, k => BilledAt(rows, today, rotating, rotate, k).tx)
  {
    hide Billed, Bills;
    if rows != [] {
      var n := |rows| - 1;
      RowsSum(rows[..n], today, rotating, rotate);
      SumSame(n, k => BilledAt(rows[..n], today, rotating, rotate, k).rx, k => BilledAt(rows, today, rotating, rotate, k).rx);
      SumSame(n, k => BilledAt(rows[..n], today, rotating, rotate, k).tx, k => BilledAt(rows, today, rotating, rotate, k).tx);
      BilledBills(rows[n].date, today, rotating, rotate);
    }
  }

  /** The rows of a report: days for a rotating bill, else months, under the name its version has for them. */
  function RowsIn(iface: Iface, v1: bool, rotating: bool): seq<Row> {
    if rotating then iface.day else if v1 then iface.months else iface.month
  }

  /** What one interface adds to total and bill, in its report's unit. */
  ghost function Adds(iface: Iface, v1: bool, today: Date, rotating: bool, args: Args): Traffic {
    if !Chosen(args, if v1 then iface.id else iface.name) then Traffic(ZERO, ZERO)
    else
      var rows := RowsIn(iface, v1, rotating);
      Traffic(iface.total,
              Bytes(Sum(|rows|, k => BilledAt(rows, today, rotating, args.rotate, k).rx),
                    Sum(|rows|, k => BilledAt(rows, today, rotating, args.rotate, k).tx)))
  }

  ghost function AddsAt(ifaces: seq<Iface>, i: nat, v1: bool, today: Date, rotating: bool, args: Args): Traffic {
    if i < |ifaces| then Adds(ifaces[i], v1, today, rotating, args) else Traffic(ZERO, ZERO)
  }

  lemma AddsWhatIsCounted(iface: Iface, v1: bool, today: Date, rotating: bool, args: Args)
    requires ValidRows(RowsIn(iface, v1, rotating)) && ValidDate(today) && (rotating ==> 2 <= args.rotate <= 28)
    ensures Adds(iface, v1, today, rotating, args) ==
            if SkipIface(args, NameOf(iface, v1)) then Traffic(ZERO, ZERO)
            else Traffic(iface.total, BilledSum(RowsOf(iface, v1, rotating), today, rotating, args.rotate))
  {
    hide SkipIface, Chosen, BilledSum, BilledAt;
    ChosenIsNotSkipped(args, NameOf(iface, v1));
    RowsSum(RowsIn(iface, v1, rotating), today, rotating, args.rotate);
  }

  lemma {:induction false} CountedSums(ifaces: seq<Iface>, v1: bool, today: Date, rotating: bool, args: Args)
    requires ValidDate(today) && (rotating ==> 2 <= args.rotate <= 28)
    requires forall i :: 0 <= i < |ifaces| ==> ValidRows(RowsIn(ifaces[i], v1, rotating))
    ensures var counted := Counted(ifaces, v1, args);
            && TotalOf(counted).rx == Sum(|ifaces|, i => AddsAt(ifaces, i, v1, today, rotating, args).total.rx)
            && TotalOf(counted).tx == Sum(|ifaces|, i => AddsAt(ifaces, i, v1, today, rotating, args).total.tx)
    ensures var billed := BilledOf(Counted(ifaces, v1, args), v1, today, rotating, args.rotate);
            && billed.rx == Sum(|ifaces|, i => AddsAt(ifaces, i, v1, today, rotating, args).billed.rx)
            && billed.tx == Sum(|ifaces|, i => AddsAt(ifaces, i, v1, today, rotating, args).billed.tx)
  {
    hide SkipIface, Adds, BilledSum, RowsOf, TotalOf, BilledOf, Counted;
    if ifaces == [] {
      NothingCounted(v1, today, rotating, args);
    } else {
      var n := |ifaces| - 1;
      var front := ifaces[..n];
      CountedSums(front, v1, today, rotating, args);
      SumSame(n, i => AddsAt(front, i, v1, today, rotating, args).total.rx, i => AddsAt(ifaces, i, v1, today, rotating, args).total.rx);
      SumSame(n, i => AddsAt(front, i, v1, today, rotating, args).total.tx, i => AddsAt(ifaces, i, v1, today, rotating, args).total.tx);
      SumSame(n, i => AddsAt(front, i, v1, today, rotating, args).billed.rx, i => AddsAt(ifaces, i, v1, today, rotating, args).billed.rx);
      SumSame(n, i => AddsAt(front, i, v1, today, rotating, args).billed.tx, i => AddsAt(ifaces, i, v1, today, rotating, args).billed.tx);
      AddsWhatIsCounted(ifaces[n], v1, today, rotating, args);
      CountedStep(ifaces, n, v1, args);
      assert ifaces[..n + 1] == ifaces;
      var before := Counted(front, v1, args);
      SumsStep(before, ifaces[n], v1, today, rotating, args.rotate);
      assert before + [] == before;
    }
  }

  /**
  What the client reports, as sums over the chosen interfaces: total and bill in bytes, of all rows of the month or
  of the cycle; version 1 reports count in kibibytes.
  */
  lemma TrafficIsSummed(j: Report, today: Date, rotating: bool, args: Args)
    requires ValidDate(today) && (rotating ==> 2 <= args.rotate <= 28)
    requires forall i :: 0 <= i < |j.interfaces| ==> ValidRows(RowsIn(j.interfaces[i], j.version == "1", rotating))
    ensures var v1, n := j.version == "1", |j.interfaces|;
            var unit := if v1 then 1024 else 1;
            var r := Expected(j, today, rotating, args);
            r.Ok? ==>
              && r.value.total.rx == Sum(n, i => AddsAt(j.interfaces, i, v1, today, rotating, args).total.rx) * unit
              && r.value.total.tx == Sum(n, i => AddsAt(j.interfaces, i, v1, today, rotating, args).total.tx) * unit
              && r.value.billed.rx == Sum(n, i => AddsAt(j.interfaces, i, v1, today, rotating, args).billed.rx) * unit
              && r.value.billed.tx == Sum(n, i => AddsAt(j.interfaces, i, v1, today, rotating, args).billed.tx) * unit
  {
    hide Counted, TotalOf, BilledOf, AddsAt;
    CountedSums(j.interfaces, j.version == "1", today, rotating, args);
  }

  /** The client stops at an unknown version, or at the days of a version 1 report with a chosen interface. */
  lemma StopsExactlyWhen(j: Report, today: Date, rotating: bool, args: Args)
    ensures var r := Expected(j, today, rotating, args);
            && (r == Err(UnknownVersion) <==> j.version != "1" && j.version != "2")
            && (r == Err(DaysUnsupported) <==>
                j.version == "1" && rotating && exists i :: 0 <= i < |j.interfaces| && Chosen(args, j.interfaces[i].id))
            && r != Err(InvalidRotate)
  {
    hide TotalOf, BilledOf, Counted, SkipIface, Chosen;
    NothingCountedExactlyWhen(j.interfaces, true, args);
  }

  lemma {:induction false} NothingCountedExactlyWhen(ifaces: seq<Iface>, v1: bool, args: Args)
    ensures Counted(ifaces, v1, args) != [] <==> exists i :: 0 <= i < |ifaces| && Chosen(args, NameOf(ifaces[i], v1))
  {
    hide SkipIface, Chosen;
    if ifaces != [] {
      var n := |ifaces| - 1;
      NothingCountedExactlyWhen(ifaces[..n], v1, args);
      ChosenIsNotSkipped(args, NameOf(ifaces[n], v1));
      if i :| 0 <= i < n && Chosen(args, NameOf(ifaces[..n][i], v1)) {
        assert Chosen(args, NameOf(ifaces[i], v1));
      }
      if i :| 0 <= i < |ifaces| && Chosen(args, NameOf(ifaces[i], v1)) {
        if i < n {
          assert Chosen(args, NameOf(ifaces[..n][i], v1));
        }
      }
    }
  }
}
