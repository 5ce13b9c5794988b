/** The notices sent as a due date comes near, over the checks of one process lifetime. */
module Notices {
  import opened Wrappers
  import opened Text
  import opened Calendar
  import opened Renewals
  import opened Expiry

  // ---------- notices ----------

  /** Which notice a record calls for: the due date passed, or a threshold of days was reached. */
  datatype Stage = PastDue | Threshold(days: nat)

  /** The least non-negative threshold that is not below the days left. */
  function LeastThreshold(days: seq<int>, left: int): (r: Option<nat>)
    ensures r.Some? ==> r.value in days && left <= r.value && forall d :: d in days && 0 <= d && left <= d ==> r.value <= d
    ensures r.None? ==> forall d :: d in days && 0 <= d ==> d < left
  {
    if days == [] then None
    else
      var rest := LeastThreshold(days[1..], left);
      assert forall d :: d in days <==> d == days[0] || d in days[1..];
      if 0 <= days[0] && left <= days[0] && (rest.None? || days[0] <= rest.value) then Some(days[0]) else rest
  }

  function StageOf(days: seq<int>, left: int): Option<Stage> {
    if left < 0 then Some(PastDue)
    else
      match LeastThreshold(days, left)
      case None => None
      case Some(d) => Some(Threshold(d))
  }

  function SignedDecimal(n: int): string {
    if n < 0 then "-" + Decimal(-n) else Decimal(n)
  }

  function StageText(stage: Stage): string {
    match stage case PastDue => "expired" case Threshold(d) => Decimal(d)
  }

  function MarkerText(timestamp: int, stage: Stage): string {
    SignedDecimal(timestamp) + ":" + StageText(stage)
  }

  lemma SignedDecimalIs(n: int)
    ensures SignedDecimal(n) != "" && forall i :: 0 <= i < |SignedDecimal(n)| ==> SignedDecimal(n)[i] != ':'
    ensures n < 0 <==> SignedDecimal(n)[0] == '-'
  {
    var digits := Decimal(if n < 0 then -n else n);
    forall i | 0 <= i < |digits|
      ensures IsAsciiDigit(digits[i])
    {
      assert digits[i] in digits;
    }
  }

  lemma SignedDecimalInjective(a: int, b: int)
    requires SignedDecimal(a) == SignedDecimal(b)
    ensures a == b
  {
    SignedDecimalIs(a);
    SignedDecimalIs(b);
    if a < 0 {
      assert SignedDecimal(a)[1..] == Decimal(-a) && SignedDecimal(b)[1..] == Decimal(-b);
      DecimalInjective(-a, -b);
    } else {
      DecimalInjective(a, b);
    }
  }

  /** What stands before a text's first colon is determined by the text. */
  lemma FirstColon(x: string, a: string, y: string, b: string)
    requires x + ":" + a == y + ":" + b
    requires (forall i :: 0 <= i < |x| ==> x[i] != ':') && (forall i :: 0 <= i < |y| ==> y[i] != ':')
    ensures x == y && a == b
  {
    var s := x + ":" + a;
    assert s[|x|] == ':' && s[|y|] == ':';
    assert forall i :: 0 <= i < |x| ==> s[i] == x[i];
    assert forall i :: 0 <= i < |y| ==> s[i] == y[i];
    assert s[..|x|] == x && s[..|y|] == y && s[|x| + 1..] == a && s[|y| + 1..] == b;
  }

  lemma StageTextInjective(a: Stage, b: Stage)
    requires StageText(a) == StageText(b)
    ensures a == b
  {
    assert 'e' in "expired" by {
      assert "expired"[0] == 'e';
    }
    if a.Threshold? && b.Threshold? {
      DecimalInjective(a.days, b.days);
    }
  }

  /** Different due timestamps and different stages have different texts. */
  lemma MarkerTextInjective(t: int, a: Stage, u: int, b: Stage)
    requires MarkerText(t, a) == MarkerText(u, b)
    ensures t == u && a == b
  {
    hide SignedDecimal, StageText;
    SignedDecimalIs(t);
    SignedDecimalIs(u);
    FirstColon(SignedDecimal(t), StageText(a), SignedDecimal(u), StageText(b));
    SignedDecimalInjective(t, u);
    StageTextInjective(a, b);
  }

  function EntryText(timestamp: int, stage: Option<Stage>): Option<string> {
    if stage.None? then None else Some(MarkerText(timestamp, stage.value))
  }

  /** `alert_marker`. */
  function AlertMarker(r: Record, days: seq<int>): Option<string> {
    if !r.configured || r.status == Permanent || r.status == Unknown then None
    else
      EntryText(r.timestamp, StageOf(days, r.daysLeft))
  }

  /** What the host's entry becomes after one check, for the record's marker of that day. */
  function Remembered(last: Option<string>, marker: Option<string>): (Option<string>, bool) {
    (marker, marker.Some? && marker != last)
  }

  function EntryOf(state: map<string, string>, host: string): Option<string> {
    if host in state then Some(state[host]) else None
  }

  /** Remembers the host's marker, and no other, and says whether it is new. */
  method ShouldEmitExpireNotification(state: map<string, string>, host: string, marker: Option<string>)
    returns (notify: bool, after: map<string, string>)
    ensures (EntryOf(after, host), notify) == Remembered(EntryOf(state, host), marker)
    ensures forall other :: other != host ==> EntryOf(after, other) == EntryOf(state, other)
  {
    match marker {
      case Some(text) =>
        notify := host !in state || state[host] != text;
        after := state[host := text];
      case None =>
        notify := false;
        after := state - {host};
    }
  }

  // ---------- the checks of one host ----------

  /** The notices sent over checks on the given days: each refreshes the host's record and compares its marker. */
  function Notices(last: Option<string>, r: Record, thresholds: seq<int>, days: seq<Date>, offset: int): seq<string>
    requires forall d :: d in days ==> ValidDate(d)
    decreases |days|
  {
    if days == [] then []
    else
      var refreshed := Refresh(r, days[0], offset);
      var (kept, notify) := Remembered(last, AlertMarker(refreshed, thresholds));
      var rest := Notices(kept, refreshed, thresholds, days[1..], offset);
      if notify then [kept.value] + rest else rest
  }

  function MarkerOn(r: Record, thresholds: seq<int>, today: Date, offset: int): Option<string>
    requires ValidDate(today)
  {
    AlertMarker(Refresh(r, today, offset), thresholds)
  }

  function Markers(r: Record, thresholds: seq<int>, days: seq<Date>, offset: int): (markers: seq<Option<string>>)
    requires forall d :: d in days ==> ValidDate(d)
    ensures |markers| == |days| && forall i :: 0 <= i < |days| ==> markers[i] == MarkerOn(r, thresholds, days[i], offset)
  {
    seq(|days|, i requires 0 <= i < |days| => MarkerOn(r, thresholds, days[i], offset))
  }

  /** The notices for a list of markers, one a check. */
  function Sent(last: Option<string>, markers: seq<Option<string>>): seq<string>
    decreases |markers|
  {
    if markers == [] then []
    else
      var rest := Sent(markers[0], markers[1..]);
      if markers[0].Some? && markers[0] != last then [markers[0].value] + rest else rest
  }

  /** Every check sees the record as if it were the first to refresh it. */
  lemma {:induction false} NoticesFollowMarkers(last: Option<string>, r: Record, thresholds: seq<int>, days: seq<Date>, offset: int)
    requires forall d :: d in days ==> ValidDate(d)
    ensures Notices(last, r, thresholds, days, offset) == Sent(last, Markers(r, thresholds, days, offset))
    decreases |days|
  {
    hide Refresh, AlertMarker;
    if days != [] {
      var refreshed := Refresh(r, days[0], offset);
      forall d | d in days
        ensures MarkerOn(refreshed, thresholds, d, offset) == MarkerOn(r, thresholds, d, offset)
      {
        RefreshForgets(r, days[0], d, offset);
      }
      NoticesFollowMarkers(AlertMarker(refreshed, thresholds), refreshed, thresholds, days[1..], offset);
      assert Markers(refreshed, thresholds, days[1..], offset) == Markers(r, thresholds, days, offset)[1..];
    }
  }

  /** A marker found again later was there all the time. */
  predicate Convex(last: Option<string>, markers: seq<Option<string>>) {
    && (forall i, j, k :: 0 <= i < j < k < |markers| && markers[i] == markers[k] && markers[i].Some? ==> markers[j] == markers[i])
    && (forall j, k :: 0 <= j < k < |markers| && markers[k] == last && last.Some? ==> markers[j] == last)
  }

  lemma ConvexTail(last: Option<string>, markers: seq<Option<string>>)
    requires markers != [] && Convex(last, markers)
    ensures Convex(markers[0], markers[1..])
  {
    var tail := markers[1..];
    assert forall i :: 0 <= i < |tail| ==> tail[i] == markers[i + 1];
  }

  predicate Distinct(xs: seq<string>) {
    forall i, j :: 0 <= i < j < |xs| ==> xs[i] != xs[j]
  }

  /** Then no notice is sent twice, nor the one remembered; and every marker but the remembered one is sent. */
  lemma {:induction false} SentOnce(last: Option<string>, markers: seq<Option<string>>)
    requires Convex(last, markers)
    ensures var sent := Sent(last, markers);
            && Distinct(sent)
            && (forall x :: x in sent <==> Some(x) in markers && Some(x) != last)
    decreases |markers|
  {
    if markers != [] {
      ConvexTail(last, markers);
      var first, rest := markers[0], Sent(markers[0], markers[1..]);
      SentOnce(first, markers[1..]);
      assert markers == [first] + markers[1..];
      forall x | Some(x) in markers[1..] && Some(x) != first
        ensures Some(x) != last
      {
        var k :| 0 <= k < |markers| - 1 && markers[1..][k] == Some(x);
        assert markers[k + 1] == Some(x);
      }
    }
  }

  // ---------- how markers change from day to day ----------

  /** Later stages: a smaller threshold, or past due. */
  predicate Later(a: Stage, b: Stage) {
    a.Threshold? && (b.PastDue? || b.days < a.days)
  }

  lemma StagesOnlyAdvance(days: seq<int>, was: int, left: int)
    requires was >= left
    ensures StageOf(days, was).Some? ==>
              && StageOf(days, left).Some?
              && (StageOf(days, left) == StageOf(days, was) || Later(StageOf(days, was).value, StageOf(days, left).value))
  {
  }

  /** A stage found again later was there all the time. */
  lemma StagesStay(days: seq<int>, a: int, b: int, c: int)
    requires a >= b >= c && StageOf(days, a) == StageOf(days, c) && StageOf(days, a).Some?
    ensures StageOf(days, b) == StageOf(days, a)
  {
    StagesOnlyAdvance(days, a, b);
    StagesOnlyAdvance(days, b, c);
  }

  /** The record counts the days to its due date. */
  predicate Counts(r: Record, today: Date, offset: int)
    requires ValidDate(today)
  {
    && r.configured && r.status != Permanent && r.status != Unknown
    && LocalDate(r.timestamp, offset).Some?
    && r.daysLeft == DayNumber(LocalDate(r.timestamp, offset).value) - DayNumber(today)
  }

  /** The record counts no days: it is the same on every day, but perhaps for how its renewal fared. */
  predicate Still(r: Record, base: Record) {
    r.configured == base.configured && r.status == base.status && r.timestamp == base.timestamp && r.daysLeft == base.daysLeft
  }

  lemma UpdatedCounts(timestamp: int, autoRenewal: bool, cycle: string, today: Date, offset: int)
    requires ValidDate(today)
    ensures var r := Updated(Dated(timestamp, autoRenewal, cycle, offset), today, offset);
            && r.timestamp == DueOn(timestamp, autoRenewal, cycle, today, offset).timestamp
            && r.configured && r.originalTimestamp == timestamp
            && r.autoRenewal == autoRenewal && r.cycle == cycle
            && if LocalDate(timestamp, offset).Some? then Counts(r, today, offset)
               else r.timestamp == timestamp && r.daysLeft == 0 && r.status == NoDate
  {
    hide DueOn, LocalDate, DayNumber;
    RenewedIsDated(Dated(timestamp, autoRenewal, cycle, offset), today, offset);
  }

  lemma DescribedCounts(r: Record, today: Date, offset: int)
    requires ValidDate(today) && r.configured
    ensures var d := Describe(r, today, offset);
            d.timestamp == r.timestamp && if LocalDate(r.timestamp, offset).Some? then Counts(d, today, offset) else d == r
  {
    hide LocalDate, DayNumber;
  }

  /** The three ways in which a built record lives through its refreshes. */
  datatype Life = Fixed | Counting(due: int) | Renewing

  function LifeOf(
    configured: bool, parsed: Option<ParsedExpire>, autoRenewal: bool, cycle: string, built: Date, offset: int): Life
    requires ValidDate(built)
  {
    var base := Build(configured, parsed, autoRenewal, cycle, built, offset);
    if base.originalTimestamp > 0 && LocalDate(base.originalTimestamp, offset).Some? then Renewing
    else if base.originalTimestamp <= 0 && base.timestamp > 0 && LocalDate(base.timestamp, offset).Some? then
      Counting(base.timestamp)
    else Fixed
  }

  lemma LivesOn(
    configured: bool, parsed: Option<ParsedExpire>, autoRenewal: bool, cycle: string, built: Date, today: Date, offset: int)
    requires ValidDate(built) && ValidDate(today)
    ensures var base := Build(configured, parsed, autoRenewal, cycle, built, offset);
            var r := Refresh(base, today, offset);
            match LifeOf(configured, parsed, autoRenewal, cycle, built, offset)
            case Fixed => Still(r, base)
            case Counting(due) => r.timestamp == due && Counts(r, today, offset)
            case Renewing =>
              && r.timestamp == DueOn(base.originalTimestamp, autoRenewal, cycle, today, offset).timestamp
              && Counts(r, today, offset)
  {
    hide Updated, Describe, DueOn, LocalDate, Counts;
    var base := Build(configured, parsed, autoRenewal, cycle, built, offset);
    if configured && parsed.Some? && parsed.value.ParsedTimestamp? {
      var timestamp := parsed.value.timestamp;
      var dated := Dated(timestamp, autoRenewal, cycle, offset);
      UpdatedCounts(timestamp, autoRenewal, cycle, built, offset);
      UpdatedCounts(timestamp, autoRenewal, cycle, today, offset);
      UpdateForgets(dated, built, today, offset);
      if timestamp <= 0 {
        DescribedCounts(base, today, offset);
      }
    }
  }

  /** A due timestamp found again later, and past or not past as before, was the same all the time. */
  lemma DueStays(original: int, autoRenewal: bool, cycle: string, a: Date, b: Date, c: Date, offset: int)
    requires ValidDate(a) && ValidDate(b) && ValidDate(c) && !Before(b, a) && !Before(c, b)
    requires LocalDate(original, offset).Some?
    requires var due := DueOn(original, autoRenewal, cycle, a, offset).timestamp;
             && due == DueOn(original, autoRenewal, cycle, c, offset).timestamp && LocalDate(due, offset).Some?
             && (Before(LocalDate(due, offset).value, a) <==> Before(LocalDate(due, offset).value, c))
    ensures DueOn(original, autoRenewal, cycle, b, offset).timestamp == DueOn(original, autoRenewal, cycle, a, offset).timestamp
  {
    hide RenewFrom, LocalDate, EndOfDay, ParseRenewalCycle;
    if autoRenewal && ReadCycle(cycle).Every? {
      RenewalStays(LocalDate(original, offset).value, ReadCycle(cycle).cycle, original, a, b, c, MAX_RENEWALS, offset);
    }
  }

  lemma RenewalStays(
    start: Date, cycle: RenewalCycle, original: int, a: Date, b: Date, c: Date, limit: nat, offset: int)
    requires ValidDate(start) && cycle.count > 0 && LocalDate(original, offset) == Some(start)
    requires ValidDate(a) && ValidDate(b) && ValidDate(c) && !Before(b, a) && !Before(c, b)
    requires var due := DueAfter(original, RenewFrom(start, cycle, a, 0, limit), offset).timestamp;
             && due == DueAfter(original, RenewFrom(start, cycle, c, 0, limit), offset).timestamp && LocalDate(due, offset).Some?
             && (Before(LocalDate(due, offset).value, a) <==> Before(LocalDate(due, offset).value, c))
    ensures DueAfter(original, RenewFrom(start, cycle, b, 0, limit), offset).timestamp ==
            DueAfter(original, RenewFrom(start, cycle, a, 0, limit), offset).timestamp
  {
    hide RenewFrom, LocalDate, EndOfDay, DayNumber;
    var first, last := RenewFrom(start, cycle, a, 0, limit), RenewFrom(start, cycle, c, 0, limit);
    SettledShows(start, cycle, a, limit, offset);
    SettledShows(start, cycle, c, limit, offset);
    if first.Settled? {
      if !last.Settled? {
        FailureLasts(start, cycle, c, c, limit);
        assert false;
      }
      SettledUntilPast(start, cycle, a, b, limit);
    } else {
      FailureLasts(start, cycle, a, b, limit);
      FailureLasts(start, cycle, a, c, limit);
    }
  }

  lemma CountsMarker(r: Record, thresholds: seq<int>, today: Date, offset: int)
    requires ValidDate(today) && Counts(r, today, offset)
    ensures AlertMarker(r, thresholds) == EntryText(r.timestamp, StageOf(thresholds, r.daysLeft))
    ensures LocalDate(r.timestamp, offset).Some?
    ensures Before(LocalDate(r.timestamp, offset).value, today) <==> r.daysLeft < 0
    ensures StageOf(thresholds, r.daysLeft) == Some(PastDue) <==> r.daysLeft < 0
  {
    DayNumberOrders(LocalDate(r.timestamp, offset).value, today);
  }

  /** One due date's marker, found again later, was there all the time. */
  lemma CountedMarkerStays(a: Record, b: Record, c: Record, thresholds: seq<int>, x: Date, y: Date, z: Date, offset: int)
    requires ValidDate(x) && ValidDate(y) && ValidDate(z) && !Before(y, x) && !Before(z, y)
    requires Counts(a, x, offset) && Counts(b, y, offset) && Counts(c, z, offset) && a.timestamp == b.timestamp == c.timestamp
    requires AlertMarker(a, thresholds) == AlertMarker(c, thresholds) && AlertMarker(a, thresholds).Some?
    ensures AlertMarker(b, thresholds) == AlertMarker(a, thresholds)
  {
    hide LocalDate, DayNumber, StageOf, AlertMarker, MarkerText;
    CountsMarker(a, thresholds, x, offset);
    CountsMarker(b, thresholds, y, offset);
    CountsMarker(c, thresholds, z, offset);
    SameMarker(a.timestamp, StageOf(thresholds, a.daysLeft), c.timestamp, StageOf(thresholds, c.daysLeft));
    DayNumberOrders(x, y);
    DayNumberOrders(y, z);
    StagesStay(thresholds, a.daysLeft, b.daysLeft, c.daysLeft);
  }

  lemma SameMarker(t: int, a: Option<Stage>, u: int, b: Option<Stage>)
    requires EntryText(t, a) == EntryText(u, b) && EntryText(t, a).Some?
    ensures t == u && a == b
  {
    hide MarkerText;
    MarkerTextInjective(t, a.value, u, b.value);
  }

  /** A marker found again later was there all the time, whatever the record and its renewals. */
  lemma MarkerStays(
    configured: bool, parsed: Option<ParsedExpire>, autoRenewal: bool, cycle: string, built: Date, thresholds: seq<int>,
    a: Date, b: Date, c: Date, offset: int)
    requires ValidDate(built) && ValidDate(a) && ValidDate(b) && ValidDate(c) && !Before(b, a) && !Before(c, b)
    requires var base := Build(configured, parsed, autoRenewal, cycle, built, offset);
             && MarkerOn(base, thresholds, a, offset) == MarkerOn(base, thresholds, c, offset)
             && MarkerOn(base, thresholds, a, offset).Some?
    ensures var base := Build(configured, parsed, autoRenewal, cycle, built, offset);
            MarkerOn(base, thresholds, b, offset) == MarkerOn(base, thresholds, a, offset)
  {
    hide Build, Refresh, LocalDate, DueOn, StageOf, MarkerText, Counts;
    var base := Build(configured, parsed, autoRenewal, cycle, built, offset);
    LivesOn(configured, parsed, autoRenewal, cycle, built, a, offset);
    LivesOn(configured, parsed, autoRenewal, cycle, built, b, offset);
    LivesOn(configured, parsed, autoRenewal, cycle, built, c, offset);
    var x, y, z := Refresh(base, a, offset), Refresh(base, b, offset), Refresh(base, c, offset);
    hide AlertMarker;
    match LifeOf(configured, parsed, autoRenewal, cycle, built, offset) {
      case Fixed =>
        StillMarker(x, base, thresholds);
        StillMarker(y, base, thresholds);
      case Counting(_) =>
        CountedMarkerStays(x, y, z, thresholds, a, b, c, offset);
      case Renewing =>
        CountsMarker(x, thresholds, a, offset);
        CountsMarker(z, thresholds, c, offset);
        SameMarker(x.timestamp, StageOf(thresholds, x.daysLeft), z.timestamp, StageOf(thresholds, z.daysLeft));
        DueStays(base.originalTimestamp, autoRenewal, cycle, a, b, c, offset);
        CountedMarkerStays(x, y, z, thresholds, a, b, c, offset);
    }
  }

  lemma StillMarker(r: Record, base: Record, thresholds: seq<int>)
    requires Still(r, base)
    ensures AlertMarker(r, thresholds) == AlertMarker(base, thresholds)
  {
    hide StageOf, MarkerText;
  }

  // ---------- all the notices of one process lifetime ----------

  /** Time passes between the checks. */
  predicate InOrder(days: seq<Date>) {
    && (forall d :: d in days ==> ValidDate(d))
    && forall i, j :: 0 <= i < j < |days| ==> !Before(days[j], days[i])
  }

  lemma MarkersStay(
    configured: bool, parsed: Option<ParsedExpire>, autoRenewal: bool, cycle: string, built: Date, thresholds: seq<int>,
    days: seq<Date>, offset: int)
    requires ValidDate(built) && InOrder(days)
    ensures Convex(None, Markers(Build(configured, parsed, autoRenewal, cycle, built, offset), thresholds, days, offset))
  {
    hide Build, MarkerOn;
    var base := Build(configured, parsed, autoRenewal, cycle, built, offset);
    var markers := Markers(base, thresholds, days, offset);
    forall i, j, k | 0 <= i < j < k < |markers| && markers[i] == markers[k] && markers[i].Some?
      ensures markers[j] == markers[i]
    {
      MarkerStays(configured, parsed, autoRenewal, cycle, built, thresholds, days[i], days[j], days[k], offset);
    }
  }

  /**
  Over the checks of one process lifetime, whatever the record and however often it renews, no notice is ever
  repeated, and none is passed over: the notices sent are exactly the markers that some check finds.
  */
  lemma NoticesNeverRepeat(
    configured: bool, parsed: Option<ParsedExpire>, autoRenewal: bool, cycle: string, built: Date, thresholds: seq<int>,
    days: seq<Date>, offset: int)
    requires ValidDate(built) && InOrder(days)
    ensures var base := Build(configured, parsed, autoRenewal, cycle, built, offset);
            var sent := Notices(None, base, thresholds, days, offset);
            && Distinct(sent)
            && (forall x :: x in sent <==> Some(x) in Markers(base, thresholds, days, offset))
  {
    hide Build, Notices, Convex, MarkerOn;
    var base := Build(configured, parsed, autoRenewal, cycle, built, offset);
    MarkersStay(configured, parsed, autoRenewal, cycle, built, thresholds, days, offset);
    NoticesFollowMarkers(None, base, thresholds, days, offset);
    SentOnce(None, Markers(base, thresholds, days, offset));
  }

  function NonNegative(days: seq<int>): set<nat> {
    if days == [] then {} else NonNegative(days[1..]) + if days[0] >= 0 then {days[0] as nat} else {}
  }

  lemma {:induction false} NonNegativeHas(days: seq<int>, d: nat)
    ensures d in NonNegative(days) <==> d as int in days
  {
    if days != [] {
      NonNegativeHas(days[1..], d);
      assert days == [days[0]] + days[1..];
    }
  }

  /** The due timestamps the record shows at the checks. */
  function Dues(r: Record, days: seq<Date>, offset: int): set<int>
    requires forall d :: d in days ==> ValidDate(d)
  {
    set d | d in days :: Refresh(r, d, offset).timestamp
  }

  /** The texts for one due timestamp: one for each threshold, and one for the due date passing. */
  function TextsFor(timestamp: int, ds: set<nat>): set<string> {
    {MarkerText(timestamp, PastDue)} + set d | d in ds :: MarkerText(timestamp, Threshold(d))
  }

  function Texts(dues: set<int>, ds: set<nat>): set<string> {
    set t, x | t in dues && x in TextsFor(t, ds) :: x
  }

  lemma {:induction false} ThresholdTextsCount(timestamp: int, ds: set<nat>)
    ensures |set d | d in ds :: MarkerText(timestamp, Threshold(d))| <= |ds|
  {
    hide MarkerText;
    if ds == {} {
      assert (set d | d in ds :: MarkerText(timestamp, Threshold(d))) == {};
    } else {
      var d :| d in ds;
      ThresholdTextsCount(timestamp, ds - {d});
      assert (set x | x in ds :: MarkerText(timestamp, Threshold(x))) ==
             (set x | x in ds - {d} :: MarkerText(timestamp, Threshold(x))) + {MarkerText(timestamp, Threshold(d))};
    }
  }

  lemma Pick<T>(s: set<T>) returns (x: T)
    requires |s| > 0
    ensures x in s
  {
    x :| x in s;
  }

  lemma {:induction false} TextsCount(dues: set<int>, ds: set<nat>)
    ensures |Texts(dues, ds)| <= |dues| * (|ds| + 1)
  {
    hide TextsFor;
    if |dues| == 0 {
      assert Texts(dues, ds) == {};
    } else {
      var t := Pick(dues);
      TextsCount(dues - {t}, ds);
      TextsForCount(t, ds);
      assert Texts(dues, ds) == Texts(dues - {t}, ds) + TextsFor(t, ds);
      assert |dues| * (|ds| + 1) == (|dues| - 1) * (|ds| + 1) + (|ds| + 1);
    }
  }

  lemma TextsForCount(t: int, ds: set<nat>)
    ensures |TextsFor(t, ds)| <= |ds| + 1
  {
    ThresholdTextsCount(t, ds);
  }

  lemma {:induction false} DistinctWithin(xs: seq<string>, all: set<string>)
    requires Distinct(xs) && forall x :: x in xs ==> x in all
    ensures |xs| <= |all|
  {
    if xs != [] {
      forall x | x in xs[1..]
        ensures x in all - {xs[0]}
      {
        var i :| 0 <= i < |xs| - 1 && xs[1..][i] == x;
        assert xs[i + 1] == x;
      }
      assert xs[0] in xs;
      DistinctWithin(xs[1..], all - {xs[0]});
    }
  }

  lemma MarkerIsText(r: Record, thresholds: seq<int>)
    ensures AlertMarker(r, thresholds).Some? ==> AlertMarker(r, thresholds).value in TextsFor(r.timestamp, NonNegative(thresholds))
  {
    hide MarkerText;
    var stage := StageOf(thresholds, r.daysLeft);
    if stage.Some? && stage.value.Threshold? {
      NonNegativeHas(thresholds, stage.value.days);
    }
  }

  /**
  Notices are bounded: over the checks of one process lifetime there are, for every due timestamp the record
  comes to show, at most as many as there are distinct non-negative thresholds, plus one for its passing.
  */
  lemma NoticesAreBounded(
    configured: bool, parsed: Option<ParsedExpire>, autoRenewal: bool, cycle: string, built: Date, thresholds: seq<int>,
    days: seq<Date>, offset: int)
    requires ValidDate(built) && InOrder(days)
    ensures var base := Build(configured, parsed, autoRenewal, cycle, built, offset);
            |Notices(None, base, thresholds, days, offset)| <= |Dues(base, days, offset)| * (|NonNegative(thresholds)| + 1)
  {
    hide Build, Notices, Refresh, AlertMarker, TextsFor, NonNegative;
    var base := Build(configured, parsed, autoRenewal, cycle, built, offset);
    var sent := Notices(None, base, thresholds, days, offset);
    var markers := Markers(base, thresholds, days, offset);
    NoticesNeverRepeat(configured, parsed, autoRenewal, cycle, built, thresholds, days, offset);
    forall x | x in sent
      ensures x in Texts(Dues(base, days, offset), NonNegative(thresholds))
    {
      var i :| 0 <= i < |markers| && markers[i] == Some(x);
      assert days[i] in days;
      MarkerIsText(Refresh(base, days[i], offset), thresholds);
    }
    DistinctWithin(sent, Texts(Dues(base, days, offset), NonNegative(thresholds)));
    TextsCount(Dues(base, days, offset), NonNegative(thresholds));
  }

  /** Without automatic renewal there is one due timestamp. */
  lemma NoRenewalOneDue(
    configured: bool, parsed: Option<ParsedExpire>, cycle: string, built: Date, days: seq<Date>, offset: int)
    requires ValidDate(built) && InOrder(days)
    ensures |Dues(Build(configured, parsed, false, cycle, built, offset), days, offset)| <= 1
  {
    hide LocalDate;
    var base := Build(configured, parsed, false, cycle, built, offset);
    forall d | d in days
      ensures Refresh(base, d, offset).timestamp == base.timestamp
    {
    }
    var dues := Dues(base, days, offset);
    assert dues <= {base.timestamp};
    SubsetCount(dues, {base.timestamp});
  }

  lemma {:induction false} SubsetCount<T>(a: set<T>, b: set<T>)
    requires a <= b
    ensures |a| <= |b|
  {
    if |a| > 0 {
      var x := Pick(a);
      SubsetCount(a - {x}, b - {x});
    }
  }

  /** For one due timestamp the markers found from day to day only advance to smaller thresholds, then to past due. */
  lemma StagesComeInOrder(
    configured: bool, parsed: Option<ParsedExpire>, autoRenewal: bool, cycle: string, built: Date, thresholds: seq<int>,
    a: Date, b: Date, offset: int, due: int, was: Stage, now: Stage)
    requires ValidDate(built) && ValidDate(a) && ValidDate(b) && !Before(b, a)
    requires var base := Build(configured, parsed, autoRenewal, cycle, built, offset);
             && MarkerOn(base, thresholds, a, offset) == Some(MarkerText(due, was))
             && MarkerOn(base, thresholds, b, offset) == Some(MarkerText(due, now))
    ensures was == now || Later(was, now)
  {
    hide Build, Refresh, LocalDate, DueOn, StageOf, MarkerText, Counts, AlertMarker;
    var base := Build(configured, parsed, autoRenewal, cycle, built, offset);
    LivesOn(configured, parsed, autoRenewal, cycle, built, a, offset);
    LivesOn(configured, parsed, autoRenewal, cycle, built, b, offset);
    var x, y := Refresh(base, a, offset), Refresh(base, b, offset);
    if LifeOf(configured, parsed, autoRenewal, cycle, built, offset).Fixed? {
      StillMarker(x, base, thresholds);
      StillMarker(y, base, thresholds);
      MarkerTextInjective(due, was, due, now);
    } else {
      CountsMarker(x, thresholds, a, offset);
      CountsMarker(y, thresholds, b, offset);
      SameMarker(x.timestamp, StageOf(thresholds, x.daysLeft), due, Some(was));
      SameMarker(y.timestamp, StageOf(thresholds, y.daysLeft), due, Some(now));
      DayNumberOrders(a, b);
      DaysLeftFall(x, y, a, b, offset);
      StagesOnlyAdvance(thresholds, x.daysLeft, y.daysLeft);
    }
  }

  lemma DaysLeftFall(x: Record, y: Record, a: Date, b: Date, offset: int)
    requires ValidDate(a) && ValidDate(b) && !Before(b, a) && Counts(x, a, offset) && Counts(y, b, offset)
    requires x.timestamp == y.timestamp
    ensures x.daysLeft >= y.daysLeft
  {
    DayNumberOrders(a, b);
  }
}
