/** The cached expiry record: built once, refreshed daily, and never different from one built that day. */
module Expiry {
  import opened Wrappers
  import opened Calendar
  import opened Renewals
  import Text

  // ---------- dates and timestamps ----------

  const EPOCH_DAY: int := 719527
  const DAY_SECONDS: int := 86400

  lemma EpochDayIsUnixEpoch()
    ensures DayNumber(Date(1970, 1, 1)) == EPOCH_DAY
  {
  }

  /** The local date of a timestamp, for a fixed offset from UTC. */
  function LocalDate(timestamp: int, offset: int): (r: Option<Date>)
    ensures r.Some? ==> ValidDate(r.value)
  {
    DateOf(EPOCH_DAY + (timestamp + offset) / DAY_SECONDS)
  }

  /** 23:59:59 local time. */
  function EndOfDay(d: Date, offset: int): int
    requires ValidDate(d)
  {
    (DayNumber(d) - EPOCH_DAY) * DAY_SECONDS + DAY_SECONDS - 1 - offset
  }

  /** A timestamp is of that local day if and only if it is one of the 86400 up to the end of the day. */
  lemma EndOfDayRoundTrip(d: Date, offset: int, timestamp: int)
    requires ValidDate(d)
    ensures LocalDate(timestamp, offset) == Some(d) <==> EndOfDay(d, offset) - 86400 < timestamp <= EndOfDay(d, offset)
  {
    hide DateOf, DayNumber;
    var n := EPOCH_DAY + (timestamp + offset) / DAY_SECONDS;
    DateOfInverse(n, d);
  }

  lemma EndsTheDay(d: Date, offset: int)
    requires ValidDate(d)
    ensures LocalDate(EndOfDay(d, offset), offset) == Some(d) && LocalDate(EndOfDay(d, offset) + 1, offset) != Some(d)
  {
    hide LocalDate, EndOfDay;
    EndOfDayRoundTrip(d, offset, EndOfDay(d, offset));
    EndOfDayRoundTrip(d, offset, EndOfDay(d, offset) + 1);
  }

  // ---------- the cached record ----------

  datatype Status = NoDate | Permanent | Unknown | Expired | Warning | Normal

  datatype RenewalStatus = Off | MissingCycle | InvalidCycle | InvalidDate | TooManyCycles | Renewed | Waiting

  datatype Caption = Blank | PermanentCaption | InvalidCaption | ExpiredAgo(days: int) | RenewsToday | ExpiresToday
                 | RenewsIn(days: int) | ExpiresIn(days: int)

  datatype ParsedExpire = ParsedPermanent | ParsedTimestamp(timestamp: int)

  datatype Record = Record(
    configured: bool,
    originalTimestamp: int,
    originalDate: Option<Date>,
    timestamp: int,
    date: Option<Date>,
    daysLeft: int,
    status: Status,
    caption: Caption,
    autoRenewal: bool,
    autoRenewed: bool,
    renewalCount: nat,
    renewalStatus: RenewalStatus,
    cycle: string)

  /** The due timestamp that renewal comes to, after how many renewals, and how it fared. */
  datatype Due = Due(timestamp: int, count: nat, status: RenewalStatus)

  function DueOn(original: int, autoRenewal: bool, cycle: string, today: Date, offset: int): Due
    requires ValidDate(today)
  {
    if !autoRenewal then Due(original, 0, Off)
    else
      match ReadCycle(cycle)
      case NoCycle => Due(original, 0, MissingCycle)
      case BadCycle => Due(original, 0, InvalidCycle)
      case Every(every) =>
        match LocalDate(original, offset)
        case None => Due(original, 0, InvalidDate)
        case Some(start) => DueAfter(original, RenewFrom(start, every, today, 0, MAX_RENEWALS), offset)
  }

  function DueAfter(original: int, renewal: Renewal, offset: int): Due
    requires renewal.Settled? ==> ValidDate(renewal.date)
  {
    match renewal
    case Overflowed => Due(original, 0, InvalidCycle)
    case TooMany => Due(original, 0, TooManyCycles)
    case Settled(date, count) => Due(EndOfDay(date, offset), count, if count > 0 then Renewed else Waiting)
  }

  /** The part of the record that renewal sets, and the due timestamp it settles on. */
  function Renew(r: Record, today: Date, offset: int): Record
    requires ValidDate(today)
  {
    var due := DueOn(r.originalTimestamp, r.autoRenewal, r.cycle, today, offset);
    r.(autoRenewed := due.count > 0, renewalCount := due.count, renewalStatus := due.status, timestamp := due.timestamp)
  }

  function StatusAt(left: int): Status {
    if left < 0 then Expired else if left <= 7 then Warning else Normal
  }

  function CaptionAt(left: int, autoRenewal: bool): Caption {
    if left < 0 then ExpiredAgo(-left)
    else if left == 0 then if autoRenewal then RenewsToday else ExpiresToday
    else if autoRenewal then RenewsIn(left) else ExpiresIn(left)
  }

  function DescribeAs(r: Record, date: Date, left: int): Record {
    r.(date := Some(date), daysLeft := left, status := StatusAt(left), caption := CaptionAt(left, r.autoRenewal))
  }

  /** The part that depends on how far off the due date is. */
  function Describe(r: Record, today: Date, offset: int): Record
    requires ValidDate(today)
  {
    match LocalDate(r.timestamp, offset)
    case None => r
    case Some(date) => DescribeAs(r, date, DayNumber(date) - DayNumber(today))
  }

  /** A record that has its original date and nothing else yet. */
  function Dated(timestamp: int, autoRenewal: bool, cycle: string, offset: int): Record {
    Record(true, timestamp, LocalDate(timestamp, offset), 0, None, 0, NoDate, Blank, autoRenewal, false, 0, Off, cycle)
  }

  /** A dated record renewed and described as of a day. */
  function Updated(r: Record, today: Date, offset: int): Record
    requires ValidDate(today)
  {
    Describe(Renew(r, today, offset), today, offset)
  }

  /** The record built from scratch on a day. */
  function Build(
    configured: bool, parsed: Option<ParsedExpire>, autoRenewal: bool, cycle: string, today: Date, offset: int): Record
    requires ValidDate(today)
  {
    var blank := Record(configured, 0, None, 0, None, 0, NoDate, Blank, autoRenewal, false, 0, Off, cycle);
    if !configured then blank
    else
      match parsed
      case None => blank.(status := Unknown, caption := InvalidCaption)
      case Some(ParsedPermanent) => blank.(status := Permanent, caption := PermanentCaption)
      case Some(ParsedTimestamp(timestamp)) => Updated(Dated(timestamp, autoRenewal, cycle, offset), today, offset)
  }

  /** The record brought up to date on a later day. */
  function Refresh(r: Record, today: Date, offset: int): Record
    requires ValidDate(today)
  {
    if r.originalTimestamp > 0 then Updated(r, today, offset)
    else if r.timestamp > 0 then Describe(r, today, offset)
    else r
  }

  /** The renewal loop. */
  method RenewPastDue(start: Date, cycle: RenewalCycle, today: Date) returns (outcome: Renewal)
    requires ValidDate(start)
    ensures outcome == RenewFrom(start, cycle, today, 0, MAX_RENEWALS)
  {
    var nextDate := start;
    var count := 0;
    while Before(nextDate, today)
      invariant ValidDate(nextDate) && 0 <= count <= MAX_RENEWALS
      invariant RenewFrom(nextDate, cycle, today, count, MAX_RENEWALS) == RenewFrom(start, cycle, today, 0, MAX_RENEWALS)
      decreases MAX_RENEWALS - count
    {
      var date := AddCycle(nextDate, cycle);
      if date.None? {
        return Overflowed;
      }
      if !Before(nextDate, date.value) {
        return Overflowed;
      }
      if count + 1 > MAX_RENEWALS {
        return TooMany;
      }
      nextDate := date.value;
      count := count + 1;
    }
    return Settled(nextDate, count);
  }

  /** The record as the server keeps it, with the methods that update it in place. */
  class ExpireInfo {
    var configured: bool
    var originalTimestamp: int
    var originalDate: Option<Date>
    var timestamp: int
    var date: Option<Date>
    var daysLeft: int
    var status: Status
    var caption: Caption
    var autoRenewal: bool
    var autoRenewed: bool
    var renewalCount: nat
    var renewalStatus: RenewalStatus
    var cycle: string

    ghost function View(): Record
      reads this
    {
      Record(configured, originalTimestamp, originalDate, timestamp, date, daysLeft, status, caption, autoRenewal,
             autoRenewed, renewalCount, renewalStatus, cycle)
    }

    constructor BuildExpireInfo(
      configured: bool, parsed: Option<ParsedExpire>, autoRenewal: bool, cycle: string, today: Date, offset: int)
      requires ValidDate(today)
      ensures View() == Build(configured, parsed, autoRenewal, cycle, today, offset)
    {
      hide DueOn, LocalDate;
      this.configured, this.autoRenewal, this.cycle := configured, autoRenewal, cycle;
      originalTimestamp, originalDate, timestamp, date := 0, None, 0, None;
      daysLeft, status, caption := 0, NoDate, Blank;
      autoRenewed, renewalCount, renewalStatus := false, 0, Off;
      new;
      if !configured {
        return;
      }
      match parsed {
        case None => status, caption := Unknown, InvalidCaption;
        case Some(ParsedPermanent) => status, caption := Permanent, PermanentCaption;
        case Some(ParsedTimestamp(parsedTimestamp)) =>
          originalTimestamp, originalDate := parsedTimestamp, LocalDate(parsedTimestamp, offset);
          var due := ApplyAutoRenewal(today, offset);
          ApplyTimestamp(due, today, offset);
      }
    }

    method ApplyAutoRenewal(today: Date, offset: int) returns (due: int)
      requires ValidDate(today)
      modifies this`autoRenewed, this`renewalCount, this`renewalStatus
      ensures View().(timestamp := due) == Renew(old(View()), today, offset)
    {
      hide ParseRenewalCycle, RenewFrom, EndOfDay, LocalDate;
      autoRenewed := false;
      renewalCount := 0;
      if !autoRenewal {
        renewalStatus := Off;
        return originalTimestamp;
      }
      var parsed := ParseRenewalCycle(cycle);
      if parsed.None? {
        renewalStatus := if Text.Trim(cycle) == "" then MissingCycle else InvalidCycle;
        return originalTimestamp;
      }
      var initial := LocalDate(originalTimestamp, offset);
      if initial.None? {
        renewalStatus := InvalidDate;
        return originalTimestamp;
      }
      var outcome := RenewPastDue(initial.value, parsed.value, today);
      match outcome {
        case Overflowed => renewalStatus := InvalidCycle;
        case TooMany => renewalStatus := TooManyCycles;
        case Settled(nextDate, count) =>
          renewalCount := count;
          autoRenewed := count > 0;
          renewalStatus := if autoRenewed then Renewed else Waiting;
          return EndOfDay(nextDate, offset);
      }
      return originalTimestamp;
    }

    method ApplyTimestamp(due: int, today: Date, offset: int)
      requires ValidDate(today)
      modifies this`timestamp, this`date, this`daysLeft, this`status, this`caption
      ensures View() == Describe(old(View()).(timestamp := due), today, offset)
    {
      hide LocalDate, DayNumber;
      timestamp := due;
      var local := LocalDate(due, offset);
      if local.Some? {
        date := local;
        daysLeft := DayNumber(local.value) - DayNumber(today);
        DescribeDaysLeft();
      }
    }

    method DescribeDaysLeft()
      modifies this`status, this`caption
      ensures status == StatusAt(daysLeft) && caption == CaptionAt(daysLeft, autoRenewal)
    {
      if daysLeft < 0 {
        status, caption := Expired, ExpiredAgo(-daysLeft);
      } else if daysLeft == 0 {
        status, caption := Warning, if autoRenewal then RenewsToday else ExpiresToday;
      } else {
        status := if daysLeft <= 7 then Warning else Normal;
        caption := if autoRenewal then RenewsIn(daysLeft) else ExpiresIn(daysLeft);
      }
    }

    method RefreshExpireInfo(today: Date, offset: int)
      requires ValidDate(today)
      modifies this
      ensures View() == Refresh(old(View()), today, offset)
    {
      if originalTimestamp > 0 {
        var due := ApplyAutoRenewal(today, offset);
        ApplyTimestamp(due, today, offset);
      } else if timestamp > 0 {
        ApplyTimestamp(timestamp, today, offset);
      }
    }
  }

  /** The loop's guard against a cycle that stands still never acts on a parsed cycle. */
  lemma ParsedCyclesNeverStandStill(cycle: string, d: Date)
    requires ValidDate(d) && ParseRenewalCycle(cycle).Some?
    ensures var next := AddCycle(d, ParseRenewalCycle(cycle).value); next.Some? ==> Before(d, next.value)
  {
    AddCycleMovesForward(d, ParseRenewalCycle(cycle).value);
  }

  /** What a record shows of a due date: it is expired exactly when the date is past, and soon within a week. */
  predicate Shows(r: Record, date: Date, today: Date)
    requires ValidDate(date) && ValidDate(today)
  {
    && r.date == Some(date) && r.daysLeft == DayNumber(date) - DayNumber(today)
    && (r.status == Expired <==> Before(date, today))
    && (r.status == Warning <==> !Before(date, today) && DayNumber(date) <= DayNumber(today) + 7)
    && (r.status == Normal <==> DayNumber(date) > DayNumber(today) + 7)
    && (Before(date, today) ==> r.caption == ExpiredAgo(DayNumber(today) - DayNumber(date)))
    && (date == today ==> r.caption == if r.autoRenewal then RenewsToday else ExpiresToday)
    && (Before(today, date) ==>
          var days := DayNumber(date) - DayNumber(today);
          r.caption == if r.autoRenewal then RenewsIn(days) else ExpiresIn(days))
  }

  /**
  A fresh record of a representable date shows the renewed due date, never expired, if renewal settles, and the
  original date otherwise; it counts as renewed exactly when that original date is past.
  */
  lemma RecordShowsDueDate(timestamp: int, autoRenewal: bool, cycle: string, today: Date, offset: int)
    requires ValidDate(today) && LocalDate(timestamp, offset).Some?
    ensures var start := LocalDate(timestamp, offset).value;
            var r := Build(true, Some(ParsedTimestamp(timestamp)), autoRenewal, cycle, today, offset);
            && r.originalDate == Some(start) && r.autoRenewal == autoRenewal
            && if autoRenewal && ReadCycle(cycle).Every? && RenewFrom(start, ReadCycle(cycle).cycle, today, 0, MAX_RENEWALS).Settled?
               then var due := RenewFrom(start, ReadCycle(cycle).cycle, today, 0, MAX_RENEWALS);
                    && Shows(r, due.date, today) && r.status != Expired && r.renewalCount == due.count
                    && LocalDate(r.timestamp, offset) == Some(due.date) && LocalDate(r.timestamp + 1, offset) != Some(due.date)
                    && (r.autoRenewed <==> Before(start, today)) && (r.renewalStatus == Renewed <==> Before(start, today))
               else Shows(r, start, today) && !r.autoRenewed && r.renewalCount == 0 && r.timestamp == timestamp
  {
    hide ReadCycle, RenewFrom, LocalDate, DayNumber, EndOfDay;
    var start := LocalDate(timestamp, offset).value;
    DayNumberOrders(start, today);
    DayNumberOrders(today, start);
    if autoRenewal && ReadCycle(cycle).Every? {
      SettledShows(start, ReadCycle(cycle).cycle, today, MAX_RENEWALS, offset);
    }
  }

  lemma SettledShows(start: Date, cycle: RenewalCycle, today: Date, limit: nat, offset: int)
    requires ValidDate(start) && ValidDate(today) && cycle.count > 0
    ensures var due := RenewFrom(start, cycle, today, 0, limit);
            due.Settled? ==>
              && LocalDate(EndOfDay(due.date, offset), offset) == Some(due.date)
              && LocalDate(EndOfDay(due.date, offset) + 1, offset) != Some(due.date)
              && !Before(due.date, today) && DayNumber(due.date) >= DayNumber(today)
              && (due.date == today <==> DayNumber(due.date) == DayNumber(today))
              && (Before(today, due.date) <==> DayNumber(today) < DayNumber(due.date))
              && (due.count > 0 <==> Before(start, today))
  {
    hide RenewFrom, AddCycle, DayNumber, EndOfDay, LocalDate;
    RenewFromDescribes(start, cycle, today, 0, limit);
    var due := RenewFrom(start, cycle, today, 0, limit);
    if due.Settled? {
      EndsTheDay(due.date, offset);
      DayNumberOrders(due.date, today);
      DayNumberOrders(today, due.date);
      if due.count > 0 {
        PastIsDownwardClosed(start, cycle, today, due.count - 1, 0);
      }
    }
  }

  // ---------- what the renewal status tells ----------

  /** The cycle that a text names, and the local date to renew from. */
  predicate CanRenew(timestamp: int, cycle: string, offset: int) {
    ParseRenewalCycle(cycle).Some? && LocalDate(timestamp, offset).Some?
  }

  /** Some due date up to the limit is past and the calendar has no next one. */
  predicate RunsOutOfDates(timestamp: int, cycle: string, today: Date, offset: int)
    requires CanRenew(timestamp, cycle, offset)
  {
    exists k :: 0 <= k <= 1200 && RunsOut(LocalDate(timestamp, offset).value, ParseRenewalCycle(cycle).value, today, k)
  }

  predicate NotPast(start: Date, cycle: RenewalCycle, today: Date, k: nat)
    requires ValidDate(start)
  {
    DueDate(start, cycle, k).Some? && !Before(DueDate(start, cycle, k).value, today)
  }

  /** Some due date from the first to the last allowed renewal is not past. */
  predicate ReachesToday(timestamp: int, cycle: string, today: Date, offset: int)
    requires CanRenew(timestamp, cycle, offset)
  {
    exists k :: 1 <= k <= 1200 && NotPast(LocalDate(timestamp, offset).value, ParseRenewalCycle(cycle).value, today, k)
  }

  /** What each of the seven statuses says about a due timestamp and its renewal settings. */
  predicate Tells(status: RenewalStatus, timestamp: int, autoRenewal: bool, cycle: string, today: Date, offset: int)
    requires ValidDate(today)
  {
    && (status == Off <==> !autoRenewal)
    && (status == MissingCycle <==> autoRenewal && Text.Trim(cycle) == "")
    && (status == InvalidCycle <==>
        && autoRenewal && Text.Trim(cycle) != ""
        && (ParseRenewalCycle(cycle).None? || (CanRenew(timestamp, cycle, offset) && RunsOutOfDates(timestamp, cycle, today, offset))))
    && (status == InvalidDate <==>
        autoRenewal && ParseRenewalCycle(cycle).Some? && LocalDate(timestamp, offset).None?)
    && (status == TooManyCycles <==>
        && autoRenewal && CanRenew(timestamp, cycle, offset)
        && var start, every := LocalDate(timestamp, offset).value, ParseRenewalCycle(cycle).value;
           Past(start, every, today, 1200) && DueDate(start, every, 1201).Some?)
    && (status == Waiting <==>
        autoRenewal && CanRenew(timestamp, cycle, offset) && !Before(LocalDate(timestamp, offset).value, today))
    && (status == Renewed <==>
        && autoRenewal && CanRenew(timestamp, cycle, offset) && Before(LocalDate(timestamp, offset).value, today)
        && ReachesToday(timestamp, cycle, today, offset))
  }

  lemma BlankTextsNameNoCycle(cycle: string)
    ensures Text.Trim(cycle) == "" ==> ParseRenewalCycle(cycle).None?
    ensures ReadCycle(cycle) == match ParseRenewalCycle(cycle)
                                case Some(every) => Every(every)
                                case None => if Text.Trim(cycle) == "" then NoCycle else BadCycle
  {
  }

  /** The loop settles past its start if and only if some due date within the limit is not past. */
  lemma SettlesExactlyWhen(start: Date, cycle: RenewalCycle, today: Date, limit: nat)
    requires ValidDate(start) && cycle.count > 0 && Before(start, today)
    ensures RenewFrom(start, cycle, today, 0, limit).Settled? <==> exists k :: 1 <= k <= limit && NotPast(start, cycle, today, k)
    ensures var r := RenewFrom(start, cycle, today, 0, limit); r.Settled? ==> r.count > 0
  {
    hide RenewFrom, AddCycle;
    RenewFromDescribes(start, cycle, today, 0, limit);
    RenewalFailsExactlyWhen(start, cycle, today, limit);
    var r := RenewFrom(start, cycle, today, 0, limit);
    if r.Settled? {
      assert r.count > 0 by {
        assert DueDate(start, cycle, 0) == Some(start);
      }
      assert NotPast(start, cycle, today, r.count);
    }
    if k :| 1 <= k <= limit && NotPast(start, cycle, today, k) {
      if Past(start, cycle, today, limit) {
        PastIsDownwardClosed(start, cycle, today, limit, k);
      }
      forall j | 0 <= j <= limit
        ensures !RunsOut(start, cycle, today, j)
      {
        SettledNeverRunsOut(start, cycle, today, k, j);
      }
    }
  }

  lemma StartIsDue(start: Date, cycle: RenewalCycle, today: Date, limit: nat)
    requires ValidDate(start) && cycle.count > 0 && !Before(start, today)
    ensures RenewFrom(start, cycle, today, 0, limit) == Settled(start, 0)
  {
  }

  lemma DueTells(timestamp: int, autoRenewal: bool, cycle: string, today: Date, offset: int)
    requires ValidDate(today)
    ensures Tells(DueOn(timestamp, autoRenewal, cycle, today, offset).status, timestamp, autoRenewal, cycle, today, offset)
  {
    hide RenewFrom, ParseRenewalCycle, LocalDate, EndOfDay, ReadCycle, DueDate, Past, RunsOut, NotPast;
    BlankTextsNameNoCycle(cycle);
    if autoRenewal && CanRenew(timestamp, cycle, offset) {
      var start, every := LocalDate(timestamp, offset).value, ParseRenewalCycle(cycle).value;
      RenewalFailsExactlyWhen(start, every, today, MAX_RENEWALS);
      if Before(start, today) {
        SettlesExactlyWhen(start, every, today, MAX_RENEWALS);
      } else {
        StartIsDue(start, every, today, MAX_RENEWALS);
      }
    }
  }

  /** A record that is built tells how its renewal fared, status by status. */
  lemma BuiltStatusTells(timestamp: int, autoRenewal: bool, cycle: string, today: Date, offset: int)
    requires ValidDate(today)
    ensures Tells(Build(true, Some(ParsedTimestamp(timestamp)), autoRenewal, cycle, today, offset).renewalStatus,
                  timestamp, autoRenewal, cycle, today, offset)
  {
    hide DueOn, Tells, LocalDate;
    DueTells(timestamp, autoRenewal, cycle, today, offset);
  }

  /** So does a record that is refreshed, if its original timestamp is positive; else its status stays. */
  lemma RefreshedStatusTells(r: Record, today: Date, offset: int)
    requires ValidDate(today)
    ensures var status := Refresh(r, today, offset).renewalStatus;
            if r.originalTimestamp > 0 then Tells(status, r.originalTimestamp, r.autoRenewal, r.cycle, today, offset)
            else status == r.renewalStatus
  {
    hide DueOn, Tells, LocalDate;
    DueTells(r.originalTimestamp, r.autoRenewal, r.cycle, today, offset);
  }

  /** Without a date there is nothing to renew or refresh, and the status says why. */
  lemma UndatedRecordsStay(configured: bool, parsed: Option<ParsedExpire>, autoRenewal: bool, cycle: string, built: Date, today: Date, offset: int)
    requires ValidDate(built) && ValidDate(today) && (!configured || parsed.None? || parsed.value.ParsedPermanent?)
    ensures var r := Build(configured, parsed, autoRenewal, cycle, built, offset);
            && Refresh(r, today, offset) == r && r.configured == configured && r.date.None?
            && (r.status == NoDate <==> !configured) && (r.status == Unknown <==> configured && parsed.None?)
            && (r.status == Permanent <==> configured && parsed == Some(ParsedPermanent))
            && r.caption == match r.status case Unknown => InvalidCaption case Permanent => PermanentCaption case _ => Blank
  {
  }

  // ---------- cached equals fresh ----------

  function RefreshAll(r: Record, days: seq<Date>, offset: int): Record
    requires forall d :: d in days ==> ValidDate(d)
    decreases |days|
  {
    if days == [] then r else RefreshAll(Refresh(r, days[0], offset), days[1..], offset)
  }

  /** A renewed due date is representable unless the original is not, in which case it is the original. */
  lemma RenewedIsDated(r: Record, today: Date, offset: int)
    requires ValidDate(today)
    ensures var renewed := Renew(r, today, offset);
            && (LocalDate(renewed.timestamp, offset).None? <==> LocalDate(r.originalTimestamp, offset).None?)
            && (LocalDate(r.originalTimestamp, offset).None? ==> renewed.timestamp == r.originalTimestamp)
  {
    hide ReadCycle, RenewFrom, LocalDate, EndOfDay;
    var start := LocalDate(r.originalTimestamp, offset);
    if start.Some? && ReadCycle(r.cycle).Every? {
      SettledRoundTrip(start.value, ReadCycle(r.cycle).cycle, today, MAX_RENEWALS, offset);
    }
  }

  /** The two records agree on everything a refresh reads. */
  predicate SameTerms(a: Record, b: Record) {
    && a.configured == b.configured && a.originalTimestamp == b.originalTimestamp && a.originalDate == b.originalDate
    && a.autoRenewal == b.autoRenewal && a.cycle == b.cycle
  }

  /** Renewal reads the terms only, and leaves the description alone. */
  lemma RenewReadsTerms(a: Record, b: Record, today: Date, offset: int)
    requires ValidDate(today) && SameTerms(a, b)
    ensures Renew(a, today, offset) ==
            Renew(b, today, offset).(date := a.date, daysLeft := a.daysLeft, status := a.status, caption := a.caption)
    ensures SameTerms(Renew(a, today, offset), a)
  {
    hide DueOn;
  }

  /** The description is replaced whole, unless the date is not representable and it is left alone. */
  lemma DescribeReplaces(a: Record, b: Record, today: Date, offset: int)
    requires ValidDate(today)
    requires a == b.(date := a.date, daysLeft := a.daysLeft, status := a.status, caption := a.caption)
    ensures LocalDate(a.timestamp, offset).Some? ==> Describe(a, today, offset) == Describe(b, today, offset)
    ensures LocalDate(a.timestamp, offset).None? ==> Describe(a, today, offset) == a
    ensures SameTerms(Describe(a, today, offset), a)
  {
  }

  lemma UpdateKeepsTerms(r: Record, built: Date, offset: int)
    requires ValidDate(built)
    ensures SameTerms(Updated(r, built, offset), r)
    ensures LocalDate(r.originalTimestamp, offset).None? ==> Updated(r, built, offset) == Renew(r, built, offset)
  {
    var renewed := Renew(r, built, offset);
    RenewReadsTerms(r, r, built, offset);
    DescribeReplaces(renewed, renewed, built, offset);
    RenewedIsDated(r, built, offset);
  }

  /** An update forgets the day of the one before it. */
  lemma UpdateForgets(r: Record, built: Date, today: Date, offset: int)
    requires ValidDate(built) && ValidDate(today)
    ensures Updated(Updated(r, built, offset), today, offset) == Updated(r, today, offset)
  {
    UpdateKeepsTerms(r, built, offset);
    RenewedIsDated(r, today, offset);
    RenewReadsTerms(r, r, built, offset);
    var cached := Updated(r, built, offset);
    RenewReadsTerms(cached, r, today, offset);
    DescribeReplaces(Renew(cached, today, offset), Renew(r, today, offset), today, offset);
  }

  /**
  Cached equals fresh: for a positive original timestamp, any sequence of refreshes ending on a day gives
  the very record a fresh build gives on that day, whatever the renewal status.
  */
  lemma {:induction false} CachedEqualsFresh(
    timestamp: int, autoRenewal: bool, cycle: string, built: Date, days: seq<Date>, offset: int)
    requires ValidDate(built) && timestamp > 0 && days != [] && forall d :: d in days ==> ValidDate(d)
    ensures var parsed := Some(ParsedTimestamp(timestamp));
            RefreshAll(Build(true, parsed, autoRenewal, cycle, built, offset), days, offset) ==
            Build(true, parsed, autoRenewal, cycle, days[|days| - 1], offset)
    decreases |days|
  {
    var dated := Dated(timestamp, autoRenewal, cycle, offset);
    UpdateKeepsTerms(dated, built, offset);
    UpdateForgets(dated, built, days[0], offset);
    assert Refresh(Updated(dated, built, offset), days[0], offset) == Updated(dated, days[0], offset);
    if |days| > 1 {
      CachedEqualsFresh(timestamp, autoRenewal, cycle, days[0], days[1..], offset);
    }
  }

  /** A refresh forgets every refresh before it. */
  lemma RefreshForgets(r: Record, before: Date, today: Date, offset: int)
    requires ValidDate(before) && ValidDate(today)
    ensures Refresh(Refresh(r, before, offset), today, offset) == Refresh(r, today, offset)
  {
    if r.originalTimestamp > 0 {
      UpdateKeepsTerms(r, before, offset);
      UpdateForgets(r, before, today, offset);
    } else if r.timestamp > 0 {
      DescribeReplaces(Describe(r, before, offset), r, today, offset);
      DescribeReplaces(r, r, before, offset);
    }
  }

  /**
  For an original timestamp at or before the epoch, a later refresh agrees with a fresh build exactly when
  the day is the same, the date cannot be represented, or the cached due timestamp is positive and not past.
  */
  lemma RefreshIsFreshBeforeEpochExactlyWhen(
    timestamp: int, autoRenewal: bool, cycle: string, built: Date, today: Date, offset: int)
    requires ValidDate(built) && ValidDate(today) && !Before(today, built) && timestamp <= 0
    ensures var parsed := Some(ParsedTimestamp(timestamp));
            var cached := Build(true, parsed, autoRenewal, cycle, built, offset);
            Refresh(cached, today, offset) == Build(true, parsed, autoRenewal, cycle, today, offset) <==>
              || today == built
              || LocalDate(timestamp, offset).None?
              || (cached.timestamp > 0 && cached.date.Some? && !Before(cached.date.value, today))
  {
    var r := Dated(timestamp, autoRenewal, cycle, offset);
    UpdateKeepsTerms(r, built, offset);
    RenewedIsDated(r, built, offset);
    RenewedIsDated(r, today, offset);
    if LocalDate(timestamp, offset).None? {
      UpdateKeepsTerms(r, today, offset);
    } else {
      var cached := Updated(r, built, offset);
      if cached.timestamp > 0 {
        StaleWhenPast(r, built, today, offset);
      } else {
        StaleNextDay(r, built, today, offset);
      }
    }
  }

  /** A positive cached due date comes from a settled renewal; it stays right until it is past. */
  lemma StaleWhenPast(r: Record, built: Date, today: Date, offset: int)
    requires ValidDate(built) && ValidDate(today) && !Before(today, built) && r.originalTimestamp <= 0
    requires LocalDate(r.originalTimestamp, offset).Some? && Renew(r, built, offset).timestamp > 0
    ensures var renewed := Renew(r, built, offset);
            && LocalDate(renewed.timestamp, offset).Some?
            && (Describe(Updated(r, built, offset), today, offset) == Updated(r, today, offset) <==>
                !Before(LocalDate(renewed.timestamp, offset).value, today))
            && (today == built ==> !Before(LocalDate(renewed.timestamp, offset).value, today))
  {
    var start := LocalDate(r.originalTimestamp, offset).value;
    SettledUntilPast(start, ReadCycle(r.cycle).cycle, built, today, MAX_RENEWALS);
    SettledUntilPast(start, ReadCycle(r.cycle).cycle, built, built, MAX_RENEWALS);
    SettledRoundTrip(start, ReadCycle(r.cycle).cycle, built, MAX_RENEWALS, offset);
    SettledRoundTrip(start, ReadCycle(r.cycle).cycle, today, MAX_RENEWALS, offset);
    var renewed := Renew(r, built, offset);
    DescribeReplaces(Updated(r, built, offset), renewed, today, offset);
    DescriptionTells(renewed, Renew(r, today, offset), today, offset);
  }

  /** Different renewals show, whatever the description. */
  lemma DescriptionTells(a: Record, b: Record, today: Date, offset: int)
    requires ValidDate(today)
    ensures Describe(a, today, offset) == Describe(b, today, offset) ==>
              && a.timestamp == b.timestamp && a.renewalStatus == b.renewalStatus && a.renewalCount == b.renewalCount
  {
  }

  /** A record that is not refreshed keeps its old count of days. */
  lemma StaleNextDay(r: Record, built: Date, today: Date, offset: int)
    requires ValidDate(built) && ValidDate(today) && !Before(today, built)
    requires LocalDate(r.originalTimestamp, offset).Some?
    ensures Updated(r, built, offset) == Updated(r, today, offset) <==> today == built
  {
    RenewedIsDated(r, built, offset);
    RenewedIsDated(r, today, offset);
    DayNumberOrders(built, today);
    var a, b := Renew(r, built, offset), Renew(r, today, offset);
    if a.timestamp == b.timestamp {
      var date := LocalDate(a.timestamp, offset).value;
      assert Updated(r, built, offset).daysLeft == DayNumber(date) - DayNumber(built);
      assert Updated(r, today, offset).daysLeft == DayNumber(date) - DayNumber(today);
    }
  }

  lemma SettledRoundTrip(start: Date, cycle: RenewalCycle, today: Date, limit: nat, offset: int)
    requires ValidDate(start)
    ensures var r := RenewFrom(start, cycle, today, 0, limit);
            r.Settled? ==> LocalDate(EndOfDay(r.date, offset), offset) == Some(r.date)
  {
    var r := RenewFrom(start, cycle, today, 0, limit);
    if r.Settled? {
      EndsTheDay(r.date, offset);
    }
  }

  /** A settled due date stands until it is past, and then it is replaced. */
  lemma SettledUntilPast(start: Date, cycle: RenewalCycle, built: Date, today: Date, limit: nat)
    requires ValidDate(start) && cycle.count > 0 && !Before(today, built)
    ensures var r := RenewFrom(start, cycle, built, 0, limit);
            r.Settled? ==> (RenewFrom(start, cycle, today, 0, limit) == r <==> !Before(r.date, today))
    ensures var later := RenewFrom(start, cycle, today, 0, limit);
            later.Settled? ==> !Before(later.date, today)
  {
    hide RenewFrom, AddCycle;
    RenewFromDescribes(start, cycle, built, 0, limit);
    RenewFromDescribes(start, cycle, today, 0, limit);
    var r := RenewFrom(start, cycle, built, 0, limit);
    if r.Settled? && !Before(r.date, today) {
      SettlesAt(start, cycle, today, r.count, limit);
    }
  }

  lemma StaysPast(start: Date, cycle: RenewalCycle, today: Date, later: Date, k: nat)
    requires ValidDate(start) && !Before(later, today) && Past(start, cycle, today, k)
    ensures Past(start, cycle, later, k)
  {
    hide DueDate;
  }

  /** A renewal that fails fails on every later day, and its first date is past. */
  lemma FailureLasts(start: Date, cycle: RenewalCycle, today: Date, later: Date, limit: nat)
    requires ValidDate(start) && cycle.count > 0 && !Before(later, today)
    requires !RenewFrom(start, cycle, today, 0, limit).Settled?
    ensures !RenewFrom(start, cycle, later, 0, limit).Settled? && Before(start, today)
  {
    hide RenewFrom, DueDate, Past;
    RenewalFailsExactlyWhen(start, cycle, today, limit);
    RenewalFailsExactlyWhen(start, cycle, later, limit);
    if RenewFrom(start, cycle, today, 0, limit).TooMany? {
      StaysPast(start, cycle, today, later, limit);
      FirstIsPast(start, cycle, today, limit);
    } else {
      var k :| 0 <= k <= limit && RunsOut(start, cycle, today, k);
      StaysPast(start, cycle, today, later, k);
      assert RunsOut(start, cycle, later, k);
      FirstIsPast(start, cycle, today, k);
    }
  }

  lemma FirstIsPast(start: Date, cycle: RenewalCycle, today: Date, k: nat)
    requires ValidDate(start) && cycle.count > 0 && Past(start, cycle, today, k)
    ensures Before(start, today)
  {
    PastIsDownwardClosed(start, cycle, today, k, 0);
  }

  /** If the due date at `count` is the first not past, the loop settles on it. */
  lemma SettlesAt(start: Date, cycle: RenewalCycle, today: Date, count: nat, limit: nat)
    requires ValidDate(start) && cycle.count > 0 && count <= limit && DueDate(start, cycle, count).Some?
    requires !Before(DueDate(start, cycle, count).value, today) && (count > 0 ==> Past(start, cycle, today, count - 1))
    ensures RenewFrom(start, cycle, today, 0, limit) == Settled(DueDate(start, cycle, count).value, count)
  {
    SettlesFrom(start, cycle, today, count, 0, limit);
  }

  lemma {:induction false} SettlesFrom(start: Date, cycle: RenewalCycle, today: Date, count: nat, from: nat, limit: nat)
    requires ValidDate(start) && cycle.count > 0 && from <= count <= limit && DueDate(start, cycle, count).Some?
    requires !Before(DueDate(start, cycle, count).value, today) && (count > 0 ==> Past(start, cycle, today, count - 1))
    ensures DueDate(start, cycle, from).Some?
    ensures RenewFrom(DueDate(start, cycle, from).value, cycle, today, from, limit) == Settled(DueDate(start, cycle, count).value, count)
    decreases count - from
  {
    hide AddCycle, DayNumber;
    if from < count {
      PastIsDownwardClosed(start, cycle, today, count - 1, from);
      AddCycleMovesForward(DueDate(start, cycle, from).value, cycle);
      SettlesFrom(start, cycle, today, count, from + 1, limit);
    }
  }

  /** For instance, a date of 1970-01-01 (UTC) without renewal keeps yesterday's count of days. */
  lemma EpochDateGoesStale()
    ensures var parsed := Some(ParsedTimestamp(0));
            var built, today := Date(2024, 1, 1), Date(2024, 1, 2);
            Refresh(Build(true, parsed, false, "", built, 0), today, 0) != Build(true, parsed, false, "", today, 0)
  {
    RefreshIsFreshBeforeEpochExactlyWhen(0, false, "", Date(2024, 1, 1), Date(2024, 1, 2), 0);
    DateOfInverse(EPOCH_DAY, Date(1970, 1, 1));
    EpochDayIsUnixEpoch();
  }
}
