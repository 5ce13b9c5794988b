/**
Whole runs of the alert timers: any interleaving of timer passes, reports, prunes and purges.  Each timer
sees a run as a sequence of observations, and the promises about timing, recovery and repetition are
proved over all such sequences.
*/
module AlertRuns {
  import opened Wrappers
  import opened Text
  import opened Payload
  import opened RuntimeState
  import opened Settings
  import opened Alerts

  datatype Event =
    | Tick(stat: HostStat, now: nat, threshold: nat, rules: seq<AlertRule>, groups: seq<ServerGroup>, lost: set<string>)
    | Report(before: Option<nat>, stat: HostStat, threshold: nat, rules: seq<AlertRule>, groups: seq<ServerGroup>)
    | PruneAlerts(activeRules: set<string>, activeHosts: set<string>)
    | PurgeHosts(hosts: set<string>)

  /** The report thread looks for recoveries only if the host was stale when this report arrived. */
  predicate EndsOutage(before: Option<nat>, stat: HostStat, threshold: nat) {
    before.Some? && stat.notify && before.value + threshold < stat.latestTs
  }

  function AfterTick(m: AlertMap, e: Event): AlertMap
    requires e.Tick?
  {
    var (events, states) := Collect(MarkOfflineIfStale(e.stat, e.now, e.threshold), e.now, e.rules, e.groups, m);
    MarkSent(states, events, e.lost, e.now)
  }

  function After(m: AlertMap, e: Event): AlertMap {
    match e
    case Tick(_, _, _, _, _, _) => AfterTick(m, e)
    case Report(before, stat, threshold, rules, groups) =>
      if EndsOutage(before, stat, threshold) then Take(stat, rules, groups, m).1 else m
    case PruneAlerts(rules, hosts) => Pruned(State(map[], m), rules, hosts).alerts
    case PurgeHosts(hosts) => Purged(State(map[], m), hosts).alerts
  }

  /** The event hands an alert with this key to the notifier. */
  predicate Enqueues(m: AlertMap, e: Event, key: string) {
    && e.Tick?
    && Fires(Collect(MarkOfflineIfStale(e.stat, e.now, e.threshold), e.now, e.rules, e.groups, m).0, key)
    && key !in e.lost
  }

  /** The recovery routes sent while an event is processed. */
  function RoutesOf(m: AlertMap, e: Event): seq<Route> {
    if e.Report? && EndsOutage(e.before, e.stat, e.threshold) then Take(e.stat, e.rules, e.groups, m).0 else []
  }

  function RunEvents(m: AlertMap, es: seq<Event>): AlertMap
    decreases |es|
  {
    if es == [] then m else RunEvents(After(m, es[0]), es[1..])
  }

  function EnqueueTimes(m: AlertMap, es: seq<Event>, key: string): seq<nat>
    decreases |es|
  {
    if es == [] then []
    else
      var rest := EnqueueTimes(After(m, es[0]), es[1..], key);
      if Enqueues(m, es[0], key) then [es[0].now] + rest else rest
  }

  // ---------- what one timer sees ----------

  datatype Obs = Untouched | Seen(stat: HostStat, now: nat, sent: bool) | Dropped | Recovered

  function Observe(e: Event, host: string, rule: AlertRule): Obs {
    match e
    case Tick(stat, now, threshold, rules, groups, lost) =>
      var seen := MarkOfflineIfStale(stat, now, threshold);
      if stat.name == host && Evaluates(seen, rules, groups, rule)
      then Seen(seen, now, AlertKey(host, rule.id) !in lost) else Untouched
    case Report(before, stat, threshold, rules, groups) =>
      if stat.name == host && IsOffline(rule) && EndsOutage(before, stat, threshold) && Evaluates(stat, rules, groups, rule)
      then Recovered else Untouched
    case PruneAlerts(rules, hosts) => if host in hosts && rule.id in rules then Untouched else Dropped
    case PurgeHosts(hosts) => if host in hosts then Dropped else Untouched
  }

  function ObsStep(timer: Option<AlertState>, o: Obs, rule: AlertRule): (Option<AlertState>, bool) {
    match o
    case Untouched => (timer, false)
    case Dropped => (None, false)
    case Recovered => (if timer.Some? then Some(CLEARED) else None, false)
    case Seen(stat, now, sent) =>
      var (next, fires) := RuleStep(timer, stat, now, rule);
      if fires && sent && next.Some? then (Some(next.value.(lastEnqueuedAt := now)), true) else (next, false)
  }

  function ObsRun(timer: Option<AlertState>, obs: seq<Obs>, rule: AlertRule): Option<AlertState>
    decreases |obs|
  {
    if obs == [] then timer else ObsRun(ObsStep(timer, obs[0], rule).0, obs[1..], rule)
  }

  function ObsTimes(timer: Option<AlertState>, obs: seq<Obs>, rule: AlertRule): seq<nat>
    decreases |obs|
  {
    if obs == [] then []
    else
      var (next, sends) := ObsStep(timer, obs[0], rule);
      var rest := ObsTimes(next, obs[1..], rule);
      if sends && obs[0].Seen? then [obs[0].now] + rest else rest
  }

  /** Rule ids are distinct and colon-free, and this rule keeps its settings. */
  predicate Coherent(e: Event, rule: AlertRule) {
    && ':' !in rule.id
    && (e.Tick? || e.Report? ==>
          && UniqueIds(e.rules)
          && forall r :: r in e.rules ==> ':' !in r.id && (r.id == rule.id ==> r == rule))
  }

  function Observations(es: seq<Event>, host: string, rule: AlertRule): seq<Obs> {
    seq(|es|, i requires 0 <= i < |es| => Observe(es[i], host, rule))
  }

  lemma KeysDiffer(host: string, rule: string, host': string, rule': string)
    requires ':' !in rule && ':' !in rule'
    ensures AlertKey(host, rule) == AlertKey(host', rule') <==> host == host' && rule == rule'
  {
    AlertKeySplits(host, rule);
    AlertKeySplits(host', rule');
  }

  lemma OwnKeyOnly(host: string, rule: AlertRule, stat: HostStat, rules: seq<AlertRule>, i: nat)
    requires i < |rules| && ':' !in rule.id && forall r :: r in rules ==> ':' !in r.id && (r.id == rule.id ==> r == rule)
    ensures AlertKey(stat.name, rules[i].id) == AlertKey(host, rule.id) <==> stat.name == host && rules[i] == rule
  {
    KeysDiffer(stat.name, rules[i].id, host, rule.id);
  }

  lemma TickByKey(m: AlertMap, e: Event, host: string, rule: AlertRule)
    requires e.Tick? && Coherent(e, rule)
    ensures var key := AlertKey(host, rule.id);
            (Get(After(m, e), key), Enqueues(m, e, key)) == ObsStep(Get(m, key), Observe(e, host, rule), rule)
  {
    var key := AlertKey(host, rule.id);
    var seen := MarkOfflineIfStale(e.stat, e.now, e.threshold);
    var (events, states) := Collect(seen, e.now, e.rules, e.groups, m);
    MarkSentByKey(states, events, e.lost, e.now, key);
    if seen.name == host && Evaluates(seen, e.rules, e.groups, rule) {
      CollectByKey(seen, e.now, e.rules, e.groups, m, rule);
      assert RuleStep(Get(m, key), seen, e.now, rule).1 ==> RuleStep(Get(m, key), seen, e.now, rule).0.Some?;
    } else if seen.notify {
      forall i | 0 <= i < |e.rules| && Applies(e.rules[i], seen, e.groups)
        ensures AlertKey(seen.name, e.rules[i].id) != key
      {
        OwnKeyOnly(host, rule, seen, e.rules, i);
      }
      CollectLeavesOthers(seen, e.now, e.rules, e.groups, m, key);
    }
  }

  lemma ReportByKey(m: AlertMap, e: Event, host: string, rule: AlertRule)
    requires e.Report? && Coherent(e, rule)
    ensures var key := AlertKey(host, rule.id);
            (Get(After(m, e), key), false) == ObsStep(Get(m, key), Observe(e, host, rule), rule)
  {
    var key := AlertKey(host, rule.id);
    if EndsOutage(e.before, e.stat, e.threshold) {
      if e.stat.name == host && IsOffline(rule) && Evaluates(e.stat, e.rules, e.groups, rule) {
        TakeClears(e.stat, e.rules, e.groups, m, rule);
      } else {
        forall i | 0 <= i < |e.rules| && IsOffline(e.rules[i]) && Applies(e.rules[i], e.stat, e.groups)
          ensures AlertKey(e.stat.name, e.rules[i].id) != key
        {
          OwnKeyOnly(host, rule, e.stat, e.rules, i);
        }
        TakeLeavesOthers(e.stat, e.rules, e.groups, m, key);
      }
    }
  }

  /** The map of timers is a product: on each key an event acts as the timer's own step. */
  lemma EventByKey(m: AlertMap, e: Event, host: string, rule: AlertRule)
    requires Coherent(e, rule)
    ensures var key := AlertKey(host, rule.id);
            (Get(After(m, e), key), Enqueues(m, e, key)) == ObsStep(Get(m, key), Observe(e, host, rule), rule)
  {
    match e {
      case Tick(_, _, _, _, _, _) => TickByKey(m, e, host, rule);
      case Report(_, _, _, _, _) => ReportByKey(m, e, host, rule);
      case _ => AlertKeySplits(host, rule.id);
    }
  }

  lemma {:induction false} RunByKey(m: AlertMap, es: seq<Event>, host: string, rule: AlertRule)
    requires forall e :: e in es ==> Coherent(e, rule)
    ensures var key := AlertKey(host, rule.id);
            var obs := Observations(es, host, rule);
            && Get(RunEvents(m, es), key) == ObsRun(Get(m, key), obs, rule)
            && EnqueueTimes(m, es, key) == ObsTimes(Get(m, key), obs, rule)
    decreases |es|
  {
    if es != [] {
      EventByKey(m, es[0], host, rule);
      RunByKey(After(m, es[0]), es[1..], host, rule);
      assert Observations(es, host, rule)[1..] == Observations(es[1..], host, rule);
    }
  }

  // ---------- offline alerts are spaced out ----------

  /** Nothing ends the outage: the timer is left alone or sees the host offline, never before `start`. */
  predicate OutageFrom(obs: seq<Obs>, start: nat) {
    forall i :: 0 <= i < |obs| ==> obs[i].Untouched? || (obs[i].Seen? && !obs[i].stat.Online() && obs[i].now >= start)
  }

  predicate SpacedFrom(times: seq<nat>, bound: nat, gap: nat) {
    times == [] || (times[0] >= bound && SpacedFrom(times[1..], times[0] + gap, gap))
  }

  lemma {:induction false} SpacedClosedForm(times: seq<nat>, bound: nat, gap: nat, k: nat)
    requires SpacedFrom(times, bound, gap) && k < |times|
    ensures times[k] >= bound + k * gap
    decreases k
  {
    if k > 0 {
      SpacedClosedForm(times[1..], times[0] + gap, gap, k - 1);
      assert (k - 1) * gap + gap == k * gap;
    }
  }

  /** The earliest time the next alert may go out. */
  predicate NextBound(timer: Option<AlertState>, rule: AlertRule, start: nat, bound: nat) {
    if timer.None? || timer.value.lastEnqueuedAt == 0
    then bound == start + rule.duration && (timer.Some? ==> timer.value.since == 0 || timer.value.since >= start)
    else bound == timer.value.lastEnqueuedAt + rule.repeatInterval + 1
  }

  lemma {:induction false} OutageSpaced(timer: Option<AlertState>, obs: seq<Obs>, rule: AlertRule, start: nat, bound: nat)
    requires IsOffline(rule) && start > 0 && OutageFrom(obs, start) && NextBound(timer, rule, start, bound)
    ensures SpacedFrom(ObsTimes(timer, obs, rule), bound, rule.repeatInterval + 1)
    decreases |obs|
  {
    if obs != [] {
      var (next, sends) := ObsStep(timer, obs[0], rule);
      var bound' := if sends && obs[0].Seen? then obs[0].now + rule.repeatInterval + 1 else bound;
      OutageSpaced(next, obs[1..], rule, start, bound');
      assert sends ==> ObsTimes(timer, obs, rule)[1..] == ObsTimes(next, obs[1..], rule);
    }
  }

  /**
  In any run in which an outage first seen at `start` is not ended, the k-th alert (from zero) goes out no
  earlier than start + duration + k * (repeat + 1).
  */
  lemma OfflineAlertsSpaced(m: AlertMap, es: seq<Event>, host: string, rule: AlertRule, start: nat, k: nat)
    requires IsOffline(rule) && start > 0
    requires forall e :: e in es ==> Coherent(e, rule)
    requires OutageFrom(Observations(es, host, rule), start)
    requires var key := AlertKey(host, rule.id); key in m ==> m[key] == CLEARED
    requires k < |EnqueueTimes(m, es, AlertKey(host, rule.id))|
    ensures EnqueueTimes(m, es, AlertKey(host, rule.id))[k] >= start + rule.duration + k * (rule.repeatInterval + 1)
  {
    var key := AlertKey(host, rule.id);
    RunByKey(m, es, host, rule);
    OutageSpaced(Get(m, key), Observations(es, host, rule), rule, start, start + rule.duration);
    SpacedClosedForm(EnqueueTimes(m, es, key), start + rule.duration, rule.repeatInterval + 1, k);
  }

  // ---------- and sent as soon as allowed ----------

  /** The times a timer is evaluated. */
  function Evaluations(obs: seq<Obs>): seq<nat> {
    if obs == [] then []
    else if obs[0].Seen? then [obs[0].now] + Evaluations(obs[1..])
    else Evaluations(obs[1..])
  }

  /** Take the first time at or after the bound, then the first at least `gap` later, and so on. */
  function Greedy(times: seq<nat>, bound: nat, gap: nat): seq<nat> {
    if times == [] then []
    else if times[0] >= bound then [times[0]] + Greedy(times[1..], times[0] + gap, gap)
    else Greedy(times[1..], bound, gap)
  }

  /** The channel accepts everything and the host sends nothing after `start`. */
  predicate SilentOutage(obs: seq<Obs>, start: nat) {
    && OutageFrom(obs, start)
    && forall i :: 0 <= i < |obs| && obs[i].Seen? ==> obs[i].sent && obs[i].stat.latestTs < start
  }

  lemma {:induction false} OutagePrompt(timer: AlertState, obs: seq<Obs>, rule: AlertRule, bound: nat)
    requires IsOffline(rule) && timer.since > 0 && SilentOutage(obs, timer.since)
    requires NextBound(Some(timer), rule, timer.since, bound) && bound >= timer.since + rule.duration
    ensures ObsTimes(Some(timer), obs, rule) == Greedy(Evaluations(obs), bound, rule.repeatInterval + 1)
    decreases |obs|
  {
    if obs != [] {
      var (next, sends) := ObsStep(Some(timer), obs[0], rule);
      var bound' := if sends && obs[0].Seen? then obs[0].now + rule.repeatInterval + 1 else bound;
      OutagePrompt(next.value, obs[1..], rule, bound');
      assert obs[0].Seen? ==> Evaluations(obs)[1..] == Evaluations(obs[1..]);
    }
  }

  /**
  While the host stays silent and the channel accepts, each alert goes out at the first evaluation that
  reaches its bound: the first one `duration` after the outage was seen, each next one more than `repeat`
  after the last.
  */
  lemma OfflineAlertsPrompt(m: AlertMap, es: seq<Event>, host: string, rule: AlertRule, start: nat)
    requires IsOffline(rule) && start > 0 && es != []
    requires forall e :: e in es ==> Coherent(e, rule)
    requires var obs := Observations(es, host, rule); SilentOutage(obs, start) && obs[0].Seen? && obs[0].now == start
    requires var key := AlertKey(host, rule.id); key in m ==> m[key] == CLEARED
    ensures EnqueueTimes(m, es, AlertKey(host, rule.id)) ==
            Greedy(Evaluations(Observations(es, host, rule)), start + rule.duration, rule.repeatInterval + 1)
  {
    hide EnqueueTimes, AlertKey;
    var obs := Observations(es, host, rule);
    var key := AlertKey(host, rule.id);
    RunByKey(m, es, host, rule);
    var (next, sends) := ObsStep(Get(m, key), obs[0], rule);
    var bound := if sends then start + rule.repeatInterval + 1 else start + rule.duration;
    OutagePrompt(next.value, obs[1..], rule, bound);
  }

  // ---------- recovery pairs with delivery ----------

  /** The observation starts the timer afresh. */
  predicate Clears(o: Obs) {
    o.Dropped? || o.Recovered? || (o.Seen? && o.stat.Online())
  }

  /** An alert was enqueued since the timer was last cleared; `outstanding` says so before the run. */
  function Outstanding(outstanding: bool, timer: Option<AlertState>, obs: seq<Obs>, rule: AlertRule): bool
    decreases |obs|
  {
    if obs == [] then outstanding
    else
      var (next, sends) := ObsStep(timer, obs[0], rule);
      Outstanding(if sends then true else if Clears(obs[0]) then false else outstanding, next, obs[1..], rule)
  }

  predicate WasDelivered(timer: Option<AlertState>) {
    timer.Some? && timer.value.lastEnqueuedAt != 0
  }

  lemma {:induction false} DeliveredMeansOutstanding(timer: Option<AlertState>, obs: seq<Obs>, rule: AlertRule)
    requires IsOffline(rule) && forall i :: 0 <= i < |obs| && obs[i].Seen? ==> obs[i].now > 0
    ensures WasDelivered(ObsRun(timer, obs, rule)) <==> Outstanding(WasDelivered(timer), timer, obs, rule)
    decreases |obs|
  {
    if obs != [] {
      DeliveredMeansOutstanding(ObsStep(timer, obs[0], rule).0, obs[1..], rule);
    }
  }

  predicate OwesRecovery(m: AlertMap, es: seq<Event>, e: Event, i: nat)
    requires e.Report? && i < |e.rules|
  {
    var rule := e.rules[i];
    var timer := Get(m, AlertKey(e.stat.name, rule.id));
    && IsOffline(rule) && Applies(rule, e.stat, e.groups)
    && Outstanding(WasDelivered(timer), timer, Observations(es, e.stat.name, rule), rule)
  }

  predicate ClockPositive(es: seq<Event>) {
    forall e :: e in es && e.Tick? ==> e.now > 0
  }

  /**
  After any run, a report that ends an outage sends a route exactly when it belongs to an active,
  applicable offline rule with an alert enqueued since its timer was last cleared, and sends it once.
  */
  lemma RecoveryPairsWithDelivery(m: AlertMap, es: seq<Event>, e: Event, route: Route)
    requires e.Report? && EndsOutage(e.before, e.stat, e.threshold) && UniqueIds(e.rules) && ClockPositive(es)
    requires forall i, past :: 0 <= i < |e.rules| && past in es ==> Coherent(past, e.rules[i])
    ensures NoDuplicates(RoutesOf(RunEvents(m, es), e))
    ensures route in RoutesOf(RunEvents(m, es), e) <==>
            exists i :: 0 <= i < |e.rules| && OwesRecovery(m, es, e, i) && RouteOf(e.rules[i]) == route
  {
    var now := RunEvents(m, es);
    TakeRoutesExact(e.stat, e.rules, e.groups, now, route);
    forall i | 0 <= i < |e.rules|
      ensures Delivered(e.stat, e.groups, now, e.rules[i]) <==> OwesRecovery(m, es, e, i)
    {
      var rule := e.rules[i];
      if IsOffline(rule) {
        RunByKey(m, es, e.stat.name, rule);
        DeliveredMeansOutstanding(Get(m, AlertKey(e.stat.name, rule.id)), Observations(es, e.stat.name, rule), rule);
      }
    }
  }

  /** Events that leave this host's outage and this rule in force. */
  predicate KeepsOutage(e: Event, host: string, rule: AlertRule, latest: nat, since: nat) {
    match e
    case Tick(stat, now, _, _, _, _) => stat.name == host ==> stat.latestTs == latest && now >= since
    case Report(_, stat, _, _, _) => stat.name != host
    case PruneAlerts(rules, hosts) => host in hosts && rule.id in rules
    case PurgeHosts(hosts) => host !in hosts
  }

  lemma {:induction false} OutageKeepsDelivery(
    m: AlertMap, es: seq<Event>, host: string, rule: AlertRule, latest: nat, since: nat, threshold: nat)
    requires IsOffline(rule) && latest + threshold < since
    requires forall e :: e in es ==> Coherent(e, rule) && KeepsOutage(e, host, rule, latest, since)
    requires forall e :: e in es && e.Tick? ==> e.threshold == threshold
    requires WasDelivered(Get(m, AlertKey(host, rule.id)))
    ensures WasDelivered(Get(RunEvents(m, es), AlertKey(host, rule.id)))
    decreases |es|
  {
    if es != [] {
      EventByKey(m, es[0], host, rule);
      assert es[0] in es;
      OutageKeepsDelivery(After(m, es[0]), es[1..], host, rule, latest, since, threshold);
    }
  }

  /**
  If a tick enqueues an offline alert for a stale host, then whatever the timer does until the host next
  reports, that report passes its own staleness test and sends the rule's route once, and a second report
  finds nothing left to send for the rule.
  */
  lemma StaleAlertIsRecovered(m: AlertMap, tick: Event, between: seq<Event>, report: Event, rule: AlertRule)
    requires tick.Tick? && report.Report? && report.stat.name == tick.stat.name && report.stat.notify
    requires IsOffline(rule) && Enqueues(m, tick, AlertKey(tick.stat.name, rule.id)) && tick.now > 0
    requires Coherent(tick, rule) && Coherent(report, rule)
    requires tick.stat.latestTs + tick.threshold < tick.now <= report.stat.latestTs
    requires report.before == Some(tick.stat.latestTs) && report.threshold == tick.threshold
    requires rule in report.rules && Applies(rule, report.stat, report.groups)
    requires forall e :: e in between ==>
               Coherent(e, rule) && KeepsOutage(e, tick.stat.name, rule, tick.stat.latestTs, tick.now)
    requires forall e :: e in between && e.Tick? ==> e.threshold == tick.threshold
    ensures var reached := RunEvents(After(m, tick), between);
            var routes := RoutesOf(reached, report);
            && RouteOf(rule) in routes && NoDuplicates(routes)
            && !WasDelivered(Get(After(reached, report), AlertKey(tick.stat.name, rule.id)))
  {
    var host := tick.stat.name;
    EventByKey(m, tick, host, rule);
    OutageKeepsDelivery(After(m, tick), between, host, rule, tick.stat.latestTs, tick.now, tick.threshold);
    var reached := RunEvents(After(m, tick), between);
    TakeRoutesExact(report.stat, report.rules, report.groups, reached, RouteOf(rule));
    var i :| 0 <= i < |report.rules| && report.rules[i] == rule;
    assert Delivered(report.stat, report.groups, reached, report.rules[i]);
    EventByKey(reached, report, host, rule);
  }

  /**
  The staleness test is what decides: a host that itself reports "offline" can raise an alert without ever
  being stale, and then its next report sends no recovery, although the alert had been delivered.
  */
  lemma DeliveredAlertIsRecoveredExactlyWhenStale(m: AlertMap, report: Event, rule: AlertRule)
    requires report.Report? && report.before.Some? && report.stat.notify && UniqueIds(report.rules)
    requires rule in report.rules && Delivered(report.stat, report.groups, m, rule)
    ensures RouteOf(rule) in RoutesOf(m, report) <==> report.before.value + report.threshold < report.stat.latestTs
  {
    TakeRoutesExact(report.stat, report.rules, report.groups, m, RouteOf(rule));
    var i :| 0 <= i < |report.rules| && report.rules[i] == rule;
    assert Delivered(report.stat, report.groups, m, report.rules[i]);
  }

  /** One rule for every host, one host that reports itself offline and later online, and when it is looked at. */
  datatype Episode = Episode(rule: AlertRule, down: HostStat, up: HostStat, first: nat, second: nat, third: nat, threshold: nat)
  {
    predicate NeverStale() {
      && IsOffline(rule) && ':' !in rule.id && rule.servers == [] && rule.serverGroups == []
      && down.notify && !down.Online() && up.notify && up.Online() && up.name == down.name
      && rule.duration > 0 && down.latestTs < first && first + rule.duration <= second
      && down.latestTs <= up.latestTs <= down.latestTs + threshold && third <= up.latestTs + threshold
    }

    function Look(stat: HostStat, now: nat): Event {
      Tick(stat, now, threshold, [rule], [], {})
    }

    function Return(): Event {
      Report(Some(down.latestTs), up, threshold, [rule], [])
    }

    function Key(): string {
      AlertKey(down.name, rule.id)
    }
  }

  lemma OneRuleIsCoherent(rule: AlertRule, e: Event)
    requires ':' !in rule.id && (e.Tick? || e.Report? ==> e.rules == [rule])
    ensures Coherent(e, rule)
  {
  }

  lemma OfflineLook(ep: Episode, m: AlertMap, now: nat)
    requires ep.NeverStale() && now > 0
    ensures var e := ep.Look(ep.down, now);
            && (Get(After(m, e), ep.Key()), Enqueues(m, e, ep.Key()))
               == ObsStep(Get(m, ep.Key()), Observe(e, ep.down.name, ep.rule), ep.rule)
            && Observe(e, ep.down.name, ep.rule).Seen? && Observe(e, ep.down.name, ep.rule).sent
            && Observe(e, ep.down.name, ep.rule).now == now
            && !Observe(e, ep.down.name, ep.rule).stat.Online()
            && Observe(e, ep.down.name, ep.rule).stat.latestTs == ep.down.latestTs
  {
    hide After, Enqueues;
    var e := ep.Look(ep.down, now);
    OneRuleIsCoherent(ep.rule, e);
    EventByKey(m, e, ep.down.name, ep.rule);
  }

  lemma OnlineLook(ep: Episode, m: AlertMap)
    requires ep.NeverStale()
    ensures Get(After(m, ep.Look(ep.up, ep.third)), ep.Key()) == Some(CLEARED)
  {
    hide After, Enqueues;
    var e := ep.Look(ep.up, ep.third);
    OneRuleIsCoherent(ep.rule, e);
    EventByKey(m, e, ep.down.name, ep.rule);
  }

  /**
  A host that reports itself offline, and back online before it was ever stale, gets its offline alert and no
  recovery: its report sends none, and the next look clears the timer.
  */
  lemma SelfReportedOutageIsNotRecovered(ep: Episode)
    requires ep.NeverStale()
    ensures var seen := After(map[], ep.Look(ep.down, ep.first));
            var alerted := After(seen, ep.Look(ep.down, ep.second));
            && Enqueues(seen, ep.Look(ep.down, ep.second), ep.Key())
            && WasDelivered(Get(alerted, ep.Key()))
            && RoutesOf(alerted, ep.Return()) == []
            && !WasDelivered(Get(After(After(alerted, ep.Return()), ep.Look(ep.up, ep.third)), ep.Key()))
  {
    hide After, Enqueues, Observe;
    var seen := After(map[], ep.Look(ep.down, ep.first));
    var alerted := After(seen, ep.Look(ep.down, ep.second));
    OfflineLook(ep, map[], ep.first);
    OfflineLook(ep, seen, ep.second);
    OnlineLook(ep, After(alerted, ep.Return()));
  }

  /** For instance: offline at 100, looked at at 101 and 131, online at 140, looked at at 141, stale after 60 seconds. */
  function SelfReported(): (ep: Episode)
    ensures ep.NeverStale()
  {
    var down := HostStat("h", "h", "g", true, false, false, false, 0, 0, 100, 0.0, 0.0, 0.0, 0.0, 0, 0, 0, 0);
    Episode(AlertRule("r", "r", true, "offline", None, 30, 3600, "", ["tg"], [], []),
            down, down.(online4 := true, latestTs := 140), 101, 131, 141, 60)
  }

  lemma ReportedOfflineHostIsNeverRecovered()
    ensures var ep := SelfReported();
            var seen := After(map[], ep.Look(ep.down, ep.first));
            var alerted := After(seen, ep.Look(ep.down, ep.second));
            && Enqueues(seen, ep.Look(ep.down, ep.second), ep.Key())
            && RoutesOf(alerted, ep.Return()) == []
            && !WasDelivered(Get(After(After(alerted, ep.Return()), ep.Look(ep.up, ep.third)), ep.Key()))
  {
    hide After, Enqueues, RoutesOf, WasDelivered, SelfReported;
    SelfReportedOutageIsNotRecovered(SelfReported());
  }

  // ---------- usage alerts fire once per excursion ----------

  /** The rule was evaluated with the host online and its metric above the threshold. */
  predicate Above(o: Obs, rule: AlertRule) {
    o.Seen? && AboveThreshold(o.stat, rule)
  }

  lemma AboveIsRead(o: Obs, rule: AlertRule)
    ensures Above(o, rule) <==>
            o.Seen? && Reading(rule, o.stat).Some? && Reading(rule, o.stat).value.0 > Reading(rule, o.stat).value.1
  {
    hide AboveThreshold, Measured, Reading;
    if o.Seen? {
      ReadingIsReported(o.stat, rule);
    }
  }

  predicate AboveOrUntouched(o: Obs, rule: AlertRule) {
    o.Untouched? || Above(o, rule)
  }

  predicate SendsAt(timer: Option<AlertState>, obs: seq<Obs>, rule: AlertRule, i: nat)
    requires i < |obs|
  {
    ObsStep(ObsRun(timer, obs[..i], rule), obs[i], rule).1
  }

  lemma {:induction false} ObsRunSnoc(timer: Option<AlertState>, obs: seq<Obs>, rule: AlertRule, n: nat)
    requires n < |obs|
    ensures ObsRun(timer, obs[..n + 1], rule) == ObsStep(ObsRun(timer, obs[..n], rule), obs[n], rule).0
    decreases n
  {
    if n > 0 {
      assert obs[..n + 1][1..] == obs[1..][..n] && obs[..n][1..] == obs[1..][..n - 1];
      ObsRunSnoc(ObsStep(timer, obs[0], rule).0, obs[1..], rule, n - 1);
    } else {
      assert obs[..1] == [obs[0]] && obs[..0] == [];
    }
  }

  /** The excursion that a running timer measures began at observation `j`. */
  predicate ExcursionSince(obs: seq<Obs>, rule: AlertRule, j: int, n: nat, since: nat) {
    && 0 <= j < n <= |obs|
    && Above(obs[j], rule) && obs[j].now == since
    && forall k :: j <= k < n ==> AboveOrUntouched(obs[k], rule)
  }

  lemma {:induction false} RunningTimerHasExcursion(timer: Option<AlertState>, obs: seq<Obs>, rule: AlertRule, n: nat)
    requires !IsOffline(rule) && (timer.Some? ==> timer.value == CLEARED)
    requires n <= |obs| && forall i :: 0 <= i < |obs| ==> !obs[i].Recovered? && (obs[i].Seen? ==> obs[i].now > 0)
    ensures var t := ObsRun(timer, obs[..n], rule);
            t.Some? && t.value.since != 0 ==> exists j :: ExcursionSince(obs, rule, j, n, t.value.since)
    ensures var t := ObsRun(timer, obs[..n], rule);
            t.Some? && t.value.since == 0 ==> t.value == CLEARED
    decreases n
  {
    hide Reading, Above;
    if n == 0 {
      assert obs[..0] == [];
    } else {
      AboveIsRead(obs[n - 1], rule);
      RunningTimerHasExcursion(timer, obs, rule, n - 1);
      ObsRunSnoc(timer, obs, rule, n - 1);
      var before := ObsRun(timer, obs[..n - 1], rule);
      var t := ObsRun(timer, obs[..n], rule);
      if t.Some? && t.value.since != 0 {
        if before.Some? && before.value.since != 0 {
          var j :| ExcursionSince(obs, rule, j, n - 1, before.value.since);
          assert AboveOrUntouched(obs[n - 1], rule);
          assert ExcursionSince(obs, rule, j, n, t.value.since);
        } else {
          assert ExcursionSince(obs, rule, n - 1, n, t.value.since);
        }
      }
    }
  }

  /** After an alert, the timer stays marked for as long as the excursion lasts. */
  lemma {:induction false} ExcursionStaysMarked(timer: Option<AlertState>, obs: seq<Obs>, rule: AlertRule, i: nat, n: nat)
    requires !IsOffline(rule) && i < n <= |obs| && SendsAt(timer, obs, rule, i)
    requires forall k :: 0 <= k < |obs| && obs[k].Seen? ==> obs[k].now > 0
    requires forall k :: i < k < n ==> AboveOrUntouched(obs[k], rule)
    ensures WasDelivered(ObsRun(timer, obs[..n], rule))
    decreases n
  {
    hide Reading, Above;
    AboveIsRead(obs[i], rule);
    AboveIsRead(obs[n - 1], rule);
    ObsRunSnoc(timer, obs, rule, n - 1);
    if n - 1 > i {
      ExcursionStaysMarked(timer, obs, rule, i, n - 1);
    }
  }

  predicate UsageObs(obs: seq<Obs>) {
    forall i :: 0 <= i < |obs| ==> !obs[i].Recovered? && (obs[i].Seen? ==> obs[i].now > 0)
  }

  lemma ObservedLength(es: seq<Event>, host: string, rule: AlertRule)
    ensures |Observations(es, host, rule)| == |es|
  {
  }

  lemma ObserveUsage(es: seq<Event>, host: string, rule: AlertRule)
    requires !IsOffline(rule) && ClockPositive(es)
    ensures UsageObs(Observations(es, host, rule))
  {
    var obs := Observations(es, host, rule);
    forall i | 0 <= i < |obs|
      ensures !obs[i].Recovered? && (obs[i].Seen? ==> obs[i].now > 0)
    {
      assert es[i] in es;
    }
  }

  /** The event at index `i` of a run enqueues an alert under the key. */
  predicate EnqueuesAt(m: AlertMap, es: seq<Event>, key: string, i: nat)
    requires i < |es|
  {
    Enqueues(RunEvents(m, es[..i]), es[i], key)
  }

  lemma EnqueuesAtByKey(m: AlertMap, es: seq<Event>, host: string, rule: AlertRule, i: nat)
    requires i < |es| && forall e :: e in es ==> Coherent(e, rule)
    ensures var key := AlertKey(host, rule.id);
            EnqueuesAt(m, es, key, i) <==> SendsAt(Get(m, key), Observations(es, host, rule), rule, i)
  {
    RunByKey(m, es[..i], host, rule);
    assert Observations(es[..i], host, rule) == Observations(es, host, rule)[..i];
    EventByKey(RunEvents(m, es[..i]), es[i], host, rule);
  }

  /**
  A usage alert at event `i` means the metric stayed above the threshold, on an online host, at every
  evaluation since some event `j` at least `duration` earlier.
  */
  lemma UsageAlertMeansExcursion(m: AlertMap, es: seq<Event>, host: string, rule: AlertRule, i: nat)
    requires !IsOffline(rule) && ClockPositive(es) && i < |es| && forall e :: e in es ==> Coherent(e, rule)
    requires var key := AlertKey(host, rule.id); (key in m ==> m[key] == CLEARED) && EnqueuesAt(m, es, key, i)
    ensures var obs := Observations(es, host, rule);
            exists j :: 0 <= j <= i && Above(obs[j], rule) && Above(obs[i], rule)
                        && SaturatingSub(obs[i].now, obs[j].now) >= rule.duration
                        && forall k :: j <= k <= i ==> AboveOrUntouched(obs[k], rule)
  {
    hide Observations, EnqueuesAt, ObsRun, Reading, Above;
    var key := AlertKey(host, rule.id);
    var obs := Observations(es, host, rule);
    assert |obs| == |es| by { ObservedLength(es, host, rule); }
    AboveIsRead(obs[i], rule);
    ObserveUsage(es, host, rule);
    EnqueuesAtByKey(m, es, host, rule, i);
    var before := ObsRun(Get(m, key), obs[..i], rule);
    RunningTimerHasExcursion(Get(m, key), obs, rule, i);
    if before.Some? && before.value.since != 0 {
      var j :| ExcursionSince(obs, rule, j, i, before.value.since);
      assert Above(obs[j], rule);
    } else {
      assert Above(obs[i], rule);
    }
  }

  /** Between two usage alerts of one rule on one host, some evaluation ended the excursion. */
  lemma UsageAlertsOncePerExcursion(m: AlertMap, es: seq<Event>, host: string, rule: AlertRule, i: nat, i': nat)
    requires !IsOffline(rule) && ClockPositive(es) && i < i' < |es| && forall e :: e in es ==> Coherent(e, rule)
    requires var key := AlertKey(host, rule.id); EnqueuesAt(m, es, key, i) && EnqueuesAt(m, es, key, i')
    ensures exists k :: i < k < i' && !AboveOrUntouched(Observations(es, host, rule)[k], rule)
  {
    var key := AlertKey(host, rule.id);
    var obs := Observations(es, host, rule);
    ObserveUsage(es, host, rule);
    EnqueuesAtByKey(m, es, host, rule, i);
    EnqueuesAtByKey(m, es, host, rule, i');
    if forall k :: i < k < i' ==> AboveOrUntouched(obs[k], rule) {
      ExcursionStaysMarked(Get(m, key), obs, rule, i, i');
    }
  }

  /** While an excursion lasts and nothing has been sent, the timer keeps the time it began. */
  lemma {:induction false} ExcursionKeepsStart(timer: Option<AlertState>, obs: seq<Obs>, rule: AlertRule, j: nat, n: nat)
    requires !IsOffline(rule) && j < n <= |obs| && UsageObs(obs) && Above(obs[j], rule)
    requires var t := ObsRun(timer, obs[..j], rule); t.None? || t.value == CLEARED
    requires forall k :: j <= k < n ==> AboveOrUntouched(obs[k], rule) && !SendsAt(timer, obs, rule, k)
    ensures ObsRun(timer, obs[..n], rule) == Some(AlertState(obs[j].now, 0))
    decreases n
  {
    hide ObsRun, Reading, Above;
    AboveIsRead(obs[j], rule);
    AboveIsRead(obs[n - 1], rule);
    ObsRunSnoc(timer, obs, rule, n - 1);
    if n - 1 > j {
      ExcursionKeepsStart(timer, obs, rule, j, n - 1);
    }
  }

  /**
  A usage alert comes as soon as it may: at the first evaluation `duration` or more into an excursion that the
  channel accepts, if none was sent before in that excursion.
  */
  lemma UsageAlertIsPrompt(m: AlertMap, es: seq<Event>, host: string, rule: AlertRule, j: nat, i: nat)
    requires !IsOffline(rule) && ClockPositive(es) && j <= i < |es| && forall e :: e in es ==> Coherent(e, rule)
    requires var t := Get(RunEvents(m, es[..j]), AlertKey(host, rule.id)); t.None? || t.value == CLEARED
    requires var obs := Observations(es, host, rule);
             && Above(obs[j], rule) && Above(obs[i], rule) && obs[i].sent
             && obs[j].now + rule.duration <= obs[i].now
             && forall k :: j <= k < i ==> AboveOrUntouched(obs[k], rule)
    requires forall k :: j <= k < i ==> !EnqueuesAt(m, es, AlertKey(host, rule.id), k)
    ensures EnqueuesAt(m, es, AlertKey(host, rule.id), i)
  {
    hide RunEvents, Enqueues, ObsRun, Observe, Reading, Above;
    AboveIsRead(Observations(es, host, rule)[i], rule);
    AboveIsRead(Observations(es, host, rule)[j], rule);
    var key := AlertKey(host, rule.id);
    var obs := Observations(es, host, rule);
    ObserveUsage(es, host, rule);
    forall k | j <= k <= i
      ensures EnqueuesAt(m, es, key, k) <==> SendsAt(Get(m, key), obs, rule, k)
    {
      EnqueuesAtByKey(m, es, host, rule, k);
    }
    RunByKey(m, es[..j], host, rule);
    assert Observations(es[..j], host, rule) == obs[..j];
    if j < i {
      ExcursionKeepsStart(Get(m, key), obs, rule, j, i);
    }
  }
}
