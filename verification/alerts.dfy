/**
Health alerts: one timer per host and rule, advanced by the timer thread for each host it evaluates and
cleared by the report thread when a stale host reports again.
*/
module Alerts {
  import opened Wrappers
  import opened Payload
  import opened RuntimeState
  import opened Settings

  type AlertMap = map<string, AlertState>

  const CLEARED := AlertState(0, 0)

  datatype Route = Route(notificationGroup: string, methods: seq<string>)

  datatype AlertEvent = AlertEvent(key: string, route: Route)

  function RouteOf(rule: AlertRule): Route {
    Route(rule.notificationGroup, rule.notifications)
  }

  function SaturatingSub(a: nat, b: nat): nat {
    if a >= b then a - b else 0
  }

  function Percent(used: nat, total: nat): Option<real> {
    if total == 0 then None else Some(used as real * 100.0 / total as real)
  }

  function MetricValue(stat: HostStat, metric: string): Option<real> {
    match metric
    case "cpu" => Some(stat.cpu)
    case "memory" => Percent(stat.memoryUsed, stat.memoryTotal)
    case "disk" => Percent(stat.hddUsed, stat.hddTotal)
    case "load1" => Some(stat.load1)
    case "load5" => Some(stat.load5)
    case "load15" => Some(stat.load15)
    case _ => None
  }

  predicate Applies(rule: AlertRule, stat: HostStat, groups: seq<ServerGroup>) {
    || (rule.servers == [] && rule.serverGroups == [])
    || stat.name in rule.servers
    || (&& rule.serverGroups != []
        && (|| (stat.gid != "" && stat.gid in rule.serverGroups)
            || exists i :: 0 <= i < |groups| && groups[i].id in rule.serverGroups && stat.name in groups[i].servers))
  }

  predicate IsOffline(rule: AlertRule) {
    rule.metric == "offline"
  }

  function MarkOfflineIfStale(stat: HostStat, now: nat, threshold: nat): HostStat {
    if stat.latestTs + threshold < now then stat.(online4 := false, online6 := false) else stat
  }

  // ---------- one rule on one host ----------

  /** The usage reading that a rule compares, if the host is online and the rule is complete. */
  function Reading(rule: AlertRule, stat: HostStat): Option<(real, real)> {
    if !stat.Online() then None
    else
      match (MetricValue(stat, rule.metric), rule.threshold)
      case (Some(current), Some(threshold)) => Some((current, threshold))
      case _ => None
  }

  /** What one evaluation does to one timer, and whether it wants an alert sent. */
  function RuleStep(timer: Option<AlertState>, stat: HostStat, now: nat, rule: AlertRule): (Option<AlertState>, bool) {
    var state := if timer.Some? then timer.value else CLEARED;
    if IsOffline(rule) then
      if stat.Online() then (Some(CLEARED), false)
      else
        var since := if state.since == 0 || state.since <= stat.latestTs then now else state.since;
        (Some(state.(since := since)),
         && SaturatingSub(now, since) >= rule.duration
         && (state.lastEnqueuedAt == 0 || state.lastEnqueuedAt + rule.repeatInterval < now))
    else
      match Reading(rule, stat)
      case None => (None, false)
      case Some(reading) =>
        if reading.0 > reading.1 then
          var since := if state.since == 0 then now else state.since;
          (Some(state.(since := since)), SaturatingSub(now, since) >= rule.duration && state.lastEnqueuedAt == 0)
        else (Some(CLEARED), false)
  }

  function Get(m: AlertMap, key: string): Option<AlertState> {
    if key in m then Some(m[key]) else None
  }

  function Put(m: AlertMap, key: string, timer: Option<AlertState>): AlertMap {
    match timer
    case None => m - {key}
    case Some(state) => m[key := state]
  }

  /** All rules on one host, in order. */
  function Collect(stat: HostStat, now: nat, rules: seq<AlertRule>, groups: seq<ServerGroup>, m: AlertMap)
    : (seq<AlertEvent>, AlertMap)
  {
    if !stat.notify || rules == [] then ([], m)
    else
      var n := |rules| - 1;
      var (events, states) := Collect(stat, now, rules[..n], groups, m);
      if !Applies(rules[n], stat, groups) then (events, states)
      else
        var key := AlertKey(stat.name, rules[n].id);
        var (timer, fires) := RuleStep(Get(states, key), stat, now, rules[n]);
        (if fires then events + [AlertEvent(key, RouteOf(rules[n]))] else events, Put(states, key, timer))
  }

  method CollectAlertEvents(stat: HostStat, now: nat, rules: seq<AlertRule>, groups: seq<ServerGroup>, m: AlertMap)
    returns (events: seq<AlertEvent>, states: AlertMap)
    ensures (events, states) == Collect(stat, now, rules, groups, m)
  {
    events, states := [], m;
    if !stat.notify || rules == [] {
      return;
    }
    var online := stat.online4 || stat.online6;
    for i := 0 to |rules|
      invariant (events, states) == Collect(stat, now, rules[..i], groups, m)
    {
      var rule := rules[i];
      assert rules[..i + 1][..i] == rules[..i] && rules[..i + 1][i] == rule;
      if !Applies(rule, stat, groups) {
        continue;
      }
      var key := AlertKey(stat.name, rule.id);
      if rule.metric == "offline" {
        var state := if key in states then states[key] else AlertState(0, 0);
        if online {
          states := states[key := AlertState(0, 0)];
          continue;
        }
        if state.since == 0 || state.since <= stat.latestTs {
          state := state.(since := now);
        }
        states := states[key := state];
        if SaturatingSub(now, state.since) >= rule.duration
           && (state.lastEnqueuedAt == 0 || state.lastEnqueuedAt + rule.repeatInterval < now) {
          events := events + [AlertEvent(key, RouteOf(rule))];
        }
        continue;
      }
      if !online {
        states := states - {key};
        continue;
      }
      var current := MetricValue(stat, rule.metric);
      if current.None? || rule.threshold.None? {
        states := states - {key};
        continue;
      }
      var state := if key in states then states[key] else AlertState(0, 0);
      if current.value > rule.threshold.value {
        if state.since == 0 {
          state := state.(since := now);
        }
        if SaturatingSub(now, state.since) >= rule.duration && state.lastEnqueuedAt == 0 {
          events := events + [AlertEvent(key, RouteOf(rule))];
        }
      } else {
        state := AlertState(0, 0);
      }
      states := states[key := state];
    }
    assert rules[..|rules|] == rules;
  }

  // ---------- recovery ----------

  /** Routes of the delivered offline alerts of one host, clearing their timers as it goes. */
  function Take(stat: HostStat, rules: seq<AlertRule>, groups: seq<ServerGroup>, m: AlertMap): (seq<Route>, AlertMap)
  {
    if !stat.notify || rules == [] then ([], m)
    else
      var n := |rules| - 1;
      var (routes, states) := Take(stat, rules[..n], groups, m);
      var key := AlertKey(stat.name, rules[n].id);
      if !IsOffline(rules[n]) || !Applies(rules[n], stat, groups) || key !in states then (routes, states)
      else
        var route := RouteOf(rules[n]);
        (if states[key].lastEnqueuedAt != 0 && route !in routes then routes + [route] else routes,
         states[key := CLEARED])
  }

  method TakeOfflineRecoveryRoutes(stat: HostStat, rules: seq<AlertRule>, groups: seq<ServerGroup>, m: AlertMap)
    returns (routes: seq<Route>, states: AlertMap)
    ensures (routes, states) == Take(stat, rules, groups, m)
  {
    routes, states := [], m;
    if !stat.notify {
      return;
    }
    for i := 0 to |rules|
      invariant (routes, states) == Take(stat, rules[..i], groups, m)
    {
      var rule := rules[i];
      assert rules[..i + 1][..i] == rules[..i] && rules[..i + 1][i] == rule;
      if rule.metric != "offline" || !Applies(rule, stat, groups) {
        continue;
      }
      var key := AlertKey(stat.name, rule.id);
      if key !in states {
        continue;
      }
      var delivered := states[key].lastEnqueuedAt != 0;
      states := states[key := AlertState(0, 0)];
      if !delivered {
        continue;
      }
      var route := Route(rule.notificationGroup, rule.notifications);
      if route !in routes {
        routes := routes + [route];
      }
    }
    assert rules[..|rules|] == rules;
  }

  // ---------- each timer evolves on its own ----------

  predicate UniqueIds(rules: seq<AlertRule>) {
    forall i, j :: 0 <= i < j < |rules| ==> rules[i].id != rules[j].id
  }

  predicate Evaluates(stat: HostStat, rules: seq<AlertRule>, groups: seq<ServerGroup>, rule: AlertRule) {
    stat.notify && rule in rules && Applies(rule, stat, groups)
  }

  lemma KeysOfOneHost(host: string, a: string, b: string)
    ensures AlertKey(host, a) == AlertKey(host, b) <==> a == b
  {
    assert AlertKey(host, a)[|host| + 1..] == a && AlertKey(host, b)[|host| + 1..] == b;
  }

  predicate Fires(events: seq<AlertEvent>, key: string) {
    exists i :: 0 <= i < |events| && events[i].key == key
  }

  /** A key that belongs to no rule of this host is left alone. */
  lemma {:induction false} CollectLeavesOthers(
    stat: HostStat, now: nat, rules: seq<AlertRule>, groups: seq<ServerGroup>, m: AlertMap, key: string)
    requires forall i :: 0 <= i < |rules| && Applies(rules[i], stat, groups) ==> AlertKey(stat.name, rules[i].id) != key
    ensures Get(Collect(stat, now, rules, groups, m).1, key) == Get(m, key)
    ensures !Fires(Collect(stat, now, rules, groups, m).0, key)
  {
    if stat.notify && rules != [] {
      CollectLeavesOthers(stat, now, rules[..|rules| - 1], groups, m, key);
    }
  }

  /** With distinct rule ids, one evaluation acts on each timer as `RuleStep` alone. */
  lemma {:induction false} CollectByKey(
    stat: HostStat, now: nat, rules: seq<AlertRule>, groups: seq<ServerGroup>, m: AlertMap, rule: AlertRule)
    requires UniqueIds(rules) && Evaluates(stat, rules, groups, rule)
    ensures var key := AlertKey(stat.name, rule.id);
            var (events, states) := Collect(stat, now, rules, groups, m);
            (Get(states, key), Fires(events, key)) == RuleStep(Get(m, key), stat, now, rule)
  {
    var n := |rules| - 1;
    var key := AlertKey(stat.name, rule.id);
    var (events, states) := Collect(stat, now, rules[..n], groups, m);
    if rules[n] == rule {
      forall i | 0 <= i < n
        ensures AlertKey(stat.name, rules[..n][i].id) != key
      {
        KeysOfOneHost(stat.name, rules[i].id, rule.id);
      }
      CollectLeavesOthers(stat, now, rules[..n], groups, m, key);
      var after := Collect(stat, now, rules, groups, m).0;
      if RuleStep(Get(m, key), stat, now, rule).1 {
        assert after[|after| - 1].key == key;
      }
    } else {
      var k :| 0 <= k < |rules| && rules[k] == rule;
      assert rules[..n][k] == rule;
      KeysOfOneHost(stat.name, rules[n].id, rule.id);
      CollectByKey(stat, now, rules[..n], groups, m, rule);
      var after := Collect(stat, now, rules, groups, m).0;
      assert events <= after;
      if Fires(events, key) {
        var i :| 0 <= i < |events| && events[i].key == key;
        assert after[i].key == key;
      }
    }
  }

  // ---------- which reported numbers a rule compares ----------

  /** The host is online, and the number that the rule's metric stands for is there to be compared. */
  predicate Measured(stat: HostStat, rule: AlertRule) {
    && (stat.online4 || stat.online6) && rule.threshold.Some?
    && (|| rule.metric in ["cpu", "load1", "load5", "load15"]
        || (rule.metric == "memory" && stat.memoryTotal > 0)
        || (rule.metric == "disk" && stat.hddTotal > 0))
  }

  /** That number is above the rule's threshold; memory and disk are measured in percent of their totals. */
  predicate AboveThreshold(stat: HostStat, rule: AlertRule) {
    && Measured(stat, rule)
    && var limit := rule.threshold.value;
       || (rule.metric == "cpu" && stat.cpu > limit)
       || (rule.metric == "load1" && stat.load1 > limit)
       || (rule.metric == "load5" && stat.load5 > limit)
       || (rule.metric == "load15" && stat.load15 > limit)
       || (rule.metric == "memory" && stat.memoryUsed as real * 100.0 > limit * stat.memoryTotal as real)
       || (rule.metric == "disk" && stat.hddUsed as real * 100.0 > limit * stat.hddTotal as real)
  }

  lemma PercentAbove(used: nat, total: nat, limit: real)
    requires total > 0
    ensures Percent(used, total).Some?
    ensures Percent(used, total).value > limit <==> used as real * 100.0 > limit * total as real
  {
    var share := used as real * 100.0 / total as real;
    var t := total as real;
    assert share * t == used as real * 100.0;
    if share > limit {
      ScaledUp(limit, share, t);
    } else if share < limit {
      ScaledUp(share, limit, t);
    }
  }

  lemma ScaledUp(a: real, b: real, t: real)
    requires a < b && t > 0.0
    ensures a * t < b * t
  {
    assert (b - a) * t > 0.0;
  }

  lemma ReadingIsReported(stat: HostStat, rule: AlertRule)
    ensures Reading(rule, stat).Some? <==> Measured(stat, rule)
    ensures AboveThreshold(stat, rule) ==> Measured(stat, rule)
    ensures Measured(stat, rule) ==>
              (Reading(rule, stat).value.0 > Reading(rule, stat).value.1 <==> AboveThreshold(stat, rule))
  {
    hide Percent;
    if rule.metric == "memory" && stat.memoryTotal > 0 && rule.threshold.Some? {
      PercentAbove(stat.memoryUsed, stat.memoryTotal, rule.threshold.value);
    } else if rule.metric == "disk" && stat.hddTotal > 0 && rule.threshold.Some? {
      PercentAbove(stat.hddUsed, stat.hddTotal, rule.threshold.value);
    }
    NoTotalNoPercent();
  }

  lemma NoTotalNoPercent()
    ensures forall used :: Percent(used, 0) == None
  {
  }

  /** An event of a rule carries that rule's route. */
  lemma {:induction false} EventsCarryTheirRoute(
    stat: HostStat, now: nat, rules: seq<AlertRule>, groups: seq<ServerGroup>, m: AlertMap, rule: AlertRule, e: AlertEvent)
    requires UniqueIds(rules) && rule in rules
    requires e in Collect(stat, now, rules, groups, m).0 && e.key == AlertKey(stat.name, rule.id)
    ensures e.route == RouteOf(rule)
  {
    var n := |rules| - 1;
    var events := Collect(stat, now, rules[..n], groups, m).0;
    var k :| 0 <= k < |rules| && rules[k] == rule;
    KeysOfOneHost(stat.name, rules[n].id, rule.id);
    InFires(events, e);
    if k == n {
      forall i | 0 <= i < n
        ensures AlertKey(stat.name, rules[..n][i].id) != e.key
      {
        KeysOfOneHost(stat.name, rules[i].id, rule.id);
      }
      CollectLeavesOthers(stat, now, rules[..n], groups, m, e.key);
    } else if e in events {
      assert rules[..n][k] == rule;
      EventsCarryTheirRoute(stat, now, rules[..n], groups, m, rule, e);
    }
  }

  lemma InFires(events: seq<AlertEvent>, e: AlertEvent)
    ensures e in events ==> Fires(events, e.key)
  {
  }

  /** The pass hands on an alert of that host and rule, under its key and to its route. */
  predicate Raises(events: seq<AlertEvent>, stat: HostStat, rule: AlertRule) {
    AlertEvent(stat.name + ":" + rule.id, Route(rule.notificationGroup, rule.notifications)) in events
  }

  lemma RaisesExactlyWhenFires(
    stat: HostStat, now: nat, rules: seq<AlertRule>, groups: seq<ServerGroup>, m: AlertMap, rule: AlertRule)
    requires UniqueIds(rules) && rule in rules
    ensures var events := Collect(stat, now, rules, groups, m).0;
            Raises(events, stat, rule) <==> Fires(events, AlertKey(stat.name, rule.id))
  {
    var events := Collect(stat, now, rules, groups, m).0;
    var key := AlertKey(stat.name, rule.id);
    if Fires(events, key) {
      var i :| 0 <= i < |events| && events[i].key == key;
      EventsCarryTheirRoute(stat, now, rules, groups, m, rule, events[i]);
      assert events[i] == AlertEvent(stat.name + ":" + rule.id, Route(rule.notificationGroup, rule.notifications));
    }
    if Raises(events, stat, rule) {
      var i :| 0 <= i < |events| && events[i] == AlertEvent(key, RouteOf(rule));
    }
  }

  /** When the state's excursion began, if it did before this pass, and what was handed on in it. */
  function Began(m: AlertMap, key: string, now: nat): nat {
    if key in m && m[key].since != 0 then m[key].since else now
  }

  function SentAt(m: AlertMap, key: string): nat {
    if key in m then m[key].lastEnqueuedAt else 0
  }

  /**
  What a pass does with a usage rule, in terms of the reported numbers: above the threshold the timer runs on, and
  an alert goes out once when the duration is over; not above it the timer is cleared; with nothing to compare, an
  unknown metric or a host that is offline it is dropped.
  */
  lemma UsageRuleReadsTheReport(
    stat: HostStat, now: nat, rules: seq<AlertRule>, groups: seq<ServerGroup>, m: AlertMap, rule: AlertRule)
    requires UniqueIds(rules) && Evaluates(stat, rules, groups, rule) && rule.metric != "offline"
    ensures var key := stat.name + ":" + rule.id;
            var (events, states) := Collect(stat, now, rules, groups, m);
            if AboveThreshold(stat, rule) then
              && key in states && states[key] == AlertState(Began(m, key, now), SentAt(m, key))
              && (Raises(events, stat, rule) <==>
                  (rule.duration == 0 || now >= Began(m, key, now) + rule.duration) && SentAt(m, key) == 0)
            else
              && !Raises(events, stat, rule)
              && (if Measured(stat, rule) then key in states && states[key] == AlertState(0, 0) else key !in states)
  {
    hide Collect, Measured, AboveThreshold, Reading, Raises, Fires;
    ReadingIsReported(stat, rule);
    CollectByKey(stat, now, rules, groups, m, rule);
    RaisesExactlyWhenFires(stat, now, rules, groups, m, rule);
  }

  /** And with an offline rule: cleared while the host is online, else running since it was first seen offline. */
  lemma OfflineRuleReadsTheReport(
    stat: HostStat, now: nat, rules: seq<AlertRule>, groups: seq<ServerGroup>, m: AlertMap, rule: AlertRule)
    requires UniqueIds(rules) && Evaluates(stat, rules, groups, rule) && rule.metric == "offline"
    ensures var key := stat.name + ":" + rule.id;
            var (events, states) := Collect(stat, now, rules, groups, m);
            var since := if key in m && m[key].since > stat.latestTs then m[key].since else now;
            if stat.online4 || stat.online6 then
              key in states && states[key] == AlertState(0, 0) && !Raises(events, stat, rule)
            else
              && key in states && states[key] == AlertState(since, SentAt(m, key))
              && (Raises(events, stat, rule) <==>
                  && (rule.duration == 0 || now >= since + rule.duration)
                  && (SentAt(m, key) == 0 || SentAt(m, key) + rule.repeatInterval < now))
  {
    hide Collect, Raises, Fires, Reading;
    CollectByKey(stat, now, rules, groups, m, rule);
    RaisesExactlyWhenFires(stat, now, rules, groups, m, rule);
  }

  /** Some id or name that the rule selects is the host's own, its access key's, or that of a server group listing it. */
  predicate SelectsHost(rule: AlertRule, stat: HostStat, groups: seq<ServerGroup>) {
    || stat.name in rule.servers
    || exists id | id in rule.serverGroups ::
         (id == stat.gid && id != "") || exists g | g in groups :: g.id == id && stat.name in g.servers
  }

  /** A rule applies to every host if it selects nothing, and else to exactly the hosts it selects. */
  lemma AppliesExactlyWhen(rule: AlertRule, stat: HostStat, groups: seq<ServerGroup>)
    ensures Applies(rule, stat, groups) <==>
            (|rule.servers| + |rule.serverGroups| == 0) || SelectsHost(rule, stat, groups)
  {
    if exists i :: 0 <= i < |groups| && groups[i].id in rule.serverGroups && stat.name in groups[i].servers {
      var i :| 0 <= i < |groups| && groups[i].id in rule.serverGroups && stat.name in groups[i].servers;
      assert groups[i] in groups;
    }
    if SelectsHost(rule, stat, groups) && stat.name !in rule.servers {
      var id :| id in rule.serverGroups && ((id == stat.gid && id != "") || exists g | g in groups :: g.id == id && stat.name in g.servers);
      if !(id == stat.gid && id != "") {
        var g :| g in groups && g.id == id && stat.name in g.servers;
        var i :| 0 <= i < |groups| && groups[i] == g;
      }
    }
  }

  lemma {:induction false} TakeLeavesOthers(
    stat: HostStat, rules: seq<AlertRule>, groups: seq<ServerGroup>, m: AlertMap, key: string)
    requires forall i :: 0 <= i < |rules| && IsOffline(rules[i]) && Applies(rules[i], stat, groups) ==>
               AlertKey(stat.name, rules[i].id) != key
    ensures Get(Take(stat, rules, groups, m).1, key) == Get(m, key)
  {
    if stat.notify && rules != [] {
      TakeLeavesOthers(stat, rules[..|rules| - 1], groups, m, key);
    }
  }

  lemma {:induction false} TakeClears(
    stat: HostStat, rules: seq<AlertRule>, groups: seq<ServerGroup>, m: AlertMap, rule: AlertRule)
    requires Evaluates(stat, rules, groups, rule) && IsOffline(rule)
    ensures var key := AlertKey(stat.name, rule.id);
            Get(Take(stat, rules, groups, m).1, key) == if key in m then Some(CLEARED) else None
  {
    var n := |rules| - 1;
    var key := AlertKey(stat.name, rule.id);
    if rule in rules[..n] {
      TakeClears(stat, rules[..n], groups, m, rule);
    } else {
      assert rules[n] == rule;
      if forall i :: 0 <= i < n && IsOffline(rules[i]) && Applies(rules[i], stat, groups) ==>
        AlertKey(stat.name, rules[i].id) != key {
        TakeLeavesOthers(stat, rules[..n], groups, m, key);
      } else {
        var i :| 0 <= i < n && IsOffline(rules[i]) && Applies(rules[i], stat, groups) && AlertKey(stat.name, rules[i].id) == key;
        assert rules[..n][i] == rules[i];
        TakeClears(stat, rules[..n], groups, m, rules[i]);
      }
    }
  }

  /** The rule has an offline alert that was handed to the notifier and not cleared since. */
  predicate Delivered(stat: HostStat, groups: seq<ServerGroup>, m: AlertMap, rule: AlertRule) {
    var key := AlertKey(stat.name, rule.id);
    IsOffline(rule) && Applies(rule, stat, groups) && key in m && m[key].lastEnqueuedAt != 0
  }

  predicate HasDeliveredRoute(stat: HostStat, rules: seq<AlertRule>, groups: seq<ServerGroup>, m: AlertMap, route: Route) {
    exists i :: 0 <= i < |rules| && Delivered(stat, groups, m, rules[i]) && RouteOf(rules[i]) == route
  }

  predicate NoDuplicates<T(==)>(s: seq<T>) {
    forall i, j :: 0 <= i < j < |s| ==> s[i] != s[j]
  }

  /** Recovery sends the routes of the delivered offline alerts, each once. */
  lemma {:induction false} TakeRoutesExact(
    stat: HostStat, rules: seq<AlertRule>, groups: seq<ServerGroup>, m: AlertMap, route: Route)
    requires UniqueIds(rules) && stat.notify
    ensures var routes := Take(stat, rules, groups, m).0;
            NoDuplicates(routes) && (route in routes <==> HasDeliveredRoute(stat, rules, groups, m, route))
  {
    if rules != [] {
      var n := |rules| - 1;
      TakeRoutesExact(stat, rules[..n], groups, m, route);
      TakeRoutesExact(stat, rules[..n], groups, m, RouteOf(rules[n]));
      var key := AlertKey(stat.name, rules[n].id);
      forall i | 0 <= i < n
        ensures AlertKey(stat.name, rules[..n][i].id) != key
      {
        KeysOfOneHost(stat.name, rules[i].id, rules[n].id);
      }
      TakeLeavesOthers(stat, rules[..n], groups, m, key);
      assert HasDeliveredRoute(stat, rules, groups, m, route) <==>
        HasDeliveredRoute(stat, rules[..n], groups, m, route)
        || (Delivered(stat, groups, m, rules[n]) && RouteOf(rules[n]) == route) by {
        if HasDeliveredRoute(stat, rules[..n], groups, m, route) {
          var i :| 0 <= i < n && Delivered(stat, groups, m, rules[..n][i]) && RouteOf(rules[..n][i]) == route;
          assert rules[i] == rules[..n][i];
        }
        if HasDeliveredRoute(stat, rules, groups, m, route) {
          var i :| 0 <= i < |rules| && Delivered(stat, groups, m, rules[i]) && RouteOf(rules[i]) == route;
          if i < n {
            assert rules[i] == rules[..n][i];
          }
        }
      }
    }
  }

  // ---------- one timer pass over one host ----------

  /** Marks the events that the notifier's channel accepted; `lost` are the keys it refused. */
  function MarkSent(m: AlertMap, events: seq<AlertEvent>, lost: set<string>, now: nat): AlertMap {
    if events == [] then m
    else
      var n := |events| - 1;
      var marked := MarkSent(m, events[..n], lost, now);
      var key := events[n].key;
      if key in lost || key !in marked then marked else marked[key := marked[key].(lastEnqueuedAt := now)]
  }

  method EvaluateHost(
    store: RuntimeStateStore, stat: HostStat, now: nat, rules: seq<AlertRule>, groups: seq<ServerGroup>, lost: set<string>)
    returns (events: seq<AlertEvent>)
    modifies store
    ensures var (fired, states) := Collect(stat, now, rules, groups, old(store.state.alerts));
            events == fired && store.state == old(store.state).(alerts := MarkSent(states, fired, lost, now))
    ensures store.file == old(store.file)
    ensures store.generation == old(store.generation) ==> store.state == old(store.state)
  {
    var changed;
    events, changed := store.UpdateAlerts(alerts => Collect(stat, now, rules, groups, alerts));
    ghost var states := store.state;
    ghost var generation := store.generation;
    for i := 0 to |events|
      invariant store.state == states.(alerts := MarkSent(states.alerts, events[..i], lost, now))
      invariant store.file == old(store.file)
      invariant store.generation >= generation
      invariant store.generation == generation ==> store.state == states
    {
      assert events[..i + 1][..i] == events[..i] && events[..i + 1][i] == events[i];
      if events[i].key !in lost {
        var marked := store.MarkAlertEnqueued(events[i].key, now);
        assert store.state.alerts == MarkSent(states.alerts, events[..i + 1], lost, now);
      }
    }
    assert events[..|events|] == events;
  }

  lemma {:induction false} MarkSentByKey(m: AlertMap, events: seq<AlertEvent>, lost: set<string>, now: nat, key: string)
    ensures Get(MarkSent(m, events, lost, now), key) ==
            if key in m && Fires(events, key) && key !in lost then Some(m[key].(lastEnqueuedAt := now)) else Get(m, key)
  {
    if events != [] {
      var n := |events| - 1;
      MarkSentByKey(m, events[..n], lost, now, key);
      assert Fires(events, key) <==> Fires(events[..n], key) || events[n].key == key by {
        if Fires(events[..n], key) {
          var i :| 0 <= i < n && events[..n][i].key == key;
          assert events[i].key == key;
        }
        if Fires(events, key) && events[n].key != key {
          var i :| 0 <= i < |events| && events[i].key == key;
          assert events[..n][i].key == key;
        }
      }
    }
  }
}
