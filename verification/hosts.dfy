/** Configured hosts: what the configuration and the administrator's overrides make of a report, live and after a restart. */
module Hosts {
  import opened Wrappers
  import opened Text
  import opened Payload
  import opened RuntimeState
  import opened Settings

  /** A configured host. */
  datatype Host = Host(
    name: string, gid: string, alias: string, notify: bool, pos: nat, weight: nat, disabled: bool, latestTs: nat)

  /** A new host of a group. */
  function InstHost(group: HostGroup, name: string): Host {
    Host(name, group.gid, "", group.notify, group.pos, group.weight, false, 0)
  }

  function EffectiveRankWeight(reported: nat, configured: nat): nat {
    if configured > 0 then configured else reported
  }

  /** The configuration's say over a cached entry. */
  function RefreshFromHost(stat: HostStat, info: Host): HostStat {
    stat.(notify := info.notify && stat.notify,
          pos := info.pos,
          disabled := info.disabled,
          weight := EffectiveRankWeight(stat.weight, info.weight),
          gid := if stat.gid == "" then info.gid else stat.gid,
          alias := if info.alias != "" then info.alias else stat.alias)
  }

  // ---------- the administrator's overrides ----------

  function ApplyNode(n: NodeOverride, host: Host): Host {
    host.(alias := if n.alias.Some? then n.alias.value else host.alias,
          weight := if n.weight.Some? then n.weight.value else host.weight)
  }

  /** `apply_host_override`: the override of the host's access key first, then its own. */
  function Overridden(d: AdminData, host: Host): Host {
    var grouped := if host.gid != "" && host.gid in d.groups then ApplyNode(d.groups[host.gid], host) else host;
    if host.name in d.hosts then ApplyNode(d.hosts[host.name], grouped) else grouped
  }

  function First<T>(a: Option<T>, b: Option<T>, otherwise: T): T {
    if a.Some? then a.value else if b.Some? then b.value else otherwise
  }

  /** The host's own override decides, then that of its access key, then the configuration; nothing else changes. */
  lemma OverrideTells(d: AdminData, host: Host)
    ensures var own := if host.name in d.hosts then Some(d.hosts[host.name]) else None;
            var key := if host.gid in d.groups && host.gid != "" then Some(d.groups[host.gid]) else None;
            var info := Overridden(d, host);
            && info.alias == First(if own.Some? then own.value.alias else None, if key.Some? then key.value.alias else None, host.alias)
            && info.weight == First(if own.Some? then own.value.weight else None, if key.Some? then key.value.weight else None, host.weight)
            && info.name == host.name && info.gid == host.gid && info.notify == host.notify && info.pos == host.pos
            && info.disabled == host.disabled && info.latestTs == host.latestTs
  {
  }

  // ---------- a report ----------

  type HostMap = map<string, Host>

  /** Where hosts get their configuration: their own entries, the groups by access key, and the overrides. */
  datatype Config = Config(hosts: HostMap, groups: map<string, HostGroup>, override: Host -> Host)

  const DEFAULT_GROUP_ID := "default"

  /** The group a report belongs to gives its host a new entry, unless the host is in that group already. */
  function Assigned(config: Config, stat: HostStat): Option<(HostStat, HostMap)> {
    var hosts := config.hosts;
    var named := stat.(alias := if stat.alias == "" then stat.name else stat.alias);
    if stat.gid != "" then
      if stat.name in hosts && hosts[stat.name].gid == stat.gid then Some((named, hosts))
      else if stat.gid in config.groups then Some((named, hosts[stat.name := InstHost(config.groups[stat.gid], stat.name)]))
      else None
    else if stat.name !in hosts && DEFAULT_GROUP_ID in config.groups then
      var group := config.groups[DEFAULT_GROUP_ID];
      Some((named.(gid := group.gid), hosts[stat.name := InstHost(group, stat.name).(latestTs := stat.latestTs)]))
    else Some((stat, hosts))
  }

  /** The report as it is put into the live map, and the configured hosts; none if it is rejected. */
  function Accepted(config: Config, stat: HostStat, now: nat): Option<(HostStat, HostMap)> {
    match Assigned(config, stat)
    case None => None
    case Some(placed) =>
      if stat.name !in placed.1 || placed.1[stat.name].disabled then None
      else
        var info := config.override(placed.1[stat.name]);
        Some((RefreshFromHost(placed.0, info).(latestTs := now), placed.1[stat.name := info.(latestTs := now)]))
  }

  /** The entry that a report is processed with: the host's own if it is in the group, else a new one of the group. */
  function EntryFor(config: Config, stat: HostStat): Option<Host> {
    var gid := if stat.gid == "" then "default" else stat.gid;
    if stat.name in config.hosts && (stat.gid == "" || config.hosts[stat.name].gid == stat.gid) then Some(config.hosts[stat.name])
    else if gid in config.groups then
      var group := config.groups[gid];
      Some(Host(stat.name, group.gid, "", group.notify, group.pos, group.weight, false, if stat.gid == "" then stat.latestTs else 0))
    else None
  }

  /** The alias a report comes with: a host in a group is called by its name if the report gives none. */
  function AliasOf(config: Config, stat: HostStat): string {
    if stat.alias == "" && (stat.gid != "" || stat.name !in config.hosts) then stat.name else stat.alias
  }

  lemma AssignedIs(config: Config, stat: HostStat)
    ensures var placed, entry := Assigned(config, stat), EntryFor(config, stat);
            && (placed.None? || stat.name !in placed.value.1 <==> entry.None?)
            && (entry.Some? ==>
                  && placed.value.1 == config.hosts[stat.name := entry.value]
                  && placed.value.0 == stat.(
                       alias := AliasOf(config, stat),
                       gid := if stat.gid != "" || stat.name in config.hosts then stat.gid else entry.value.gid))
  {
  }

  /** A report that is rejected has given its host no entry. */
  lemma RejectedKeepsHosts(config: Config, stat: HostStat)
    ensures var placed := Assigned(config, stat);
            placed.Some? && (stat.name !in placed.value.1 || placed.value.1[stat.name].disabled) ==> placed.value.1 == config.hosts
  {
  }

  /** The live entry: the reported numbers, at the time they came in, and the configuration's say over the rest. */
  predicate LiveAs(live: HostStat, stat: HostStat, alias: string, info: Host, now: nat) {
    && live.name == stat.name && live.online4 == stat.online4 && live.online6 == stat.online6 && live.latestTs == now
    && live.cpu == stat.cpu && live.load1 == stat.load1 && live.load5 == stat.load5 && live.load15 == stat.load15
    && live.memoryUsed == stat.memoryUsed && live.memoryTotal == stat.memoryTotal
    && live.hddUsed == stat.hddUsed && live.hddTotal == stat.hddTotal
    && live.alias == (if info.alias != "" then info.alias else alias)
    && live.weight == (if info.weight > 0 then info.weight else stat.weight)
    && (live.notify <==> info.notify && stat.notify) && live.pos == info.pos && live.disabled == info.disabled
  }

  /**
  A report is rejected exactly if its host has no entry and none can be made, or is disabled.  Otherwise it goes into
  the live map under the entry's configuration, and into the access key it names, else that of its entry.
  */
  lemma AcceptedReportIs(config: Config, stat: HostStat, now: nat)
    ensures var entry := EntryFor(config, stat);
            var accepted := Accepted(config, stat, now);
            && (accepted.None? <==> entry.None? || entry.value.disabled)
            && (accepted.Some? ==>
                  var info, live := config.override(entry.value), accepted.value.0;
                  && LiveAs(live, stat, AliasOf(config, stat), info, now)
                  && live.gid == (if stat.gid != "" then stat.gid
                                  else if stat.name in config.hosts || entry.value.gid == "" then info.gid else entry.value.gid)
                  && accepted.value.1 == config.hosts[stat.name := info.(latestTs := now)])
  {
    hide Assigned, EntryFor, AliasOf;
    AssignedIs(config, stat);
  }

  // ---------- changed overrides ----------

  /** The live map after a change of the overrides: every configured host is brought up to date. */
  function Refreshed(stats: map<string, HostStat>, config: Config): (r: map<string, HostStat>)
    ensures r.Keys == stats.Keys && forall k :: k in r ==> r[k].name == stats[k].name
  {
    map k | k in stats :: if k in config.hosts then RefreshFromHost(stats[k], config.override(config.hosts[k])) else stats[k]
  }

  /** What a change of the overrides does to a live entry: the configuration's say, and nothing to what was reported. */
  lemma RefreshTells(stats: map<string, HostStat>, config: Config, n: string)
    requires n in stats
    ensures var was, shown := stats[n], Refreshed(stats, config)[n];
            if n !in config.hosts then shown == was
            else
              var info := config.override(config.hosts[n]);
              && LiveAs(shown, was, was.alias, info, was.latestTs)
              && shown.gid == if was.gid != "" then was.gid else info.gid
  {
  }

  // ---------- a restart ----------

  /** The configuration of a known host: its own, or that of its group if it has none. */
  function ConfigOf(hosts: HostMap, groups: map<string, HostGroup>, host: KnownHost): Option<Host> {
    if host.name in hosts then Some(hosts[host.name])
    else if host.gid in groups then Some(InstHost(groups[host.gid], host.name).(latestTs := host.latestTs))
    else None
  }

  /** The entry that a restart gives a known host. */
  function RestoredEntry(config: Config, host: KnownHost): HostStat {
    var stat := host.IntoOfflineStat();
    match ConfigOf(config.hosts, config.groups, host)
    case None => stat
    case Some(entry) =>
      var info := config.override(entry);
      RefreshFromHost(stat.(gid := info.gid), info)
  }

  /** The known host keeps what the report said of the host itself. */
  predicate Keeps(host: KnownHost, said: HostStat) {
    && host.name == said.name && host.alias == said.alias && host.gid == said.gid && host.weight == said.weight
    && host.notify == said.notify && host.latestTs == said.latestTs
  }

  lemma ReportIsKept(said: HostStat)
    ensures Keeps(KnownHost.FromStat(said), said)
  {
  }

  /** The entry that configures a restored host: its own, else a new one of its group. */
  function EntryAfter(config: Config, said: HostStat): Option<Host> {
    if said.name in config.hosts then Some(config.hosts[said.name])
    else if said.gid in config.groups then
      var group := config.groups[said.gid];
      Some(Host(said.name, group.gid, "", group.notify, group.pos, group.weight, false, said.latestTs))
    else None
  }

  /** No numbers are kept: a restored host is offline and reads zero. */
  predicate Silent(shown: HostStat) {
    && !shown.online4 && !shown.online6
    && shown.cpu == 0.0 && shown.load1 == 0.0 && shown.load5 == 0.0 && shown.load15 == 0.0
    && shown.memoryUsed == 0 && shown.memoryTotal == 0 && shown.hddUsed == 0 && shown.hddTotal == 0
  }

  /**
  What a restart shows of a host: what the report said of it, under the configuration's say if the host has one, its
  own or its group's.
  */
  predicate RestoredAs(shown: HostStat, said: HostStat, config: Config) {
    var entry := EntryAfter(config, said);
    && Silent(shown) && shown.name == said.name && shown.latestTs == said.latestTs
    && (entry.None? ==>
          && shown.alias == said.alias && shown.gid == said.gid && shown.weight == said.weight && shown.notify == said.notify
          && shown.pos == 0 && !shown.disabled)
    && (entry.Some? ==>
          var info := config.override(entry.value);
          && shown.alias == (if info.alias != "" then info.alias else said.alias)
          && shown.gid == info.gid && shown.weight == (if info.weight > 0 then info.weight else said.weight)
          && (shown.notify <==> info.notify && said.notify) && shown.pos == info.pos && shown.disabled == info.disabled)
  }

  lemma RestoredEntryIs(config: Config, host: KnownHost, said: HostStat)
    requires Keeps(host, said)
    ensures RestoredAs(RestoredEntry(config, host), said, config)
  {
  }

  /** For every report: saved and restored, the host is shown as the report said it. */
  lemma ReportComesBack(config: Config, said: HostStat)
    ensures RestoredAs(RestoredEntry(config, KnownHost.FromStat(said)), said, config)
  {
    ReportIsKept(said);
    RestoredEntryIs(config, KnownHost.FromStat(said), said);
  }

  /** The two entries tell the same of the host itself. */
  predicate SameIdentity(shown: HostStat, live: HostStat) {
    && shown.name == live.name && shown.alias == live.alias && shown.gid == live.gid && shown.weight == live.weight
    && shown.notify == live.notify && shown.pos == live.pos && shown.disabled == live.disabled && shown.latestTs == live.latestTs
  }

  /**
  A restart shows a live entry as it was, if and only if the configuration it starts with still says the same: the
  same access key, position and state, no other alias or weight, and notices unless they were off.
  */
  lemma RestartShowsTheLiveEntryExactlyWhen(config: Config, live: HostStat, entry: Host)
    requires EntryAfter(config, live) == Some(entry)
    ensures var info := config.override(entry);
            SameIdentity(RestoredEntry(config, KnownHost.FromStat(live)), live) <==>
            && info.gid == live.gid && info.pos == live.pos && info.disabled == live.disabled
            && (info.alias == "" || info.alias == live.alias) && (info.weight == 0 || info.weight == live.weight)
            && (live.notify ==> info.notify)
  {
    ReportComesBack(config, live);
  }
}
