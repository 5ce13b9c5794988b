/** The statistics manager: the maps behind its locks and the methods that change them in place. */
module Stats {
  import opened Wrappers
  import opened Text
  import opened Payload
  import opened RuntimeState
  import opened Publication
  import opened Settings
  import opened Hosts
  import L = Lifecycle

  class StatsMgr {
    var statMap: map<string, HostStat>
    var hostsMap: map<string, Host>
    var statsData: StatsResp
    var respJson: PublicJson
    var publicationGeneration: nat
    var snapshotFile: Option<StatsResp>
    var expireNotifyState: map<string, string>
    var runtimeState: RuntimeStateStore

    constructor (store: RuntimeStateStore, snapshot: Option<StatsResp>, hosts: map<string, Host>)
      ensures runtimeState == store && snapshotFile == snapshot && hostsMap == hosts
      ensures statMap == map[] && expireNotifyState == map[] && respJson == EmptyObject && publicationGeneration == 0
    {
      statMap, hostsMap, expireNotifyState := map[], hosts, map[];
      statsData, respJson := StatsResp(0, []), EmptyObject;
      publicationGeneration, snapshotFile, runtimeState := 0, snapshot, store;
    }

    /** The manager as a state of the lifecycle machine, given what its fields do not hold. */
    ghost function View(
      markers: set<string>, lifecycle: L.LifecyclePhase, publication: L.PublicationPhase, gone: set<string>): L.System
      reads this, runtimeState
    {
      L.System(markers, snapshotFile, runtimeState.View(), statMap, statsData, respJson, publicationGeneration,
               lifecycle, publication, gone)
    }

    /**
    Removes purged hosts from every map, the state file and the public list, with the lifecycle lock held.
    It is the three purge sections of the machine in a row, and succeeds exactly when the markers may be
    cleared.
    */
    method PurgeHostsLocked(
      hosts: set<string>, fault: Fault, snapshotSaved: bool, ghost markers: set<string>, ghost gone: set<string>)
      returns (ok: bool)
      modifies this, runtimeState
      ensures runtimeState == old(runtimeState)
      ensures hosts == {} ==> ok && unchanged(this) && unchanged(runtimeState)
      ensures hosts != {} ==>
                View(markers, if ok then L.PurgeClearing(hosts) else L.Idle, L.Free, gone) ==
                L.PurgeSections(old(View(markers, L.PurgeWaiting(hosts), L.Free, gone)), fault, snapshotSaved)
      ensures hostsMap == WithoutHosts(old(hostsMap), hosts)
      ensures expireNotifyState == WithoutHosts(old(expireNotifyState), hosts)
    {
      if hosts == {} {
        ok := true;
      } else {
        ok := PurgeSomeHosts(hosts, fault, snapshotSaved, markers, gone);
      }
    }

    method PurgeSomeHosts(
      hosts: set<string>, fault: Fault, snapshotSaved: bool, ghost markers: set<string>, ghost gone: set<string>)
      returns (ok: bool)
      modifies this, runtimeState
      ensures runtimeState == old(runtimeState)
      ensures View(markers, if ok then L.PurgeClearing(hosts) else L.Idle, L.Free, gone) ==
              L.PurgeSections(old(View(markers, L.PurgeWaiting(hosts), L.Free, gone)), fault, snapshotSaved)
      ensures hostsMap == WithoutHosts(old(hostsMap), hosts)
      ensures expireNotifyState == WithoutHosts(old(expireNotifyState), hosts)
    {
      RemoveFromMaps(hosts, markers, gone);
      var result := SavePurged(hosts, fault, markers, gone);
      expireNotifyState := map k | k in expireNotifyState && k !in hosts :: expireNotifyState[k];
      ghost var before := statsData;
      WritePurgedList(hosts, result.Published?, snapshotSaved, markers, gone);
      ok := result.Published? && snapshotSaved;
      WritePurgedText(hosts, ok, before, markers, gone);
    }

    method RemoveFromMaps(hosts: set<string>, ghost markers: set<string>, ghost gone: set<string>)
      modifies this`publicationGeneration, this`hostsMap, this`statMap, runtimeState
      ensures View(markers, L.PurgeSaving(hosts, Snapshot(runtimeState.View())), L.HeldByPurge, gone) ==
              L.RemovePurged(old(View(markers, L.PurgeWaiting(hosts), L.Free, gone)))
      ensures hostsMap == WithoutHosts(old(hostsMap), hosts)
    {
      publicationGeneration := publicationGeneration + 1;
      hostsMap := map k | k in hostsMap && k !in hosts :: hostsMap[k];
      statMap := map k | k in statMap && k !in hosts :: statMap[k];
      var changed := runtimeState.PurgeHosts(hosts);
    }

    method SavePurged(hosts: set<string>, fault: Fault, ghost markers: set<string>, ghost gone: set<string>)
      returns (result: SaveResult)
      modifies runtimeState
      ensures View(markers, L.PurgePublishing(hosts, result.Published?), L.HeldByPurge, gone) ==
              L.SavePurged(old(View(markers, L.PurgeSaving(hosts, Snapshot(runtimeState.View())), L.HeldByPurge, gone)), fault)
    {
      result := runtimeState.Save(fault);
    }

    method WritePurgedList(
      hosts: set<string>, saved: bool, snapshotSaved: bool, ghost markers: set<string>, ghost gone: set<string>)
      modifies this`statsData, this`snapshotFile
      ensures View(markers, L.PurgeTexting(hosts, saved && snapshotSaved, old(statsData)), L.HeldByPurge, gone) ==
              L.ListPurged(old(View(markers, L.PurgePublishing(hosts, saved), L.HeldByPurge, gone)), snapshotSaved)
    {
      var kept := Retain(statsData.servers, hosts);
      statsData := statsData.(servers := kept);
      if snapshotSaved {
        snapshotFile := Some(statsData);
      }
    }

    method WritePurgedText(
      hosts: set<string>, ok: bool, ghost before: StatsResp, ghost markers: set<string>, ghost gone: set<string>)
      modifies this`respJson
      ensures View(markers, if ok then L.PurgeClearing(hosts) else L.Idle, L.Free, gone) ==
              L.TextPurged(old(View(markers, L.PurgeTexting(hosts, ok, before), L.HeldByPurge, gone)))
    {
      respJson := Serialised(statsData);
    }

    /** Publishes a prepared list unless a purge has moved the generation since it was prepared. */
    method PublishSnapshotIfCurrent(
      generation: nat, resp: StatsResp, save: bool, saved: bool,
      ghost timer: bool, ghost markers: set<string>, ghost phase: L.LifecyclePhase, ghost gone: set<string>)
      returns (published: bool)
      requires save ==> timer
      modifies this`statsData, this`respJson, this`snapshotFile
      ensures View(markers, phase, L.Free, gone) ==
              L.Published(old(View(markers, phase, L.Listed(resp, generation, timer), gone)), save, saved)
      ensures published <==> generation == publicationGeneration
    {
      if publicationGeneration != generation {
        return false;
      }
      if save && saved {
        snapshotFile := Some(resp);
      }
      statsData := resp;
      respJson := Serialised(resp);
      return true;
    }

    /** A rebuild: start, list and publish with the publication lock held throughout. */
    method RebuildCachedResponse(
      deleted: set<string>, order: seq<string>, updated: nat,
      ghost phase: L.LifecyclePhase, ghost gone: set<string>)
      requires Iterates(order, statMap)
      modifies this`statsData, this`respJson, this`snapshotFile
      ensures View(deleted, phase, L.Free, gone) ==
              L.Rebuilt(old(View(deleted, phase, L.Free, gone)), order, updated)
    {
      var generation := publicationGeneration;
      var servers := [];
      for i := 0 to |order|
        invariant servers == Listing(statMap, order[..i], deleted)
      {
        assert order[..i + 1][..i] == order[..i] && order[..i + 1][i] == order[i];
        if ShouldPublish(statMap[order[i]], deleted) {
          servers := servers + [statMap[order[i]]];
        }
      }
      assert order[..|order|] == order;
      var resp := StatsResp(updated, SortServers(servers));
      var published := PublishSnapshotIfCurrent(generation, resp, false, false, false, deleted, phase, gone);
    }

    /** Puts a processed report into the live map and the runtime state. */
    method InsertStat(stat: HostStat, ghost markers: set<string>, ghost publication: L.PublicationPhase, ghost gone: set<string>)
      modifies this`statMap, runtimeState
      ensures View(markers, L.Idle, publication, gone - {stat.name}) ==
              L.Apply(old(View(markers, L.Reporting(stat), publication, gone)), L.InsertReport(false))
    {
      statMap := statMap[stat.name := stat];
      runtimeState.UpsertHost(KnownHost.FromStat(stat));
    }

    /** Gives the reporting host an entry of the group it names, or of the default group, if it needs one. */
    method AssignGroup(stat: HostStat, groups: map<string, HostGroup>, ghost config: Config) returns (placed: Option<HostStat>)
      requires config.hosts == hostsMap && config.groups == groups
      modifies this`hostsMap
      ensures match Assigned(config, stat)
              case None => placed == None && hostsMap == old(hostsMap)
              case Some(result) => placed == Some(result.0) && hostsMap == result.1
    {
      hide InstHost;
      if stat.gid != "" {
        if stat.name !in hostsMap || hostsMap[stat.name].gid != stat.gid {
          if stat.gid !in groups {
            return None;
          }
          hostsMap := hostsMap[stat.name := InstHost(groups[stat.gid], stat.name)];
        }
        placed := Some(stat.(alias := if stat.alias == "" then stat.name else stat.alias));
      } else if stat.name !in hostsMap && DEFAULT_GROUP_ID in groups {
        var group := groups[DEFAULT_GROUP_ID];
        hostsMap := hostsMap[stat.name := InstHost(group, stat.name).(latestTs := stat.latestTs)];
        placed := Some(stat.(gid := group.gid, alias := if stat.alias == "" then stat.name else stat.alias));
      } else {
        placed := Some(stat);
      }
    }

    /** Takes in a report under the host's configuration; none if it is rejected. */
    method AcceptReport(stat: HostStat, groups: map<string, HostGroup>, applyOverride: Host -> Host, now: nat)
      returns (live: Option<HostStat>)
      modifies this`hostsMap
      ensures var accepted := Accepted(Config(old(hostsMap), groups, applyOverride), stat, now);
              && live == (if accepted.Some? then Some(accepted.value.0) else None)
              && hostsMap == if accepted.Some? then accepted.value.1 else old(hostsMap)
    {
      hide Assigned, RefreshFromHost, EntryFor;
      ghost var config := Config(hostsMap, groups, applyOverride);
      AssignedIs(config, stat);
      var placed := AssignGroup(stat, groups, config);
      if placed.None? || stat.name !in hostsMap || hostsMap[stat.name].disabled {
        RejectedKeepsHosts(config, stat);
        return None;
      }
      var info := applyOverride(hostsMap[stat.name]);
      hostsMap := hostsMap[stat.name := info.(latestTs := now)];
      live := Some(RefreshFromHost(placed.value, info).(latestTs := now));
    }

    /** Applies changed overrides to every configured host and its live entry, in some iteration order of the hosts. */
    method RefreshAdminOverrides(
      order: seq<string>, applyOverride: Host -> Host,
      ghost markers: set<string>, ghost lifecycle: L.LifecyclePhase, ghost publication: L.PublicationPhase, ghost gone: set<string>)
      requires forall i, j :: 0 <= i < j < |order| ==> order[i] != order[j]
      requires forall k :: k in order <==> k in hostsMap
      modifies this`statMap, this`hostsMap
      ensures hostsMap == PartlyOverridden(old(hostsMap), old(hostsMap).Keys, applyOverride)
      ensures View(markers, lifecycle, publication, gone) ==
              L.Apply(old(View(markers, lifecycle, publication, gone)),
                      L.RefreshOverrides(Config(old(hostsMap), map[], applyOverride)))
    {
      ghost var hosts, stats := hostsMap, statMap;
      RefreshMaps(order, applyOverride);
      AllRefreshed(stats, hosts, applyOverride);
      hide RefreshFromHost, PartlyRefreshed, Refreshed;
    }

    method RefreshMaps(order: seq<string>, applyOverride: Host -> Host)
      requires forall i, j :: 0 <= i < j < |order| ==> order[i] != order[j]
      requires forall k :: k in order <==> k in hostsMap
      modifies this`statMap, this`hostsMap
      ensures hostsMap == PartlyOverridden(old(hostsMap), old(hostsMap).Keys, applyOverride)
      ensures statMap == PartlyRefreshed(old(statMap), old(hostsMap), old(hostsMap).Keys, applyOverride)
    {
      hide RefreshFromHost, PartlyRefreshed;
      ghost var hosts, stats := hostsMap, statMap;
      ghost var done: set<string> := {};
      NoneRefreshed(stats, hosts, applyOverride);
      for i := 0 to |order|
        invariant done <= hosts.Keys && forall j :: 0 <= j < |order| ==> (order[j] in done <==> j < i)
        invariant hostsMap == PartlyOverridden(hosts, done, applyOverride)
        invariant statMap == PartlyRefreshed(stats, hosts, done, applyOverride) && statMap.Keys == stats.Keys
      {
        var name := order[i];
        assert name in order && name !in done;
        var info := applyOverride(hostsMap[name]);
        OneMoreRefreshed(stats, hosts, done, name, applyOverride);
        hostsMap := hostsMap[name := info];
        if name in statMap {
          statMap := statMap[name := RefreshFromHost(statMap[name], info)];
        }
        done := done + {name};
      }
      assert done == hosts.Keys by {
        assert forall k :: k in hosts ==> k in order;
      }
    }

    /** Restores the known hosts of the state file, all offline, leaving out blank and deleted names. */
    method RestoreKnownHosts(
      groups: map<string, HostGroup>, known: seq<KnownHost>, deleted: set<string>, applyOverride: Host -> Host)
      modifies this`statMap, this`hostsMap
      ensures Maps(statMap, hostsMap) == RestoredMaps(old(Maps(statMap, hostsMap)), groups, known, deleted, applyOverride)
    {
      for i := 0 to |known|
        invariant Maps(statMap, hostsMap) ==
                  RestoredMaps(old(Maps(statMap, hostsMap)), groups, known[..i], deleted, applyOverride)
      {
        var host := known[i];
        assert known[..i + 1][..i] == known[..i] && known[..i + 1][i] == host;
        if Blank(host.name) || host.name in deleted {
          continue;
        }
        RestoreHost(groups, host, applyOverride);
      }
      assert known[..|known|] == known;
    }

    method RestoreHost(groups: map<string, HostGroup>, host: KnownHost, applyOverride: Host -> Host)
      modifies this`statMap, this`hostsMap
      ensures Maps(statMap, hostsMap) == RestoredOne(old(Maps(statMap, hostsMap)), groups, host, applyOverride)
    {
      var stat := host.IntoOfflineStat();
      if stat.name !in hostsMap && stat.gid in groups {
        hostsMap := hostsMap[stat.name := InstHost(groups[stat.gid], stat.name).(latestTs := stat.latestTs)];
      }
      if stat.name in hostsMap {
        var info := applyOverride(hostsMap[stat.name]);
        hostsMap := hostsMap[stat.name := info];
        stat := RefreshFromHost(stat.(gid := info.gid), info);
      }
      stat := stat.(online4 := false, online6 := false);
      statMap := statMap[stat.name := stat];
    }
  }

  /** The two maps of a refresh that has reached these hosts. */
  function PartlyOverridden(hosts: map<string, Host>, done: set<string>, applyOverride: Host -> Host): map<string, Host> {
    map k | k in hosts :: if k in done then applyOverride(hosts[k]) else hosts[k]
  }

  function PartlyRefreshed(
    stats: map<string, HostStat>, hosts: map<string, Host>, done: set<string>, applyOverride: Host -> Host): map<string, HostStat>
  {
    map k | k in stats ::
      if k in hosts && k in done then RefreshFromHost(stats[k], applyOverride(hosts[k])) else stats[k]
  }

  lemma NoneRefreshed(stats: map<string, HostStat>, hosts: map<string, Host>, applyOverride: Host -> Host)
    ensures PartlyOverridden(hosts, {}, applyOverride) == hosts && PartlyRefreshed(stats, hosts, {}, applyOverride) == stats
  {
  }

  lemma AllRefreshed(stats: map<string, HostStat>, hosts: map<string, Host>, applyOverride: Host -> Host)
    ensures PartlyRefreshed(stats, hosts, hosts.Keys, applyOverride) == Refreshed(stats, Config(hosts, map[], applyOverride))
  {
    hide RefreshFromHost;
  }

  lemma OneMoreRefreshed(
    stats: map<string, HostStat>, hosts: map<string, Host>, done: set<string>, name: string, applyOverride: Host -> Host)
    requires name in hosts && name !in done
    ensures PartlyOverridden(hosts, done + {name}, applyOverride) ==
            PartlyOverridden(hosts, done, applyOverride)[name := applyOverride(hosts[name])]
    ensures PartlyOverridden(hosts, done, applyOverride)[name] == hosts[name]
    ensures PartlyRefreshed(stats, hosts, done + {name}, applyOverride) ==
            if name in stats
            then PartlyRefreshed(stats, hosts, done, applyOverride)[name := RefreshFromHost(stats[name], applyOverride(hosts[name]))]
            else PartlyRefreshed(stats, hosts, done, applyOverride)
    ensures name in stats ==> PartlyRefreshed(stats, hosts, done, applyOverride)[name] == stats[name]
  {
    hide RefreshFromHost;
  }

  /** The two maps that a restore fills. */
  datatype Maps = Maps(stats: map<string, HostStat>, hosts: map<string, Host>)

  function RestoredOne(maps: Maps, groups: map<string, HostGroup>, host: KnownHost, applyOverride: Host -> Host): Maps {
    var stat := host.IntoOfflineStat();
    match ConfigOf(maps.hosts, groups, host)
    case None => maps.(stats := maps.stats[host.name := stat])
    case Some(config) =>
      var info := applyOverride(config);
      Maps(maps.stats[host.name := RefreshFromHost(stat.(gid := info.gid), info)], maps.hosts[host.name := info])
  }

  function RestoredMaps(
    maps: Maps, groups: map<string, HostGroup>, known: seq<KnownHost>, deleted: set<string>, applyOverride: Host -> Host): Maps
  {
    if known == [] then maps
    else
      var last := known[|known| - 1];
      var before := RestoredMaps(maps, groups, known[..|known| - 1], deleted, applyOverride);
      if L.Restorable(last, deleted) then RestoredOne(before, groups, last, applyOverride) else before
  }

  lemma RestoredOneAdds(maps: Maps, groups: map<string, HostGroup>, host: KnownHost, applyOverride: Host -> Host)
    ensures var stats := RestoredOne(maps, groups, host, applyOverride).stats;
            && host.name in stats && stats == maps.stats[host.name := stats[host.name]]
            && stats[host.name].name == host.name && !stats[host.name].Online()
  {
  }

  /** A restore adds exactly the restorable hosts, each under its own name and offline, and keeps the others. */
  lemma {:induction false} RestoreAddsExactly(
    maps: Maps, groups: map<string, HostGroup>, known: seq<KnownHost>, deleted: set<string>, applyOverride: Host -> Host)
    ensures var stats := RestoredMaps(maps, groups, known, deleted, applyOverride).stats;
            && stats.Keys == maps.stats.Keys + RestorableNames(known, deleted)
            && (forall n :: n in RestorableNames(known, deleted) ==> stats[n].name == n && !stats[n].Online())
            && (forall n :: n in maps.stats && n !in RestorableNames(known, deleted) ==> stats[n] == maps.stats[n])
  {
    hide RestoredOne;
    if known != [] {
      var before := RestoredMaps(maps, groups, known[..|known| - 1], deleted, applyOverride);
      RestoreAddsExactly(maps, groups, known[..|known| - 1], deleted, applyOverride);
      RestoredOneAdds(before, groups, known[|known| - 1], applyOverride);
    }
  }

  function RestorableNames(known: seq<KnownHost>, deleted: set<string>): set<string> {
    if known == [] then {}
    else
      var last := known[|known| - 1];
      RestorableNames(known[..|known| - 1], deleted) + if L.Restorable(last, deleted) then {last.name} else {}
  }

  lemma {:induction false} RestorableByIndex(known: seq<KnownHost>, deleted: set<string>, n: string)
    ensures n in RestorableNames(known, deleted) <==>
            exists i :: 0 <= i < |known| && L.Restorable(known[i], deleted) && known[i].name == n
  {
    if known != [] {
      var shorter := known[..|known| - 1];
      RestorableByIndex(shorter, deleted, n);
      assert forall i :: 0 <= i < |shorter| ==> shorter[i] == known[i];
    }
  }

  /** The known hosts of a state, in some iteration order of their map. */
  predicate Enumerates(known: seq<KnownHost>, order: seq<string>, hosts: map<string, KnownHost>) {
    && |known| == |order| && (forall i, j :: 0 <= i < j < |order| ==> order[i] != order[j])
    && (forall k :: k in hosts ==> k in order)
    && forall i :: 0 <= i < |order| ==> order[i] in hosts && known[i] == hosts[order[i]]
  }

  predicate DistinctHosts(known: seq<KnownHost>) {
    forall i, j :: 0 <= i < j < |known| ==> known[i].name != known[j].name
  }

  /** Entries of hosts that are not among the known ones are as the server started with. */
  ghost predicate StillConfigured(hosts: map<string, Host>, start: map<string, Host>, known: seq<KnownHost>) {
    forall n :: (forall i :: 0 <= i < |known| ==> known[i].name != n) ==>
      (n in hosts <==> n in start) && (n in start ==> hosts[n] == start[n])
  }

  ghost predicate RestoredFrom(stats: map<string, HostStat>, known: seq<KnownHost>, deleted: set<string>, config: Config) {
    forall i :: 0 <= i < |known| && L.Restorable(known[i], deleted) ==>
      known[i].name in stats && stats[known[i].name] == RestoredEntry(config, known[i])
  }

  lemma RestoredOneIsEntry(maps: Maps, config: Config, host: KnownHost)
    requires host.name in maps.hosts <==> host.name in config.hosts
    requires host.name in maps.hosts ==> maps.hosts[host.name] == config.hosts[host.name]
    ensures var after := RestoredOne(maps, config.groups, host, config.override);
            && after.stats == maps.stats[host.name := RestoredEntry(config, host)]
            && forall n :: n != host.name ==> (n in after.hosts <==> n in maps.hosts) && (n in maps.hosts ==> after.hosts[n] == maps.hosts[n])
  {
    hide RefreshFromHost, InstHost;
  }

  lemma StillConfiguredNext(before: map<string, Host>, after: map<string, Host>, start: map<string, Host>, known: seq<KnownHost>)
    requires known != [] && StillConfigured(before, start, known[..|known| - 1])
    requires forall n :: n != known[|known| - 1].name ==> (n in after <==> n in before) && (n in before ==> after[n] == before[n])
    ensures StillConfigured(after, start, known)
  {
    var m := |known| - 1;
    forall n | forall i :: 0 <= i < |known| ==> known[i].name != n
      ensures (n in after <==> n in start) && (n in start ==> after[n] == start[n])
    {
      assert known[m].name != n;
      assert forall i :: 0 <= i < m ==> known[..m][i].name != n;
    }
  }

  lemma RestoredFromNext(stats: map<string, HostStat>, known: seq<KnownHost>, deleted: set<string>, config: Config)
    requires known != [] && DistinctHosts(known) && RestoredFrom(stats, known[..|known| - 1], deleted, config)
    ensures var last := known[|known| - 1];
            && RestoredFrom(stats[last.name := RestoredEntry(config, last)], known, deleted, config)
            && (!L.Restorable(last, deleted) ==> RestoredFrom(stats, known, deleted, config))
  {
    hide RestoredEntry;
    var n := |known| - 1;
    assert forall i :: 0 <= i < n ==> known[..n][i] == known[i] && known[i].name != known[n].name;
  }

  lemma RestoredNext(maps: Maps, config: Config, known: seq<KnownHost>, deleted: set<string>)
    requires known != [] && DistinctHosts(known)
    requires var front := known[..|known| - 1];
             StillConfigured(maps.hosts, config.hosts, front) && RestoredFrom(maps.stats, front, deleted, config)
    ensures var last := known[|known| - 1];
            var after := if L.Restorable(last, deleted) then RestoredOne(maps, config.groups, last, config.override) else maps;
            StillConfigured(after.hosts, config.hosts, known) && RestoredFrom(after.stats, known, deleted, config)
  {
    var n, last := |known| - 1, known[|known| - 1];
    assert forall i :: 0 <= i < n ==> known[..n][i].name != last.name;
    assert last.name in maps.hosts <==> last.name in config.hosts;
    hide RestoredOne, RestoredEntry, RestoredFrom, StillConfigured, L.Restorable;
    RestoredOneIsEntry(maps, config, last);
    RestoredFromNext(maps.stats, known, deleted, config);
    StillConfiguredNext(maps.hosts, maps.hosts, config.hosts, known);
    StillConfiguredNext(maps.hosts, RestoredOne(maps, config.groups, last, config.override).hosts, config.hosts, known);
  }

  /** Of distinct hosts, each is restored from the configuration the server started with. */
  lemma {:induction false} RestoredEntries(config: Config, known: seq<KnownHost>, deleted: set<string>)
    requires DistinctHosts(known)
    ensures var maps := RestoredMaps(Maps(map[], config.hosts), config.groups, known, deleted, config.override);
            StillConfigured(maps.hosts, config.hosts, known) && RestoredFrom(maps.stats, known, deleted, config)
  {
    hide RestoredOne, StillConfigured, RestoredFrom;
    if known == [] {
      NothingRestored(config, deleted);
    } else {
      var front := known[..|known| - 1];
      RestoredEntries(config, front, deleted);
      RestoredNext(RestoredMaps(Maps(map[], config.hosts), config.groups, front, deleted, config.override), config, known, deleted);
    }
  }

  lemma NothingRestored(config: Config, deleted: set<string>)
    ensures StillConfigured(config.hosts, config.hosts, []) && RestoredFrom(map[], [], deleted, config)
  {
  }

  /** What a restart restores into an empty map is what the lifecycle machine says it restores. */
  lemma RestoredMatchesMachine(
    config: Config, known: seq<KnownHost>, order: seq<string>, hosts: map<string, KnownHost>, deleted: set<string>)
    requires Enumerates(known, order, hosts)
    ensures L.Restores(RestoredMaps(Maps(map[], config.hosts), config.groups, known, deleted, config.override).stats, hosts, deleted, config)
  {
    RestoreAddsExactly(Maps(map[], config.hosts), config.groups, known, deleted, config.override);
    RestoredNames(known, order, hosts, deleted);
    if L.WellKeyed(State(hosts, map[])) {
      hide RestoredMaps, RestorableNames, RestoredEntry;
      assert forall i :: 0 <= i < |order| ==> known[i].name == order[i];
      RestoredEntries(config, known, deleted);
      var stats := RestoredMaps(Maps(map[], config.hosts), config.groups, known, deleted, config.override).stats;
      forall n | n in stats
        ensures n in hosts && stats[n] == RestoredEntry(config, hosts[n])
      {
        RestorableByIndex(known, deleted, n);
        var i :| 0 <= i < |known| && L.Restorable(known[i], deleted) && known[i].name == n;
        assert order[i] == n;
      }
    }
  }

  lemma RestoredNames(known: seq<KnownHost>, order: seq<string>, hosts: map<string, KnownHost>, deleted: set<string>)
    requires Enumerates(known, order, hosts)
    ensures RestorableNames(known, deleted) == (set k | k in hosts && L.Restorable(hosts[k], deleted) :: hosts[k].name)
  {
    var names := set k | k in hosts && L.Restorable(hosts[k], deleted) :: hosts[k].name;
    forall n
      ensures n in RestorableNames(known, deleted) <==> n in names
    {
      RestorableByIndex(known, deleted, n);
      if n in RestorableNames(known, deleted) {
        var i :| 0 <= i < |known| && L.Restorable(known[i], deleted) && known[i].name == n;
        assert hosts[order[i]].name in names;
      }
      if n in names {
        var k :| k in hosts && L.Restorable(hosts[k], deleted) && hosts[k].name == n;
        var i :| 0 <= i < |order| && order[i] == k;
        assert known[i].name in RestorableNames(known, deleted);
      }
    }
  }

  /** `servers.retain(..)`, the in-place filter of a purge. */
  method Retain(servers: seq<HostStat>, hosts: set<string>) returns (kept: seq<HostStat>)
    ensures kept == Without(servers, hosts)
  {
    kept := [];
    for i := 0 to |servers|
      invariant kept == Without(servers[..i], hosts)
    {
      assert servers[..i + 1][..i] == servers[..i] && servers[..i + 1][i] == servers[i];
      if servers[i].name !in hosts {
        kept := kept + [servers[i]];
      }
    }
    assert servers[..|servers|] == servers;
  }
}
