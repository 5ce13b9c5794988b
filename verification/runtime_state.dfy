/**
The runtime state store: known hosts and alert timers in memory, saved to a file by any number of
concurrent savers.  A save takes a snapshot with its generation, writes a temporary file, and renames
it over the state file only if the generation has not moved in between.
*/
module RuntimeState {
  import opened Wrappers
  import opened Text
  import opened Payload

  const RUNTIME_STATE_VERSION: nat := 1

  datatype KnownHost = KnownHost(
    name: string, alias: string, gid: string, weight: nat, notify: bool, latestTs: nat)
  {
    static function FromStat(stat: HostStat): KnownHost {
      KnownHost(stat.name, stat.alias, stat.gid, stat.weight, stat.notify, stat.latestTs)
    }

    /** A restored host starts offline, whatever it reported last. */
    function IntoOfflineStat(): HostStat {
      HostStat(name, alias, gid, notify, false, false, false, weight, 0, latestTs, 0.0, 0.0, 0.0, 0.0, 0, 0, 0, 0)
    }
  }

  datatype AlertState = AlertState(since: nat, lastEnqueuedAt: nat)

  datatype State = State(hosts: map<string, KnownHost>, alerts: map<string, AlertState>)

  const EMPTY_STATE := State(map[], map[])

  /** What the state file holds. */
  datatype StateFile = Missing | Unreadable | Parsed(version: nat, state: State)

  function Load(file: StateFile): State {
    if file.Parsed? && file.version == RUNTIME_STATE_VERSION then file.state else EMPTY_STATE
  }

  /** Memory and file together. */
  datatype Store = Store(generation: nat, state: State, file: StateFile)

  /** A save in progress: the snapshot it took and the generation it took it at. */
  datatype Ticket = Ticket(state: State, generation: nat)

  datatype SaveResult = Published | Skipped | Failed

  /** The I/O calls that can fail during a save. */
  datatype Fault = NoFault | WriteFails | RemoveFails | RenameFails | SyncFails

  // ---------- alert keys ----------

  function AlertKey(host: string, rule: string): string {
    host + ":" + rule
  }

  predicate SurvivesPurge(key: string, hosts: set<string>) {
    match RSplitColon(key)
    case None => true
    case Some(parts) => parts.0 !in hosts
  }

  predicate SurvivesPrune(key: string, rules: set<string>, hosts: set<string>) {
    match RSplitColon(key)
    case None => false
    case Some(parts) => parts.0 in hosts && parts.1 in rules
  }

  /** A key splits back into its host and rule exactly when the rule id has no colon; the host may have any. */
  lemma {:induction false} AlertKeySplits(host: string, rule: string)
    ensures RSplitColon(AlertKey(host, rule)) == Some((host, rule)) <==> ':' !in rule
  {
    var key := AlertKey(host, rule);
    assert key[|host|] == ':';
    assert forall i :: |host| < i < |key| ==> key[i] == rule[i - |host| - 1];
    assert key[..|host|] == host && key[|host| + 1..] == rule;
    var parts := RSplitColon(key).value;
    assert key[..|parts.0|] == parts.0 && key[|parts.0| + 1..] == parts.1;
    if ':' in rule {
      var k :| 0 <= k < |rule| && rule[k] == ':';
      assert key[|host| + 1 + k] == ':';
      assert |parts.0| > |host|;
    } else {
      assert |parts.0| == |host|;
    }
  }

  /** Why rule ids must be free of colons: this alert belongs to "vps" yet survives the purge of "vps". */
  lemma ColonInRuleIdSurvivesPurge()
    ensures SurvivesPurge(AlertKey("vps", "cpu:high"), {"vps"})
    ensures !SurvivesPrune(AlertKey("vps", "cpu:high"), {"cpu:high"}, {"vps"})
  {
    assert AlertKey("vps", "cpu:high") == AlertKey("vps:cpu", "high");
    AlertKeySplits("vps:cpu", "high");
    assert "vps:cpu"[3] == ':' && |"vps"| == 3;
  }

  // ---------- the store's operations on values ----------

  function Bump(s: Store, changed: bool, state: State): Store {
    s.(state := state, generation := if changed then s.generation + 1 else s.generation)
  }

  function Upsert(s: Store, host: KnownHost): Store {
    if Blank(host.name) then s
    else Bump(s, true, s.state.(hosts := s.state.hosts[host.name := host]))
  }

  function WithoutHosts<V>(m: map<string, V>, hosts: set<string>): map<string, V> {
    map k | k in m && k !in hosts :: m[k]
  }

  function Purged(state: State, hosts: set<string>): State {
    State(WithoutHosts(state.hosts, hosts), map k | k in state.alerts && SurvivesPurge(k, hosts) :: state.alerts[k])
  }

  /** The length tests of `purge_hosts`. */
  predicate Shrunk(before: State, after: State) {
    |after.hosts| != |before.hosts| || |after.alerts| != |before.alerts|
  }

  function Purge(s: Store, hosts: set<string>): Store {
    if hosts == {} then s
    else Bump(s, Shrunk(s.state, Purged(s.state, hosts)), Purged(s.state, hosts))
  }

  function SetAlerts(s: Store, alerts: map<string, AlertState>): Store {
    Bump(s, alerts != s.state.alerts, s.state.(alerts := alerts))
  }

  function MarkEnqueued(s: Store, key: string, now: nat): Store {
    if key !in s.state.alerts || s.state.alerts[key].lastEnqueuedAt == now then s
    else
      var alert := s.state.alerts[key].(lastEnqueuedAt := now);
      Bump(s, true, s.state.(alerts := s.state.alerts[key := alert]))
  }

  function Pruned(state: State, rules: set<string>, hosts: set<string>): State {
    state.(alerts := map k | k in state.alerts && SurvivesPrune(k, rules, hosts) :: state.alerts[k])
  }

  function Prune(s: Store, rules: set<string>, hosts: set<string>): Store {
    Bump(s, Shrunk(s.state, Pruned(s.state, rules, hosts)), Pruned(s.state, rules, hosts))
  }

  function Snapshot(s: Store): Ticket {
    Ticket(s.state, s.generation)
  }

  predicate Installs(s: Store, ticket: Ticket, fault: Fault) {
    !fault.WriteFails? && s.generation == ticket.generation && !fault.RenameFails?
  }

  /** The second half of a save, under the store's publication and state locks. */
  function Publish(s: Store, ticket: Ticket, fault: Fault): (Store, SaveResult) {
    if fault.WriteFails? then (s, Failed)
    else if s.generation != ticket.generation then (s, if fault.RemoveFails? then Failed else Skipped)
    else if fault.RenameFails? then (s, Failed)
    else (s.(file := Parsed(RUNTIME_STATE_VERSION, ticket.state)), if fault.SyncFails? then Failed else Published)
  }

  // ---------- the store as the program keeps it ----------

  class RuntimeStateStore {
    var generation: nat
    var state: State
    var file: StateFile

    ghost function View(): Store
      reads this
    {
      Store(generation, state, file)
    }

    constructor (onDisk: StateFile)
      ensures View() == Store(0, Load(onDisk), onDisk)
    {
      generation, state, file := 0, Load(onDisk), onDisk;
    }

    method UpsertHost(host: KnownHost)
      modifies this
      ensures View() == Upsert(old(View()), host)
    {
      if Blank(host.name) {
        return;
      }
      state := state.(hosts := state.hosts[host.name := host]);
      generation := generation + 1;
    }

    method PurgeHosts(hosts: set<string>) returns (changed: bool)
      modifies this
      ensures View() == Purge(old(View()), hosts)
      ensures changed <==> state != old(state)
    {
      if hosts == {} {
        return false;
      }
      ghost var before := state;
      var beforeHosts, beforeAlerts := |state.hosts|, |state.alerts|;
      state := State(
        map k | k in state.hosts && k !in hosts :: state.hosts[k],
        map k | k in state.alerts && SurvivesPurge(k, hosts) :: state.alerts[k]);
      changed := |state.hosts| != beforeHosts || |state.alerts| != beforeAlerts;
      ShrunkExactlyWhenChanged(before, state);
      if changed {
        generation := generation + 1;
      }
    }

    method UpdateAlerts<T>(update: map<string, AlertState> -> (T, map<string, AlertState>))
      returns (result: T, changed: bool)
      modifies this
      ensures View() == SetAlerts(old(View()), update(old(state.alerts)).1)
      ensures result == update(old(state.alerts)).0
      ensures changed <==> state != old(state)
    {
      var previous := state.alerts;
      var (r, alerts) := update(state.alerts);
      result := r;
      state := state.(alerts := alerts);
      changed := state.alerts != previous;
      if changed {
        generation := generation + 1;
      }
    }

    method MarkAlertEnqueued(key: string, now: nat) returns (changed: bool)
      modifies this
      ensures View() == MarkEnqueued(old(View()), key, now)
      ensures changed <==> state != old(state)
    {
      if key !in state.alerts {
        return false;
      }
      var alert := state.alerts[key];
      if alert.lastEnqueuedAt == now {
        return false;
      }
      ghost var before := state;
      state := state.(alerts := state.alerts[key := alert.(lastEnqueuedAt := now)]);
      assert state.alerts[key] != before.alerts[key];
      generation := generation + 1;
      changed := true;
    }

    method PruneAlertStates(rules: set<string>, hosts: set<string>) returns (changed: bool)
      modifies this
      ensures View() == Prune(old(View()), rules, hosts)
      ensures changed <==> state != old(state)
    {
      ghost var was := state;
      var before := |state.alerts|;
      state := state.(alerts := map k | k in state.alerts && SurvivesPrune(k, rules, hosts) :: state.alerts[k]);
      changed := |state.alerts| != before;
      ShrunkExactlyWhenChanged(was, state);
      if changed {
        generation := generation + 1;
      }
    }

    method BeginSave() returns (ticket: Ticket)
      ensures ticket == Snapshot(View())
    {
      ticket := Ticket(state, generation);
    }

    method PublishSave(ticket: Ticket, fault: Fault) returns (result: SaveResult)
      modifies this
      ensures (View(), result) == Publish(old(View()), ticket, fault)
    {
      if fault.WriteFails? {
        return Failed;
      }
      if generation != ticket.generation {
        return if fault.RemoveFails? then Failed else Skipped;
      }
      if fault.RenameFails? {
        return Failed;
      }
      file := Parsed(RUNTIME_STATE_VERSION, ticket.state);
      return if fault.SyncFails? then Failed else Published;
    }

    /** A save with nothing running between its two halves. */
    method Save(fault: Fault) returns (result: SaveResult)
      modifies this
      ensures (View(), result) == Publish(old(View()), Snapshot(old(View())), fault)
      ensures !result.Skipped?
    {
      var ticket := BeginSave();
      result := PublishSave(ticket, fault);
    }
  }

  // ---------- every change of state moves the generation ----------

  lemma SubmapOfSameSize<V>(small: map<string, V>, big: map<string, V>)
    requires forall k :: k in small ==> k in big && small[k] == big[k]
    ensures |small| <= |big|
    ensures |small| == |big| <==> small == big
  {
    assert small.Keys <= big.Keys;
    SubsetOfSameSize(small.Keys, big.Keys);
    assert |small.Keys| == |small| && |big.Keys| == |big|;
  }

  lemma SubsetOfSameSize<T>(small: set<T>, big: set<T>)
    requires small <= big
    ensures |small| <= |big|
    ensures |small| == |big| <==> small == big
  {
    assert big == small + (big - small);
    assert |big| == |small| + |big - small|;
  }

  /** Comparing lengths before and after a `retain` detects exactly the removals. */
  lemma ShrunkExactlyWhenChanged(before: State, after: State)
    requires forall k :: k in after.hosts ==> k in before.hosts && after.hosts[k] == before.hosts[k]
    requires forall k :: k in after.alerts ==> k in before.alerts && after.alerts[k] == before.alerts[k]
    ensures Shrunk(before, after) <==> after != before
  {
    SubmapOfSameSize(after.hosts, before.hosts);
    SubmapOfSameSize(after.alerts, before.alerts);
  }

  // ---------- runs of savers and mutators ----------

  datatype Op =
    | OpUpsert(host: KnownHost)
    | OpPurge(hosts: set<string>)
    | OpSetAlerts(alerts: map<string, AlertState>)
    | OpMark(key: string, now: nat)
    | OpPrune(rules: set<string>, hosts: set<string>)
    | OpBegin(saver: nat)
    | OpPublish(saver: nat, fault: Fault)

  /** A store with the saves in progress and the log of every rename so far. */
  datatype World = World(store: Store, tickets: map<nat, Ticket>, installs: seq<Ticket>)

  function Start(onDisk: StateFile): World {
    World(Store(0, Load(onDisk), onDisk), map[], [])
  }

  function Step(w: World, op: Op): World {
    match op
    case OpUpsert(host) => w.(store := Upsert(w.store, host))
    case OpPurge(hosts) => w.(store := Purge(w.store, hosts))
    case OpSetAlerts(alerts) => w.(store := SetAlerts(w.store, alerts))
    case OpMark(key, now) => w.(store := MarkEnqueued(w.store, key, now))
    case OpPrune(rules, hosts) => w.(store := Prune(w.store, rules, hosts))
    case OpBegin(saver) => w.(tickets := w.tickets[saver := Snapshot(w.store)])
    case OpPublish(saver, fault) =>
      if saver !in w.tickets then w
      else
        var ticket := w.tickets[saver];
        World(Publish(w.store, ticket, fault).0,
              w.tickets - {saver},
              if Installs(w.store, ticket, fault) then w.installs + [ticket] else w.installs)
  }

  function Run(w: World, ops: seq<Op>): World
    decreases |ops|
  {
    if ops == [] then w else Run(Step(w, ops[0]), ops[1..])
  }

  /** The operations that can change hosts or alerts. */
  predicate Mutator(op: Op) {
    !op.OpBegin? && !op.OpPublish?
  }

  lemma {:induction false} RunConcat(w: World, a: seq<Op>, b: seq<Op>)
    ensures Run(w, a + b) == Run(Run(w, a), b)
    decreases |a|
  {
    if a == [] {
      assert a + b == b;
    } else {
      assert (a + b)[1..] == a[1..] + b;
      RunConcat(Step(w, a[0]), a[1..], b);
    }
  }

  /** The generation never goes back, and the state changes only when it moves. */
  lemma StepMovesGeneration(w: World, op: Op)
    ensures Step(w, op).store.generation >= w.store.generation
    ensures Step(w, op).store.state != w.store.state ==> Step(w, op).store.generation > w.store.generation
    ensures Step(w, op).store.generation != w.store.generation ==> Mutator(op)
  {
    match op {
      case OpPurge(hosts) => ShrunkExactlyWhenChanged(w.store.state, Purged(w.store.state, hosts));
      case OpPrune(rules, hosts) => ShrunkExactlyWhenChanged(w.store.state, Pruned(w.store.state, rules, hosts));
      case _ =>
    }
  }

  lemma {:induction false} RunMovesGeneration(w: World, ops: seq<Op>)
    ensures Run(w, ops).store.generation >= w.store.generation
    ensures Run(w, ops).store.state != w.store.state ==> Run(w, ops).store.generation > w.store.generation
    decreases |ops|
  {
    if ops != [] {
      StepMovesGeneration(w, ops[0]);
      RunMovesGeneration(Step(w, ops[0]), ops[1..]);
    }
  }

  /** A snapshot at the present generation is a snapshot of the present state. */
  predicate Consistent(w: World) {
    && (forall i :: i in w.tickets ==> TicketOf(w.store, w.tickets[i]))
    && (forall i :: 0 <= i < |w.installs| ==> TicketOf(w.store, w.installs[i]))
  }

  predicate TicketOf(s: Store, t: Ticket) {
    t.generation <= s.generation && (t.generation == s.generation ==> t.state == s.state)
  }

  lemma StepKeepsConsistent(w: World, op: Op)
    requires Consistent(w)
    ensures Consistent(Step(w, op))
  {
    StepMovesGeneration(w, op);
  }

  lemma {:induction false} RunKeepsConsistent(w: World, ops: seq<Op>)
    requires Consistent(w)
    ensures Consistent(Run(w, ops))
    decreases |ops|
  {
    if ops != [] {
      StepKeepsConsistent(w, ops[0]);
      RunKeepsConsistent(Step(w, ops[0]), ops[1..]);
    }
  }

  /**
  However savers and mutators interleave, a step either leaves the file alone or makes it exactly the
  in-memory state of that instant: each save acts like one atomic write at the moment of its rename.
  */
  lemma SaveIsOneAtomicWrite(onDisk: StateFile, ops: seq<Op>, op: Op)
    ensures var w := Run(Start(onDisk), ops);
            var w' := Step(w, op);
            w'.store.file != w.store.file ==> w'.store.file == Parsed(RUNTIME_STATE_VERSION, w.store.state)
    ensures var w := Run(Start(onDisk), ops);
            var w' := Step(w, op);
            w'.installs != w.installs ==>
              && w'.installs == w.installs + [Snapshot(w.store)]
              && Load(w'.store.file) == w'.store.state
  {
    RunKeepsConsistent(Start(onDisk), ops);
  }

  predicate GenerationsAscend(installs: seq<Ticket>) {
    forall i, j :: 0 <= i < j < |installs| ==>
      && installs[i].generation <= installs[j].generation
      && (installs[i].generation == installs[j].generation ==> installs[i].state == installs[j].state)
  }

  /** The file holds the last install, or its first contents if there was none. */
  predicate FileIsLastInstall(w: World, onDisk: StateFile) {
    w.store.file == if w.installs == [] then onDisk
                    else Parsed(RUNTIME_STATE_VERSION, w.installs[|w.installs| - 1].state)
  }

  lemma StepKeepsInstallOrder(w: World, op: Op, onDisk: StateFile)
    requires Consistent(w) && GenerationsAscend(w.installs) && FileIsLastInstall(w, onDisk)
    ensures GenerationsAscend(Step(w, op).installs) && FileIsLastInstall(Step(w, op), onDisk)
    ensures w.installs <= Step(w, op).installs
  {
  }

  lemma {:induction false} RunKeepsInstallOrder(w: World, ops: seq<Op>, onDisk: StateFile)
    requires Consistent(w) && GenerationsAscend(w.installs) && FileIsLastInstall(w, onDisk)
    ensures GenerationsAscend(Run(w, ops).installs) && FileIsLastInstall(Run(w, ops), onDisk)
    ensures w.installs <= Run(w, ops).installs
    decreases |ops|
  {
    if ops != [] {
      StepKeepsInstallOrder(w, ops[0], onDisk);
      StepKeepsConsistent(w, ops[0]);
      RunKeepsInstallOrder(Step(w, ops[0]), ops[1..], onDisk);
    }
  }

  /** No save overwrites a newer one: the generations renamed into place never go down. */
  lemma NoStaleOverwrite(onDisk: StateFile, ops: seq<Op>)
    ensures var w := Run(Start(onDisk), ops);
            GenerationsAscend(w.installs) && FileIsLastInstall(w, onDisk)
  {
    RunKeepsInstallOrder(Start(onDisk), ops, onDisk);
  }

  /** A step of `mid` that moves the generation, counted from `w`. */
  predicate MovesAt(w: World, mid: seq<Op>, j: nat)
    requires j < |mid|
  {
    && Mutator(mid[j])
    && Run(w, mid[..j + 1]).store.generation > Run(w, mid[..j]).store.generation
  }

  /** Some mutator of `mid` moves the generation. */
  predicate Overtaken(w: World, mid: seq<Op>) {
    exists j :: 0 <= j < |mid| && MovesAt(w, mid, j)
  }

  lemma {:induction false} MovedSomewhere(w: World, mid: seq<Op>)
    ensures Run(w, mid).store.generation != w.store.generation <==> Overtaken(w, mid)
    decreases |mid|
  {
    if mid == [] {
    } else {
      var n := |mid| - 1;
      assert mid == mid[..n] + [mid[n]];
      RunConcat(w, mid[..n], [mid[n]]);
      var last := Run(w, mid[..n]);
      assert Run(w, mid) == Step(last, mid[n]);
      StepMovesGeneration(last, mid[n]);
      MovedSomewhere(w, mid[..n]);
      RunMovesGeneration(w, mid[..n]);
      forall j | 0 <= j < n
        ensures MovesAt(w, mid, j) <==> MovesAt(w, mid[..n], j)
      {
        assert mid[..n][..j] == mid[..j] && mid[..n][..j + 1] == mid[..j + 1];
      }
      assert mid[..n + 1] == mid;
      assert MovesAt(w, mid, n) <==> Step(last, mid[n]).store.generation > last.store.generation;
    }
  }

  lemma {:induction false} TicketWaits(w: World, mid: seq<Op>, saver: nat)
    requires forall op :: op in mid ==> op != OpBegin(saver) && !(op.OpPublish? && op.saver == saver)
    ensures (saver in w.tickets <==> saver in Run(w, mid).tickets)
    ensures saver in w.tickets ==> Run(w, mid).tickets[saver] == w.tickets[saver]
    decreases |mid|
  {
    if mid != [] {
      assert forall op :: op in mid[1..] ==> op in mid;
      TicketWaits(Step(w, mid[0]), mid[1..], saver);
    }
  }

  /**
  With no I/O error, a save reports Skipped exactly when some mutator moved the generation between its
  snapshot and its rename, and then it leaves the file alone; otherwise it is Published and the file holds
  the present state.
  */
  lemma SkippedExactlyWhenOvertaken(w: World, mid: seq<Op>, saver: nat)
    requires forall op :: op in mid ==> op != OpBegin(saver) && !(op.OpPublish? && op.saver == saver)
    ensures var begun := Step(w, OpBegin(saver));
            var before := Run(begun, mid);
            && saver in before.tickets
            && var (store, result) := Publish(before.store, before.tickets[saver], NoFault);
            if Overtaken(begun, mid)
            then result == Skipped && store == before.store
            else result == Published && Load(store.file) == before.store.state == w.store.state
  {
    var begun := Step(w, OpBegin(saver));
    TicketWaits(begun, mid, saver);
    MovedSomewhere(begun, mid);
    RunMovesGeneration(begun, mid);
  }

  predicate PurgeSpares(s: Store, hosts: set<string>, host: string, rule: string) {
    AlertKey(host, rule) in Purge(s, hosts).state.alerts
  }

  predicate PruneSpares(s: Store, rules: set<string>, hosts: set<string>, host: string, rule: string) {
    AlertKey(host, rule) in Prune(s, rules, hosts).state.alerts
  }

  /** A purge removes a host's alert of some rule exactly when it names the host, if and only if the rule id has no colon. */
  lemma PurgeRemovesExactlyTheirAlerts(s: Store, host: string, rule: string)
    requires AlertKey(host, rule) in s.state.alerts
    ensures (forall hosts :: PurgeSpares(s, hosts, host, rule) <==> host !in hosts) <==> ':' !in rule
  {
    AlertKeySplits(host, rule);
    if ':' in rule {
      ColonMovesSplit(host, rule);
      assert PurgeSpares(s, {host}, host, rule);
    }
  }

  /** A prune keeps it exactly when rule and host are active, if and only if the rule id has no colon. */
  lemma PruneKeepsExactlyActive(s: Store, host: string, rule: string)
    requires AlertKey(host, rule) in s.state.alerts
    ensures (forall rules, hosts :: PruneSpares(s, rules, hosts, host, rule) <==> host in hosts && rule in rules) <==> ':' !in rule
  {
    AlertKeySplits(host, rule);
    if ':' in rule {
      ColonMovesSplit(host, rule);
      assert !PruneSpares(s, {rule}, {host}, host, rule);
    }
  }

  /** The key is that of some host and rule, split at its last colon. */
  predicate IsKeyOf(key: string, host: string, rule: string) {
    key == host + ":" + rule && ':' !in rule
  }

  lemma KeyParts(key: string, host: string, rule: string)
    ensures IsKeyOf(key, host, rule) <==> RSplitColon(key) == Some((host, rule))
  {
    if IsKeyOf(key, host, rule) {
      AlertKeySplits(host, rule);
    }
    if RSplitColon(key) == Some((host, rule)) {
      assert forall i :: 0 <= i < |rule| ==> rule[i] == key[|host| + 1 + i];
    }
  }

  /** A purge takes away exactly the alerts whose key, at its last colon, names one of the hosts. */
  lemma PurgeByKey(s: Store, hosts: set<string>, key: string)
    ensures key in Purge(s, hosts).state.alerts <==>
            key in s.state.alerts && !exists host, rule :: host in hosts && IsKeyOf(key, host, rule)
    ensures key in Purge(s, hosts).state.alerts ==> Purge(s, hosts).state.alerts[key] == s.state.alerts[key]
  {
    forall host, rule {
      KeyParts(key, host, rule);
    }
    var parts := RSplitColon(key);
    assert parts.Some? ==> IsKeyOf(key, parts.value.0, parts.value.1);
  }

  /** A prune leaves exactly the alerts whose key names an active host and rule. */
  lemma PruneByKey(s: Store, rules: set<string>, hosts: set<string>, key: string)
    ensures key in Prune(s, rules, hosts).state.alerts <==>
            key in s.state.alerts && exists host, rule :: host in hosts && rule in rules && IsKeyOf(key, host, rule)
    ensures key in Prune(s, rules, hosts).state.alerts ==> Prune(s, rules, hosts).state.alerts[key] == s.state.alerts[key]
  {
    forall host, rule {
      KeyParts(key, host, rule);
    }
    var parts := RSplitColon(key);
    assert parts.Some? ==> IsKeyOf(key, parts.value.0, parts.value.1);
  }

  /** What is known of one alert, or of one host. */
  function AlertAt(state: State, key: string): Option<AlertState> {
    if key in state.alerts then Some(state.alerts[key]) else None
  }

  function HostAt(state: State, name: string): Option<KnownHost> {
    if name in state.hosts then Some(state.hosts[name]) else None
  }

  /**
  What memory holds after an operation, host by host and alert by alert: an upsert stores its host, a purge takes away
  hosts and their alerts, an update replaces the alerts, a mark stamps one, a prune takes away inactive ones.
  */
  lemma MemoryAfter(w: World, op: Op, name: string, key: string)
    ensures var before, after := w.store.state, Step(w, op).store.state;
            && HostAt(after, name) ==
               (match op
                case OpUpsert(host) => if name == host.name && Trim(name) != "" then Some(host) else HostAt(before, name)
                case OpPurge(hosts) => if name in hosts then None else HostAt(before, name)
                case _ => HostAt(before, name))
            && AlertAt(after, key) ==
               match op
               case OpPurge(hosts) =>
                 if exists host, rule :: host in hosts && IsKeyOf(key, host, rule) then None else AlertAt(before, key)
               case OpSetAlerts(alerts) => if key in alerts then Some(alerts[key]) else None
               case OpMark(marked, now) =>
                 if key == marked && key in before.alerts then Some(AlertState(before.alerts[key].since, now)) else AlertAt(before, key)
               case OpPrune(rules, hosts) =>
                 if exists host, rule :: host in hosts && rule in rules && IsKeyOf(key, host, rule) then AlertAt(before, key) else None
               case _ => AlertAt(before, key)
  {
    match op {
      case OpPurge(hosts) => PurgeByKey(w.store, hosts, key);
      case OpPrune(rules, hosts) => PruneByKey(w.store, rules, hosts, key);
      case _ =>
    }
  }

  /** A rule id with a colon makes the host read off the key too long. */
  lemma ColonMovesSplit(host: string, rule: string)
    requires ':' in rule
    ensures var parts := RSplitColon(AlertKey(host, rule)); parts.Some? && parts.value.0 != host
  {
    var key := AlertKey(host, rule);
    var k :| 0 <= k < |rule| && rule[k] == ':';
    assert key[|host| + 1 + k] == ':' && key[|host|] == ':';
  }
}
