/**
The host lifecycle as a machine of atomic sections.  The report thread, the timer thread, the
administrator's purge and settings requests, and crashes with restart all act on one system.  The phase of
each lock records how far its holder has got, so every step below is one section between two points where
another thread may run.
*/
module Lifecycle {
  import opened Wrappers
  import opened Text
  import opened Payload
  import opened RuntimeState
  import R = RuntimeState
  import opened Publication
  import opened Hosts

  /** Who holds the lifecycle lock, and how far it has got. */
  datatype LifecyclePhase =
    | Idle
    | Reporting(stat: HostStat)
    | ReportSaving(reportTicket: Ticket)
    | PurgeWaiting(hosts: set<string>)
    | PurgeSaving(hosts: set<string>, purgeTicket: Ticket)
    | PurgePublishing(hosts: set<string>, saved: bool)
    | PurgeTexting(hosts: set<string>, ok: bool, before: StatsResp)
    | PurgeClearing(hosts: set<string>)

  /**
  Who holds the publication lock; `timer` tells the timer thread from a rebuild.  The served list and its text are
  behind two locks and written one after the other: `before` is the list that the text still shows.
  */
  datatype PublicationPhase =
    | Free
    | Started(markers: set<string>, generation: nat, timer: bool)
    | Listed(resp: StatsResp, generation: nat, timer: bool)
    | TimerSaving(resp: StatsResp, generation: nat, timerTicket: Ticket)
    | Written(before: StatsResp)
    | HeldByPurge

  datatype System = System(
    // on disk: deleted-host markers, the public snapshot and, inside `store`, the runtime state file
    markers: set<string>,
    snapshot: Option<StatsResp>,
    store: Store,
    // in memory
    statMap: map<string, HostStat>,
    served: StatsResp,
    json: PublicJson,
    publicationGeneration: nat,
    lifecycle: LifecyclePhase,
    publication: PublicationPhase,
    // history: hosts whose purge finished and which have not reported since
    gone: set<string>)

  datatype Step =
    | StartReport(stat: HostStat, known: bool, markerWritten: bool)
    | ReportAlerts(op: Op)
    | InsertReport(save: bool)
    | FinishReportSave(fault: Fault)
    | StartPublication(timer: bool)
    | TimerAlerts(op: Op)
    | ListHosts(order: seq<string>, updated: nat, threshold: nat)
    | StartTimerSave
    | FinishTimerSave(fault: Fault)
    | PublishList(save: bool, saved: bool)
    | PublishText
    | TakePurge(hosts: set<string>)
    | PurgeMaps
    | PurgeSave(fault: Fault)
    | PurgeList(saved: bool)
    | PurgeText
    | PurgeClear(written: bool)
    | ReplaceSettings(markers: set<string>)
    | RefreshOverrides(config: Config)
    | Restart(config: Config, stats: map<string, HostStat>, order: seq<string>, updated: nat, migrated: bool)

  predicate AlertOp(op: Op) {
    op.OpSetAlerts? || op.OpMark? || op.OpPrune?
  }

  function ApplyAlertOp(store: Store, op: Op): Store {
    match op
    case OpSetAlerts(alerts) => SetAlerts(store, alerts)
    case OpMark(key, now) => MarkEnqueued(store, key, now)
    case OpPrune(rules, hosts) => Prune(store, rules, hosts)
    case _ => store
  }

  /** The timer marks the hosts it publishes, unless disabled, offline when their last report is too old. */
  function MarkStale(m: map<string, HostStat>, now: nat, threshold: nat, deleted: set<string>): map<string, HostStat> {
    map k | k in m ::
      if ShouldPublish(m[k], deleted) && !m[k].disabled && m[k].latestTs + threshold < now
      then m[k].(online4 := false, online6 := false) else m[k]
  }

  // ---------- restart ----------

  const NO_CONFIG := Config(map[], map[], h => h)

  /** Legacy import: the hosts of the public snapshot, without blank names and deleted hosts. */
  function ImportLegacy(snapshot: Option<StatsResp>, markers: set<string>): State {
    if snapshot.None? then EMPTY_STATE
    else State(ImportServers(snapshot.value.servers, markers), map[])
  }

  function ImportServers(servers: seq<HostStat>, markers: set<string>): map<string, KnownHost> {
    if servers == [] then map[]
    else
      var n := |servers| - 1;
      var rest := ImportServers(servers[..n], markers);
      if ShouldPublish(servers[n], markers) then rest[servers[n].name := KnownHost.FromStat(servers[n])] else rest
  }

  /** The runtime state a new process starts from; the migration of a missing file may fail. */
  function LoadOrImport(s: System, migrated: bool): Store {
    if s.store.file.Missing? then
      var imported := ImportLegacy(s.snapshot, s.markers);
      if migrated then Store(0, imported, Parsed(RUNTIME_STATE_VERSION, imported))
      else Store(0, EMPTY_STATE, Missing)
    else Store(0, Load(s.store.file), s.store.file)
  }

  predicate Restorable(host: KnownHost, markers: set<string>) {
    !Blank(host.name) && host.name !in markers
  }

  /** The live map after a restart: the known hosts that are not deleted, under their own names, all offline. */
  predicate Restores(stats: map<string, HostStat>, hosts: map<string, KnownHost>, markers: set<string>, config: Config) {
    && stats.Keys == (set k | k in hosts && Restorable(hosts[k], markers) :: hosts[k].name)
    && (forall n :: n in stats ==> stats[n].name == n && !stats[n].Online())
    && (WellKeyed(State(hosts, map[])) ==> forall n :: n in stats ==> n in hosts && stats[n] == RestoredEntry(config, hosts[n]))
  }

  /** The server writes its known hosts under their own names. */
  predicate WellKeyed(state: State) {
    forall k :: k in state.hosts ==> state.hosts[k].name == k
  }

  lemma {:induction false} ImportIsWellKeyed(servers: seq<HostStat>, markers: set<string>)
    ensures WellKeyed(State(ImportServers(servers, markers), map[]))
  {
    if servers != [] {
      ImportIsWellKeyed(servers[..|servers| - 1], markers);
    }
  }

  // ---------- the steps ----------

  predicate Enabled(s: System, step: Step) {
    match step
    case StartReport(_, _, _) => s.lifecycle.Idle?
    case ReportAlerts(op) => s.lifecycle.Reporting? && AlertOp(op)
    case InsertReport(_) => s.lifecycle.Reporting?
    case FinishReportSave(_) => s.lifecycle.ReportSaving?
    case StartPublication(_) => s.publication.Free?
    case TimerAlerts(op) =>
      (s.publication.Started? || s.publication.Listed?) && s.publication.timer && AlertOp(op)
    case ListHosts(order, _, _) => s.publication.Started? && Iterates(order, s.statMap)
    case StartTimerSave => s.publication.Listed? && s.publication.timer
    case FinishTimerSave(_) => s.publication.TimerSaving?
    case PublishList(_, _) => s.publication.Listed?
    case PublishText => s.publication.Written?
    case TakePurge(_) => s.lifecycle.Idle?
    case PurgeMaps => s.lifecycle.PurgeWaiting? && s.publication.Free?
    case PurgeSave(_) => s.lifecycle.PurgeSaving?
    case PurgeList(_) => s.lifecycle.PurgePublishing?
    case PurgeText => s.lifecycle.PurgeTexting?
    case PurgeClear(_) => s.lifecycle.PurgeClearing?
    case ReplaceSettings(_) => true
    case RefreshOverrides(_) => true
    case Restart(config, stats, order, _, migrated) =>
      Restores(stats, LoadOrImport(s, migrated).state.hosts, s.markers, config) && Iterates(order, stats)
  }

  function ListLiveHosts(s: System, order: seq<string>, updated: nat, threshold: nat): System
    requires s.publication.Started? && forall k :: k in order ==> k in s.statMap
  {
    var work := s.publication;
    var stats := if work.timer then MarkStale(s.statMap, updated, threshold, work.markers) else s.statMap;
    s.(statMap := stats,
       publication := Listed(StatsResp(updated, SortServers(Listing(stats, order, work.markers))), work.generation, work.timer))
  }

  /** Makes the prepared list the served one, unless a purge has moved the generation since it was begun. */
  function PublishListed(s: System, save: bool, saved: bool): System
    requires s.publication.Listed?
  {
    var work := s.publication;
    if work.generation != s.publicationGeneration then s.(publication := Free)
    else
      s.(snapshot := if save && saved && work.timer then Some(work.resp) else s.snapshot,
         served := work.resp,
         publication := Written(s.served))
  }

  /** Makes the served text that of the served list. */
  function TextPublished(s: System): System {
    s.(json := Serialised(s.served), publication := Free)
  }

  function RemovePurged(s: System): System
    requires s.lifecycle.PurgeWaiting?
  {
    var hosts := s.lifecycle.hosts;
    var store := Purge(s.store, hosts);
    s.(publicationGeneration := s.publicationGeneration + 1,
       statMap := WithoutHosts(s.statMap, hosts),
       store := store,
       lifecycle := PurgeSaving(hosts, Snapshot(store)),
       publication := HeldByPurge)
  }

  function SavePurged(s: System, fault: Fault): System
    requires s.lifecycle.PurgeSaving?
  {
    var (store, result) := Publish(s.store, s.lifecycle.purgeTicket, fault);
    s.(store := store, lifecycle := PurgePublishing(s.lifecycle.hosts, result.Published?))
  }

  /** The list is written, and saved, with its lock held until the text is written too. */
  function ListPurged(s: System, saved: bool): System
    requires s.lifecycle.PurgePublishing?
  {
    var resp := s.served.(servers := Without(s.served.servers, s.lifecycle.hosts));
    s.(served := resp,
       snapshot := if saved then Some(resp) else s.snapshot,
       lifecycle := PurgeTexting(s.lifecycle.hosts, s.lifecycle.saved && saved, s.served))
  }

  function TextPurged(s: System): System
    requires s.lifecycle.PurgeTexting?
  {
    s.(json := Serialised(s.served),
       lifecycle := if s.lifecycle.ok then PurgeClearing(s.lifecycle.hosts) else Idle,
       publication := Free)
  }

  function Apply(s: System, step: Step): System
    requires Enabled(s, step)
  {
    match step
    case StartReport(stat, known, markerWritten) =>
      if Blank(stat.name) then s
      else
        s.(markers := if markerWritten then s.markers - {stat.name} else s.markers,
           lifecycle := if known then Reporting(stat) else Idle)
    case ReportAlerts(op) => s.(store := ApplyAlertOp(s.store, op))
    case InsertReport(save) =>
      var stat := s.lifecycle.stat;
      var store := Upsert(s.store, KnownHost.FromStat(stat));
      s.(statMap := s.statMap[stat.name := stat],
         store := store,
         lifecycle := if save then ReportSaving(Snapshot(store)) else Idle,
         gone := s.gone - {stat.name})
    case FinishReportSave(fault) =>
      s.(store := Publish(s.store, s.lifecycle.reportTicket, fault).0, lifecycle := Idle)
    case StartPublication(timer) => s.(publication := Started(s.markers, s.publicationGeneration, timer))
    case TimerAlerts(op) => s.(store := ApplyAlertOp(s.store, op))
    case ListHosts(order, updated, threshold) => ListLiveHosts(s, order, updated, threshold)
    case StartTimerSave =>
      s.(publication := TimerSaving(s.publication.resp, s.publication.generation, Snapshot(s.store)))
    case FinishTimerSave(fault) =>
      var work := s.publication;
      s.(store := Publish(s.store, work.timerTicket, fault).0, publication := Listed(work.resp, work.generation, true))
    case PublishList(save, saved) => PublishListed(s, save, saved)
    case PublishText => TextPublished(s)
    case TakePurge(hosts) => s.(lifecycle := if hosts == {} then PurgeClearing(hosts) else PurgeWaiting(hosts))
    case PurgeMaps => RemovePurged(s)
    case PurgeSave(fault) => SavePurged(s, fault)
    case PurgeList(saved) => ListPurged(s, saved)
    case PurgeText => TextPurged(s)
    case PurgeClear(written) =>
      var hosts := s.lifecycle.hosts;
      if written then s.(markers := s.markers - hosts, gone := s.gone + hosts, lifecycle := Idle)
      else s.(lifecycle := Idle)
    case ReplaceSettings(markers) => s.(markers := markers)
    case RefreshOverrides(config) => s.(statMap := Refreshed(s.statMap, config))
    case Restart(_, stats, order, updated, migrated) =>
      var resp := StatsResp(updated, SortServers(Listing(stats, order, s.markers)));
      s.(store := LoadOrImport(s, migrated),
         statMap := stats,
         served := resp,
         json := Serialised(resp),
         publicationGeneration := 0,
         lifecycle := Idle,
         publication := Free)
  }

  /** A step that some thread cannot take yet changes nothing. */
  function Next(s: System, step: Step): System {
    if Enabled(s, step) then Apply(s, step) else s
  }

  function Run(s: System, steps: seq<Step>): System
    decreases |steps|
  {
    if steps == [] then s else Run(Next(s, steps[0]), steps[1..])
  }

  /** A server that has not started yet, on some disk. */
  function Stopped(markers: set<string>, snapshot: Option<StatsResp>, file: StateFile): System {
    System(markers, snapshot, Store(0, EMPTY_STATE, file), map[], StatsResp(0, []), Serialised(StatsResp(0, [])), 0, Idle, Free, {})
  }

  /** The work a purge does between taking the publication lock and giving it back. */
  function PurgeSections(s: System, fault: Fault, saved: bool): System
    requires s.lifecycle.PurgeWaiting?
  {
    TextPurged(ListPurged(SavePurged(RemovePurged(s), fault), saved))
  }

  lemma PurgeSectionsAreSteps(s: System, fault: Fault, saved: bool)
    requires s.lifecycle.PurgeWaiting? && s.publication.Free?
    ensures Run(s, [PurgeMaps, PurgeSave(fault), PurgeList(saved), PurgeText]) == PurgeSections(s, fault, saved)
  {
    hide RemovePurged, SavePurged, ListPurged, TextPurged, Run, Next;
    PurgePhases(s, fault, saved);
    RunFour(s, PurgeMaps, PurgeSave(fault), PurgeList(saved), PurgeText);
    PurgeSectionIsStep(s, fault, saved);
    PurgeSectionIsStep(RemovePurged(s), fault, saved);
    PurgeSectionIsStep(SavePurged(RemovePurged(s), fault), fault, saved);
    PurgeSectionIsStep(ListPurged(SavePurged(RemovePurged(s), fault), saved), fault, saved);
  }

  lemma PurgeSectionIsStep(s: System, fault: Fault, saved: bool)
    ensures s.lifecycle.PurgeWaiting? && s.publication.Free? ==> Next(s, PurgeMaps) == RemovePurged(s)
    ensures s.lifecycle.PurgeSaving? ==> Next(s, PurgeSave(fault)) == SavePurged(s, fault)
    ensures s.lifecycle.PurgePublishing? ==> Next(s, PurgeList(saved)) == ListPurged(s, saved)
    ensures s.lifecycle.PurgeTexting? ==> Next(s, PurgeText) == TextPurged(s)
  {
    hide RemovePurged, SavePurged, ListPurged, TextPurged;
  }

  lemma PurgePhases(s: System, fault: Fault, saved: bool)
    requires s.lifecycle.PurgeWaiting?
    ensures RemovePurged(s).lifecycle.PurgeSaving? && SavePurged(RemovePurged(s), fault).lifecycle.PurgePublishing?
    ensures ListPurged(SavePurged(RemovePurged(s), fault), saved).lifecycle.PurgeTexting?
  {
  }

  /** A publication with nothing in between, from the held lock to the written text. */
  function Published(s: System, save: bool, saved: bool): System
    requires s.publication.Listed?
  {
    TextPublishedIfWritten(PublishListed(s, save, saved))
  }

  function TextPublishedIfWritten(s: System): System {
    if s.publication.Written? then TextPublished(s) else s
  }

  /** A rebuild with nothing in between. */
  function Rebuilt(s: System, order: seq<string>, updated: nat): System
    requires forall k :: k in order ==> k in s.statMap
  {
    Published(
      ListLiveHosts(s.(publication := Started(s.markers, s.publicationGeneration, false)), order, updated, 0), false, false)
  }

  /** The sections of a publication by the timer or a rebuild. */
  function PublicationSteps(timer: bool, order: seq<string>, updated: nat, threshold: nat): seq<Step> {
    [StartPublication(timer), ListHosts(order, updated, threshold), PublishList(false, false), PublishText]
  }

  lemma RebuiltIsSteps(s: System, order: seq<string>, updated: nat)
    requires s.publication.Free? && Iterates(order, s.statMap)
    ensures Run(s, PublicationSteps(false, order, updated, 0)) == Rebuilt(s, order, updated)
  {
    hide Run, Listing, SortServers;
    RunFour(s, StartPublication(false), ListHosts(order, updated, 0), PublishList(false, false), PublishText);
  }

  lemma RunTwo(s: System, a: Step, b: Step)
    ensures Run(s, [a, b]) == Next(Next(s, a), b)
  {
    hide Next;
    assert [a, b][1..] == [b] && [b][1..] == [];
    assert Run(Next(s, a), [b]) == Run(Next(Next(s, a), b), []);
  }

  lemma RunFour(s: System, a: Step, b: Step, c: Step, d: Step)
    ensures Run(s, [a, b, c, d]) == Next(Next(Next(Next(s, a), b), c), d)
  {
    hide Next;
    assert [a, b, c, d][1..] == [b, c, d] && [b, c, d][1..] == [c, d];
    assert Run(Next(s, a), [b, c, d]) == Run(Next(Next(s, a), b), [c, d]);
    RunTwo(Next(Next(s, a), b), c, d);
  }

  // ---------- the published view ----------

  predicate PublicationValid(p: PublicationPhase, generation: nat) {
    match p
    case Started(_, g, _) => g == generation
    case Listed(resp, g, _) => g == generation && WellOrdered(resp.servers)
    case TimerSaving(resp, g, _) => g == generation && WellOrdered(resp.servers)
    case _ => true
  }

  /** The purge holds both locks from the moment it changes the maps until it has published. */
  predicate LocksAgree(s: System) {
    s.publication.HeldByPurge? <==> s.lifecycle.PurgeSaving? || s.lifecycle.PurgePublishing? || s.lifecycle.PurgeTexting?
  }

  /** The list that the served text shows: the served one, or the one before it until the text is written. */
  function Shown(s: System): StatsResp {
    if s.publication.Written? then s.publication.before
    else if s.lifecycle.PurgeTexting? then s.lifecycle.before
    else s.served
  }

  predicate View(s: System) {
    && WellNamed(s.statMap)
    && s.json == Serialised(Shown(s)) && WellOrdered(Shown(s).servers) && WellOrdered(s.served.servers)
    && PublicationValid(s.publication, s.publicationGeneration)
    && (s.lifecycle.Reporting? ==> !Blank(s.lifecycle.stat.name))
    && LocksAgree(s)
    && (s.lifecycle.PurgeSaving? ==> s.lifecycle.purgeTicket == Snapshot(s.store))
  }

  /** Every runtime state in play is keyed by host name. */
  predicate Keyed(s: System) {
    && WellKeyed(s.store.state) && WellKeyed(Load(s.store.file))
    && (s.lifecycle.ReportSaving? ==> WellKeyed(s.lifecycle.reportTicket.state))
    && (s.lifecycle.PurgeSaving? ==> WellKeyed(s.lifecycle.purgeTicket.state))
    && (s.publication.TimerSaving? ==> WellKeyed(s.publication.timerTicket.state))
  }

  predicate Valid(s: System) {
    View(s) && Keyed(s)
  }

  lemma AlertOpKeepsHosts(store: Store, op: Op)
    ensures ApplyAlertOp(store, op).state.hosts == store.state.hosts && ApplyAlertOp(store, op).file == store.file
  {
  }

  /** The file a publish leaves behind is the old one or the ticket's. */
  lemma PublishInstallsTicket(store: Store, ticket: Ticket, fault: Fault)
    ensures var (store', result) := Publish(store, ticket, fault);
            && store'.state == store.state
            && (store'.file == store.file || (!store'.file.Missing? && Load(store'.file) == ticket.state))
            && (result.Published? ==> !store'.file.Missing? && Load(store'.file) == ticket.state)
  {
  }

  predicate ReportStep(step: Step) {
    step.StartReport? || step.ReportAlerts? || step.InsertReport? || step.FinishReportSave?
  }

  predicate PublicationStep(step: Step) {
    || step.StartPublication? || step.TimerAlerts? || step.ListHosts? || step.StartTimerSave?
    || step.FinishTimerSave? || step.PublishList? || step.PublishText?
  }

  predicate PurgeStep(step: Step) {
    step.TakePurge? || step.PurgeMaps? || step.PurgeSave? || step.PurgeList? || step.PurgeText? || step.PurgeClear?
  }

  lemma ReportStepKeepsView(s: System, step: Step)
    requires View(s) && Enabled(s, step) && ReportStep(step)
    ensures View(Apply(s, step))
  {
    hide WellOrdered, Listing, SortServers, MarkStale, LoadOrImport, Publish, Upsert, ApplyAlertOp, Refreshed, Restores, Iterates;
  }

  lemma PublicationStepKeepsView(s: System, step: Step)
    requires View(s) && Enabled(s, step) && PublicationStep(step)
    ensures View(Apply(s, step))
  {
    if step.ListHosts? {
      ListHostsShows(s, step);
    }
  }

  lemma PurgeStepKeepsView(s: System, step: Step)
    requires View(s) && Enabled(s, step) && PurgeStep(step)
    ensures View(Apply(s, step))
  {
    hide WellOrdered, Listing, SortServers, MarkStale, LoadOrImport, Blank, Without;
    if step.PurgeList? {
      WithoutKeepsOrder(s.served.servers, s.lifecycle.hosts);
    }
  }

  lemma StepKeepsView(s: System, step: Step)
    requires View(s)
    ensures View(Next(s, step))
  {
    if Enabled(s, step) {
      if ReportStep(step) {
        ReportStepKeepsView(s, step);
      } else if PublicationStep(step) {
        PublicationStepKeepsView(s, step);
      } else if PurgeStep(step) {
        PurgeStepKeepsView(s, step);
      } else if step.Restart? {
        RestartShows(s, step);
      }
    }
  }

  lemma ReportStepKeepsKeyed(s: System, step: Step)
    requires Keyed(s) && Enabled(s, step) && ReportStep(step)
    ensures Keyed(Apply(s, step))
  {
    match step {
      case ReportAlerts(op) => AlertOpKeepsHosts(s.store, op);
      case FinishReportSave(fault) => PublishInstallsTicket(s.store, s.lifecycle.reportTicket, fault);
      case _ =>
    }
  }

  lemma PublicationStepKeepsKeyed(s: System, step: Step)
    requires Keyed(s) && Enabled(s, step) && PublicationStep(step)
    ensures Keyed(Apply(s, step))
  {
    match step {
      case TimerAlerts(op) => AlertOpKeepsHosts(s.store, op);
      case FinishTimerSave(fault) => PublishInstallsTicket(s.store, s.publication.timerTicket, fault);
      case _ =>
    }
  }

  lemma PurgeStepKeepsKeyed(s: System, step: Step)
    requires Keyed(s) && Enabled(s, step) && PurgeStep(step)
    ensures Keyed(Apply(s, step))
  {
    if step.PurgeSave? {
      PublishInstallsTicket(s.store, s.lifecycle.purgeTicket, step.fault);
    }
  }

  lemma StepKeepsKeyed(s: System, step: Step)
    requires Keyed(s)
    ensures Keyed(Next(s, step))
  {
    if Enabled(s, step) {
      if ReportStep(step) {
        ReportStepKeepsKeyed(s, step);
      } else if PublicationStep(step) {
        PublicationStepKeepsKeyed(s, step);
      } else if PurgeStep(step) {
        PurgeStepKeepsKeyed(s, step);
      } else if step.Restart? && s.snapshot.Some? {
        ImportIsWellKeyed(s.snapshot.value.servers, s.markers);
      }
    }
  }

  lemma ListHostsShows(s: System, step: Step)
    requires WellNamed(s.statMap) && step.ListHosts? && Enabled(s, step)
    ensures var s' := Apply(s, step);
            && WellNamed(s'.statMap) && s'.statMap.Keys == s.statMap.Keys
            && WellOrdered(s'.publication.resp.servers)
            && Names(s'.publication.resp.servers) == s.statMap.Keys - s.publication.markers
  {
    hide SortServers, Blank, WellOrdered, Listing;
    PublishedListing(Apply(s, step).statMap, step.order, s.publication.markers);
  }

  lemma RestoresIsKnown(stats: map<string, HostStat>, state: State, markers: set<string>, config: Config)
    requires Restores(stats, state.hosts, markers, config)
    ensures WellNamed(stats) && stats.Keys !! markers
    ensures WellKeyed(state) ==> stats.Keys <= state.hosts.Keys
  {
  }

  lemma RestartShows(s: System, step: Step)
    requires step.Restart? && Enabled(s, step)
    ensures var s' := Apply(s, step);
            && WellNamed(s'.statMap)
            && WellOrdered(s'.served.servers) && Names(s'.served.servers) == s'.statMap.Keys
            && s'.statMap.Keys !! s.markers
            && (Keyed(s) ==> s'.statMap.Keys <= s'.store.state.hosts.Keys)
  {
    RestoresIsKnown(step.stats, LoadOrImport(s, step.migrated).state, s.markers, step.config);
    PublishedListing(step.stats, step.order, s.markers);
    if s.snapshot.Some? {
      ImportIsWellKeyed(s.snapshot.value.servers, s.markers);
    }
    assert step.stats.Keys - s.markers == step.stats.Keys;
  }

  lemma StepKeepsValid(s: System, step: Step)
    requires Valid(s)
    ensures Valid(Next(s, step))
  {
    StepKeepsView(s, step);
    StepKeepsKeyed(s, step);
  }

  lemma {:induction false} RunKeepsValid(s: System, steps: seq<Step>)
    requires Valid(s)
    ensures Valid(Run(s, steps))
    decreases |steps|
  {
    if steps != [] {
      StepKeepsValid(s, steps[0]);
      RunKeepsValid(Next(s, steps[0]), steps[1..]);
    }
  }

  /** The server after some steps from a stopped one whose state file is keyed by host name. */
  function Reached(markers: set<string>, snapshot: Option<StatsResp>, file: StateFile, steps: seq<Step>): System
    requires WellKeyed(Load(file))
  {
    Run(Stopped(markers, snapshot, file), steps)
  }

  predicate OnlineFirst(servers: seq<HostStat>) {
    forall i, j :: 0 <= i < j < |servers| && servers[j].Online() ==> servers[i].Online()
  }

  lemma SortedIsOnlineFirst(servers: seq<HostStat>)
    requires Sorted(servers)
    ensures OnlineFirst(servers)
  {
    forall i, j | 0 <= i < j < |servers| && servers[j].Online()
      ensures servers[i].Online()
    {
      SortedReadsAs(servers, i, j);
    }
  }

  /** A purge holds the list's lock until it has written the text. */
  predicate ListReadable(s: System) {
    !s.lifecycle.PurgeTexting?
  }

  /**
  Whenever the publication lock is free the served text is the served list serialised; so it is at every moment at
  which both can be read, but between the two writes of a publication.  At every moment the list is sorted, each
  host once, online hosts first, and the text shows such a list.
  */
  lemma PublishedViewIsConsistent(markers: set<string>, snapshot: Option<StatsResp>, file: StateFile, steps: seq<Step>)
    requires WellKeyed(Load(file))
    ensures var s := Reached(markers, snapshot, file, steps);
            && (s.publication.Free? ==> s.json == Serialised(s.served))
            && (ListReadable(s) && !s.publication.Written? ==> s.json == Serialised(s.served))
            && s.json == Serialised(Shown(s))
            && WellOrdered(s.served.servers) && OnlineFirst(s.served.servers)
            && WellOrdered(Shown(s).servers) && OnlineFirst(Shown(s).servers)
  {
    hide Run;
    RunKeepsValid(Stopped(markers, snapshot, file), steps);
    var s := Reached(markers, snapshot, file, steps);
    SortedIsOnlineFirst(s.served.servers);
    SortedIsOnlineFirst(Shown(s).servers);
  }

  /**
  What a reader can see between the two writes: the list is already the new one, the text still that of the list
  served until then; they differ exactly if the two lists do.
  */
  lemma TextFollowsTheList(
    markers: set<string>, snapshot: Option<StatsResp>, file: StateFile, steps: seq<Step>, step: Step)
    requires WellKeyed(Load(file))
    requires var s := Reached(markers, snapshot, file, steps); (step.PublishList? || step.PurgeList?) && Enabled(s, step)
    ensures var s := Reached(markers, snapshot, file, steps);
            var s' := Next(s, step);
            && s.json == Serialised(s.served) && s'.json == s.json
            && s'.served == (if step.PublishList? then s.publication.resp
                             else s.served.(servers := Without(s.served.servers, s.lifecycle.hosts)))
            && (s'.json == Serialised(s'.served) <==> s'.served == s.served)
            && (ListReadable(s') <==> step.PublishList?)
  {
    hide Run;
    RunKeepsValid(Stopped(markers, snapshot, file), steps);
  }

  /** The timer shows a host as online exactly if it was and is disabled or has reported within the threshold. */
  lemma ListedOnlineExactlyWhenFresh(
    markers: set<string>, snapshot: Option<StatsResp>, file: StateFile, steps: seq<Step>, step: Step, i: nat)
    requires WellKeyed(Load(file))
    requires var s := Reached(markers, snapshot, file, steps);
             && step.ListHosts? && Enabled(s, step) && s.publication.timer
             && i < |Next(s, step).publication.resp.servers|
    ensures var s := Reached(markers, snapshot, file, steps);
            var server := Next(s, step).publication.resp.servers[i];
            && server.name in s.statMap
            && var before := s.statMap[server.name];
            && server == before.(online4 := server.online4, online6 := server.online6)
            && (server.Online() <==> before.Online() && (before.disabled || before.latestTs + step.threshold >= step.updated))
  {
    hide Run, SortServers, MarkStale, Listing;
    RunKeepsValid(Stopped(markers, snapshot, file), steps);
    var s := Reached(markers, snapshot, file, steps);
    var server := Next(s, step).publication.resp.servers[i];
    ListedIsFresh(s.statMap, step.order, s.publication.markers, step.updated, step.threshold, server);
  }

  lemma ListedIsFresh(
    m: map<string, HostStat>, order: seq<string>, deleted: set<string>, now: nat, threshold: nat, stat: HostStat)
    requires WellNamed(m) && Iterates(order, m)
    requires stat in SortServers(Listing(MarkStale(m, now, threshold, deleted), order, deleted))
    ensures stat.name in m
    ensures var before := m[stat.name];
            && stat == before.(online4 := stat.online4, online6 := stat.online6)
            && (stat.Online() <==> before.Online() && (before.disabled || before.latestTs + threshold >= now))
  {
    hide Listing, SortServers;
    var stats := MarkStale(m, now, threshold, deleted);
    var listing := Listing(stats, order, deleted);
    SortIsSorted(listing);
    assert stat in multiset(SortServers(listing));
    ListingIsLive(stats, order, deleted, stat);
    ListedIsNotDeleted(stats, order, deleted, stat);
  }

  lemma {:induction false} ListedIsNotDeleted(m: map<string, HostStat>, order: seq<string>, deleted: set<string>, stat: HostStat)
    requires (forall k :: k in order ==> k in m) && stat in Listing(m, order, deleted)
    ensures ShouldPublish(stat, deleted)
  {
    var n := |order| - 1;
    if stat in Listing(m, order[..n], deleted) {
      ListedIsNotDeleted(m, order[..n], deleted, stat);
    }
  }

  /** A publication lists exactly the live hosts that were not deleted when it started, with their live values. */
  lemma ListingAgreesWithLiveMap(
    markers: set<string>, snapshot: Option<StatsResp>, file: StateFile, steps: seq<Step>, step: Step)
    requires WellKeyed(Load(file))
    requires var s := Reached(markers, snapshot, file, steps); step.ListHosts? && Enabled(s, step)
    ensures var s := Reached(markers, snapshot, file, steps);
            var s' := Next(s, step);
            var servers := s'.publication.resp.servers;
            && Names(servers) == s'.statMap.Keys - s.publication.markers
            && forall i :: 0 <= i < |servers| ==> servers[i].name in s'.statMap && servers[i] == s'.statMap[servers[i].name]
  {
    hide Run, SortServers, Listing;
    RunKeepsValid(Stopped(markers, snapshot, file), steps);
    var s := Reached(markers, snapshot, file, steps);
    ListHostsShows(s, step);
    ListedStatMap(s, step);
    SortedListingIsLive(Next(s, step).statMap, step.order, s.publication.markers);
  }

  lemma ListedStatMap(s: System, step: Step)
    requires step.ListHosts? && Enabled(s, step)
    ensures var s' := Next(s, step);
            && Iterates(step.order, s'.statMap)
            && s'.publication.resp.servers == SortServers(Listing(s'.statMap, step.order, s.publication.markers))
  {
    hide SortServers, Listing;
  }

  lemma SortedListingIsLive(m: map<string, HostStat>, order: seq<string>, deleted: set<string>)
    requires WellNamed(m) && Iterates(order, m)
    ensures var servers := SortServers(Listing(m, order, deleted));
            forall i :: 0 <= i < |servers| ==> servers[i].name in m && servers[i] == m[servers[i].name]
  {
    hide Listing, SortServers;
    var listing := Listing(m, order, deleted);
    var servers := SortServers(listing);
    SortIsSorted(listing);
    forall i | 0 <= i < |servers|
      ensures servers[i].name in m && servers[i] == m[servers[i].name]
    {
      assert servers[i] in multiset(servers);
      ListingIsLive(m, order, deleted, servers[i]);
    }
  }

  lemma {:induction false} ListingIsLive(m: map<string, HostStat>, order: seq<string>, deleted: set<string>, stat: HostStat)
    requires WellNamed(m) && (forall k :: k in order ==> k in m) && stat in Listing(m, order, deleted)
    ensures stat.name in m && stat == m[stat.name]
  {
    var n := |order| - 1;
    if stat in Listing(m, order[..n], deleted) {
      ListingIsLive(m, order[..n], deleted, stat);
    }
  }

  /**
  The locks make two of the code's safety checks redundant: a purge's save is never overtaken, and a
  publication never finds that the generation has moved.
  */
  lemma PurgeIsNeverOvertaken(markers: set<string>, snapshot: Option<StatsResp>, file: StateFile, steps: seq<Step>)
    requires WellKeyed(Load(file))
    ensures var s := Reached(markers, snapshot, file, steps);
            && (s.lifecycle.PurgeSaving? ==>
                  forall fault :: !Publish(s.store, s.lifecycle.purgeTicket, fault).1.Skipped?)
            && (s.publication.Listed? ==> s.publication.generation == s.publicationGeneration)
  {
    RunKeepsValid(Stopped(markers, snapshot, file), steps);
  }

  /** The second check is what it is for: a purge moves the generation, and nothing prepared before it is published. */
  lemma PurgeOutdatesPreparedLists(s: System, resp: StatsResp, generation: nat, timer: bool, save: bool, saved: bool)
    requires s.lifecycle.PurgeWaiting? && generation <= s.publicationGeneration
    ensures var purged := RemovePurged(s);
            PublishListed(purged.(publication := Listed(resp, generation, timer)), save, saved) == purged.(publication := Free)
  {
    hide Purge;
  }

  /** The step writes the public snapshot: the timer's publication or a purge, if the write succeeds. */
  predicate SavesSnapshot(s: System, step: Step) {
    && Enabled(s, step)
    && ((step.PublishList? && step.save && step.saved && s.publication.timer) || (step.PurgeList? && step.saved))
  }

  /** In every run the snapshot on disk changes by such a step alone, and is then the list that is served. */
  lemma SnapshotFollowsTheList(markers: set<string>, snapshot: Option<StatsResp>, file: StateFile, steps: seq<Step>, step: Step)
    requires WellKeyed(Load(file))
    ensures var s, t := Reached(markers, snapshot, file, steps), Next(Reached(markers, snapshot, file, steps), step);
            t.snapshot == if SavesSnapshot(s, step) then Some(t.served) else s.snapshot
  {
    RunKeepsValid(Stopped(markers, snapshot, file), steps);
    StepSavesSnapshot(Reached(markers, snapshot, file, steps), step);
  }

  lemma StepSavesSnapshot(s: System, step: Step)
    requires PublicationValid(s.publication, s.publicationGeneration)
    ensures Next(s, step).snapshot == if SavesSnapshot(s, step) then Some(Next(s, step).served) else s.snapshot
  {
    hide Listing, SortServers, MarkStale, Without, WellOrdered, Blank, Upsert, Purge, Publish, ApplyAlertOp, Refreshed, LoadOrImport,
         Restores, Iterates;
  }

  /** A publication that finishes is served, list and text, with nothing lost to the generation check. */
  lemma FinishedPublicationIsServed(
    markers: set<string>, snapshot: Option<StatsResp>, file: StateFile, steps: seq<Step>, save: bool, saved: bool)
    requires WellKeyed(Load(file))
    requires Reached(markers, snapshot, file, steps).publication.Listed?
    ensures var s := Reached(markers, snapshot, file, steps);
            var s' := Run(s, [PublishList(save, saved), PublishText]);
            s'.served == s.publication.resp && s'.json == Serialised(s'.served) && s'.publication.Free?
  {
    RunKeepsValid(Stopped(markers, snapshot, file), steps);
    hide Run;
    RunTwo(Reached(markers, snapshot, file, steps), PublishList(save, saved), PublishText);
  }

  /** A purge that meets no fault removes its hosts from the list, both maps and the file, and may clear the markers. */
  lemma FaultlessPurgeSucceeds(
    markers: set<string>, snapshot: Option<StatsResp>, file: StateFile, steps: seq<Step>)
    requires WellKeyed(Load(file))
    requires Reached(markers, snapshot, file, steps).lifecycle.PurgeWaiting?
    ensures var s := Reached(markers, snapshot, file, steps);
            var s' := PurgeSections(s, NoFault, true);
            var hosts := s.lifecycle.hosts;
            && s'.lifecycle == PurgeClearing(hosts) && s'.snapshot == Some(s'.served) && s'.json == Serialised(s'.served)
            && Names(s'.served.servers) == Names(s.served.servers) - hosts && s'.statMap.Keys == s.statMap.Keys - hosts
            && Load(s'.store.file) == s'.store.state && s'.store.state.hosts.Keys == s.store.state.hosts.Keys - hosts
  {
    hide Run, Names;
    var s := Reached(markers, snapshot, file, steps);
    WithoutNames(s.served.servers, s.lifecycle.hosts);
  }

  // ---------- whole passes ----------

  /** The sections that the holder of the lifecycle lock still has before it. */
  function SectionsLeft(phase: LifecyclePhase): nat {
    match phase
    case Idle => 0
    case ReportSaving(_) => 1
    case Reporting(_) => 2
    case PurgeClearing(_) => 1
    case PurgeTexting(_, _, _) => 2
    case PurgePublishing(_, _) => 3
    case PurgeSaving(_, _) => 4
    case PurgeWaiting(_) => 5
  }

  predicate HoldersStep(step: Step) {
    || step.InsertReport? || step.FinishReportSave? || step.PurgeMaps? || step.PurgeSave? || step.PurgeList? || step.PurgeText?
    || step.PurgeClear?
  }

  /**
  The lifecycle lock is given back: every section of its holder, whatever fails in it, leaves fewer to come, and no
  other step touches it but one that takes the free lock, and a restart, which frees it.
  */
  lemma LifecycleLockIsGivenBack(s: System, step: Step)
    requires Enabled(s, step)
    ensures var before, after := s.lifecycle, Next(s, step).lifecycle;
            && (HoldersStep(step) ==> SectionsLeft(after) < SectionsLeft(before))
            && (!HoldersStep(step) && !before.Idle? ==> after == if step.Restart? then Idle else before)
            && (!HoldersStep(step) && before.Idle? && !step.TakePurge? && !step.StartReport? ==> after.Idle?)
  {
    hide Listing, SortServers, MarkStale, Refreshed, Publish, Purge, Upsert, ApplyAlertOp, LoadOrImport, Restores, Iterates, Without;
  }

  /** Changed overrides reach every live entry of a configured host, and nothing else. */
  lemma OverridesReachTheLiveMap(s: System, config: Config, n: string)
    ensures var t := Next(s, RefreshOverrides(config));
            && t == s.(statMap := t.statMap) && t.statMap.Keys == s.statMap.Keys
            && (n in s.statMap && n !in config.hosts ==> t.statMap[n] == s.statMap[n])
            && (n in s.statMap && n in config.hosts ==>
                  var was, info := s.statMap[n], config.override(config.hosts[n]);
                  && LiveAs(t.statMap[n], was, was.alias, info, was.latestTs)
                  && t.statMap[n].gid == if was.gid != "" then was.gid else info.gid)
  {
    hide LiveAs, RefreshFromHost;
    if n in s.statMap {
      RefreshTells(s.statMap, config, n);
    }
  }

  /** The alerts that the report and timer threads keep are changed by the store's own operations. */
  lemma AlertsStepIsStoreStep(s: System, step: Step)
    requires Enabled(s, step) && (step.ReportAlerts? || step.TimerAlerts?)
    ensures Next(s, step) == s.(store := R.Step(World(s.store, map[], []), step.op).store)
  {
  }

  /** A report that is accepted, put in and saved: the host is live, known in memory and in the file, and the lock is free. */
  lemma ReportPass(s: System, stat: HostStat, written: bool)
    requires s.lifecycle.Idle? && !Blank(stat.name)
    ensures var t := Next(Next(Next(s, StartReport(stat, true, written)), InsertReport(true)), FinishReportSave(NoFault));
            && t.lifecycle.Idle? && t.publication == s.publication && t.served == s.served && t.json == s.json
            && t.statMap == s.statMap[stat.name := stat] && t.gone == s.gone - {stat.name}
            && t.markers == (if written then s.markers - {stat.name} else s.markers)
            && Load(t.store.file) == t.store.state && t.store.state.alerts == s.store.state.alerts
            && t.store.state.hosts.Keys == s.store.state.hosts.Keys + {stat.name} && Keeps(t.store.state.hosts[stat.name], stat)
            && forall n :: n in s.store.state.hosts && n != stat.name ==> t.store.state.hosts[n] == s.store.state.hosts[n]
  {
    hide Blank;
  }

  /** The steps of a purge, from taking the lock to clearing the markers. */
  function PurgePassSteps(hosts: set<string>): seq<Step> {
    [TakePurge(hosts)] + [PurgeMaps, PurgeSave(NoFault), PurgeList(true), PurgeText] + [PurgeClear(true)]
  }

  /** A purge without faults, from start to end: its hosts are neither live, known, listed nor marked, and both locks are free. */
  lemma PurgePass(s: System, hosts: set<string>)
    requires View(s) && s.lifecycle.Idle? && s.publication.Free? && hosts != {}
    ensures var t := Run(s, PurgePassSteps(hosts));
            && t.lifecycle.Idle? && t.publication.Free? && t.markers == s.markers - hosts && t.gone == s.gone + hosts
            && t.statMap == WithoutHosts(s.statMap, hosts) && Names(t.served.servers) == Names(s.served.servers) - hosts
            && t.json == Serialised(t.served) && t.snapshot == Some(t.served) && Load(t.store.file) == t.store.state
            && t.store.state.hosts == WithoutHosts(s.store.state.hosts, hosts)
  {
    hide Run, Next, RemovePurged, SavePurged, ListPurged, TextPurged, PurgeSections, Names, WithoutHosts, View;
    var taken := s.(lifecycle := PurgeWaiting(hosts));
    var sections := [PurgeMaps, PurgeSave(NoFault), PurgeList(true), PurgeText];
    PurgeIsTaken(s, hosts);
    PurgeSectionsAreSteps(taken, NoFault, true);
    PurgedWithoutFault(taken);
    PurgeIsCleared(PurgeSections(taken, NoFault, true), hosts);
    assert PurgePassSteps(hosts) == [TakePurge(hosts)] + (sections + [PurgeClear(true)]);
    RunCons(s, TakePurge(hosts), sections + [PurgeClear(true)]);
    RunConcat(taken, sections, [PurgeClear(true)]);
    RunOne(Run(taken, sections), PurgeClear(true));
  }

  lemma PurgeIsTaken(s: System, hosts: set<string>)
    requires s.lifecycle.Idle? && hosts != {}
    ensures Next(s, TakePurge(hosts)) == s.(lifecycle := PurgeWaiting(hosts))
    ensures View(s) && s.publication.Free? ==> View(s.(lifecycle := PurgeWaiting(hosts)))
  {
    hide WellOrdered, WellNamed;
  }

  lemma PurgeIsCleared(s: System, hosts: set<string>)
    requires s.lifecycle == PurgeClearing(hosts)
    ensures Next(s, PurgeClear(true)) == s.(markers := s.markers - hosts, gone := s.gone + hosts, lifecycle := Idle)
  {
  }

  lemma RunOne(s: System, step: Step)
    ensures Run(s, [step]) == Next(s, step)
  {
    hide Next;
    assert [step][1..] == [];
  }

  lemma PurgedWithoutFault(s: System)
    requires View(s) && s.lifecycle.PurgeWaiting? && s.publication.Free?
    ensures var t, hosts := PurgeSections(s, NoFault, true), s.lifecycle.hosts;
            && t.lifecycle == PurgeClearing(hosts) && t.publication.Free? && t.markers == s.markers && t.gone == s.gone
            && t.statMap == WithoutHosts(s.statMap, hosts) && Names(t.served.servers) == Names(s.served.servers) - hosts
            && t.json == Serialised(t.served) && t.snapshot == Some(t.served) && Load(t.store.file) == t.store.state
            && t.store.state.hosts == WithoutHosts(s.store.state.hosts, hosts)
  {
    hide Names, Without, WellOrdered;
    WithoutNames(s.served.servers, s.lifecycle.hosts);
    if s.lifecycle.hosts == {} {
      assert WithoutHosts(s.store.state.hosts, {}) == s.store.state.hosts;
    }
  }

  /** The steps of a pass of the timer that saves both the runtime state and the snapshot. */
  function TimerPassSteps(order: seq<string>, updated: nat, threshold: nat): seq<Step> {
    [StartPublication(true), ListHosts(order, updated, threshold), StartTimerSave, FinishTimerSave(NoFault)]
    + [PublishList(true, true), PublishText]
  }

  /** Such a pass serves and saves exactly the live hosts that are not marked, as it has marked them, and frees its lock. */
  lemma TimerPass(s: System, order: seq<string>, updated: nat, threshold: nat)
    requires View(s) && s.publication.Free? && Iterates(order, s.statMap)
    ensures var t := Run(s, TimerPassSteps(order, updated, threshold));
            && t.publication.Free? && t.lifecycle == s.lifecycle && t.markers == s.markers && t.gone == s.gone
            && t.statMap == MarkStale(s.statMap, updated, threshold, s.markers)
            && Names(t.served.servers) == s.statMap.Keys - s.markers && t.served.updated == updated
            && t.json == Serialised(t.served) && t.snapshot == Some(t.served)
            && t.store.state == s.store.state && Load(t.store.file) == t.store.state
  {
    hide Run, Listing, SortServers, WellOrdered, Names, Blank, MarkStale;
    var first := [StartPublication(true), ListHosts(order, updated, threshold), StartTimerSave, FinishTimerSave(NoFault)];
    RunConcat(s, first, [PublishList(true, true), PublishText]);
    RunFour(s, StartPublication(true), ListHosts(order, updated, threshold), StartTimerSave, FinishTimerSave(NoFault));
    ListHostsShows(Next(s, StartPublication(true)), ListHosts(order, updated, threshold));
    RunTwo(Run(s, first), PublishList(true, true), PublishText);
  }

  lemma {:induction false} ImportTakesExactly(servers: seq<HostStat>, markers: set<string>, n: string)
    ensures n in ImportServers(servers, markers) <==> n in Names(servers) && n !in markers && !Blank(n)
  {
    hide Names, Blank;
    if servers == [] {
      NamesOfNothing();
    } else {
      var last := |servers| - 1;
      ImportTakesExactly(servers[..last], markers, n);
      NamesSnoc(servers[..last], servers[last]);
      assert servers == servers[..last] + [servers[last]];
    }
  }

  /**
  A restart lists exactly the hosts the state file knows, or, if there is no state file and the migration works,
  those of the public snapshot; in both cases without blank names and marked hosts.
  */
  lemma RestartListsExactlyTheKnownHosts(
    markers: set<string>, snapshot: Option<StatsResp>, file: StateFile, steps: seq<Step>, step: Step, n: string)
    requires WellKeyed(Load(file))
    requires var s := Reached(markers, snapshot, file, steps); step.Restart? && Enabled(s, step)
    ensures var s := Reached(markers, snapshot, file, steps);
            var known := if !s.store.file.Missing? then Load(s.store.file).hosts.Keys
                         else if step.migrated && s.snapshot.Some? then Names(s.snapshot.value.servers)
                         else {};
            n in Names(Next(s, step).served.servers) <==> n in known && n !in s.markers && !Blank(n)
  {
    hide Run, ImportServers, Names, Listing, SortServers;
    RunKeepsValid(Stopped(markers, snapshot, file), steps);
    var s := Reached(markers, snapshot, file, steps);
    RestartShows(s, step);
    if s.snapshot.Some? {
      ImportTakesExactly(s.snapshot.value.servers, s.markers, n);
      ImportIsWellKeyed(s.snapshot.value.servers, s.markers);
    }
    var hosts := LoadOrImport(s, step.migrated).state.hosts;
    assert n in hosts ==> hosts[n].name == n;
  }

  // ---------- purged hosts do not come back ----------

  predicate InFlightWithout(p: PublicationPhase, h: string) {
    match p
    case Listed(resp, _, _) => h !in Names(resp.servers)
    case TimerSaving(resp, _, ticket) => h !in Names(resp.servers) && h !in ticket.state.hosts
    case _ => true
  }

  predicate SaversWithout(p: LifecyclePhase, h: string) {
    && (p.ReportSaving? ==> h !in p.reportTicket.state.hosts)
    && (p.PurgeSaving? ==> h !in p.purgeTicket.state.hosts)
  }

  /** Nothing in memory or on disk, and no save or publication under way, knows the host. */
  predicate Absent(s: System, h: string) {
    && h !in s.statMap && h !in s.store.state.hosts
    && !s.store.file.Missing? && h !in Load(s.store.file).hosts
    && h !in Names(s.served.servers) && h !in Names(Shown(s).servers)
    && InFlightWithout(s.publication, h)
    && SaversWithout(s.lifecycle, h)
  }

  /** The step puts a report of this host into the live map. */
  predicate Inserts(s: System, step: Step, h: string) {
    step.InsertReport? && s.lifecycle.Reporting? && s.lifecycle.stat.name == h
  }

  lemma ReportStepKeepsAbsent(s: System, step: Step, h: string)
    requires Valid(s) && Absent(s, h) && !Inserts(s, step, h) && Enabled(s, step)
    requires ReportStep(step)
    ensures Absent(Apply(s, step), h)
  {
    match step {
      case ReportAlerts(op) => AlertOpKeepsHosts(s.store, op);
      case FinishReportSave(fault) => PublishInstallsTicket(s.store, s.lifecycle.reportTicket, fault);
      case _ =>
    }
  }

  lemma PublicationStepKeepsAbsent(s: System, step: Step, h: string)
    requires Valid(s) && Absent(s, h) && Enabled(s, step)
    requires PublicationStep(step)
    ensures Absent(Apply(s, step), h)
  {
    match step {
      case TimerAlerts(op) => AlertOpKeepsHosts(s.store, op);
      case ListHosts(_, _, _) => ListHostsShows(s, step);
      case FinishTimerSave(fault) => PublishInstallsTicket(s.store, s.publication.timerTicket, fault);
      case _ =>
    }
  }

  lemma PurgeStepKeepsAbsent(s: System, step: Step, h: string)
    requires Valid(s) && Absent(s, h) && Enabled(s, step)
    requires PurgeStep(step)
    ensures Absent(Apply(s, step), h)
  {
    hide WellOrdered, Listing, SortServers, MarkStale, LoadOrImport, Blank, View;
    match step {
      case PurgeSave(fault) => PublishInstallsTicket(s.store, s.lifecycle.purgeTicket, fault);
      case PurgeList(_) => WithoutNames(s.served.servers, s.lifecycle.hosts);
      case _ =>
    }
  }

  lemma StepKeepsAbsent(s: System, step: Step, h: string)
    requires Valid(s) && Absent(s, h) && !Inserts(s, step, h)
    ensures Absent(Next(s, step), h)
  {
    if Enabled(s, step) {
      if ReportStep(step) {
        ReportStepKeepsAbsent(s, step, h);
      } else if PublicationStep(step) {
        PublicationStepKeepsAbsent(s, step, h);
      } else if PurgeStep(step) {
        PurgeStepKeepsAbsent(s, step, h);
      } else if step.Restart? {
        RestartShows(s, step);
      }
    }
  }

  /** How far a purge has got in removing its hosts. */
  predicate PurgeProgress(s: System, h: string) {
    match s.lifecycle
    case PurgeSaving(hosts, ticket) =>
      h in hosts ==> h !in s.statMap && h !in s.store.state.hosts && h !in ticket.state.hosts
    case PurgePublishing(hosts, saved) =>
      h in hosts ==> && h !in s.statMap && h !in s.store.state.hosts
                     && (saved ==> !s.store.file.Missing? && h !in Load(s.store.file).hosts)
    case PurgeTexting(hosts, ok, _) =>
      h in hosts ==> && h !in s.statMap && h !in s.store.state.hosts && h !in Names(s.served.servers)
                     && (ok ==> !s.store.file.Missing? && h !in Load(s.store.file).hosts)
    case PurgeClearing(hosts) => h in hosts ==> Absent(s, h)
    case _ => true
  }

  predicate Purged(s: System, h: string) {
    (h in s.gone ==> Absent(s, h)) && PurgeProgress(s, h)
  }

  lemma StepKeepsGone(s: System, step: Step, h: string)
    requires Valid(s) && Purged(s, h)
    ensures h in Next(s, step).gone ==> Absent(Next(s, step), h)
  {
    hide View, WellOrdered, Listing, SortServers, MarkStale, Blank, LoadOrImport, Keyed;
    if Absent(s, h) && !Inserts(s, step, h) {
      StepKeepsAbsent(s, step, h);
    }
  }

  lemma StepKeepsProgress(s: System, step: Step, h: string)
    requires Valid(s) && Purged(s, h)
    ensures PurgeProgress(Next(s, step), h)
  {
    hide WellOrdered, Listing, SortServers, MarkStale, Blank, LoadOrImport, Keyed, Restores, Iterates, Refreshed, ApplyAlertOp;
    if Absent(s, h) && !Inserts(s, step, h) {
      StepKeepsAbsent(s, step, h);
    }
    if Enabled(s, step) && step.PurgeList? {
      WithoutNames(s.served.servers, s.lifecycle.hosts);
    }
  }

  lemma StepKeepsPurged(s: System, step: Step, h: string)
    requires Valid(s) && Purged(s, h)
    ensures Purged(Next(s, step), h)
  {
    hide Valid, Next, Absent, PurgeProgress;
    StepKeepsGone(s, step, h);
    StepKeepsProgress(s, step, h);
  }

  lemma {:induction false} RunKeepsPurged(s: System, steps: seq<Step>, h: string)
    requires Valid(s) && Purged(s, h)
    ensures Purged(Run(s, steps), h)
    decreases |steps|
  {
    if steps != [] {
      StepKeepsValid(s, steps[0]);
      StepKeepsPurged(s, steps[0], h);
      RunKeepsPurged(Next(s, steps[0]), steps[1..], h);
    }
  }

  /**
  No resurrection: in every run, with crashes and restarts anywhere, a host whose purge finished and which
  has not reported since is in no published list or text, live map, runtime state or state file.
  */
  lemma PurgedHostsStayGone(
    markers: set<string>, snapshot: Option<StatsResp>, file: StateFile, steps: seq<Step>, h: string)
    requires WellKeyed(Load(file))
    ensures var s := Reached(markers, snapshot, file, steps);
            h in s.gone ==>
              && h !in Names(s.served.servers) && s.json.Serialised? && h !in Names(s.json.resp.servers)
              && h !in s.statMap && h !in Load(s.store.file).hosts
  {
    hide Run;
    RunKeepsValid(Stopped(markers, snapshot, file), steps);
    RunKeepsPurged(Stopped(markers, snapshot, file), steps, h);
  }

  /** No step of the run puts a report of this host into the live map. */
  predicate NeverInserted(s: System, steps: seq<Step>, h: string)
    decreases |steps|
  {
    steps == [] || (!Inserts(s, steps[0], h) && NeverInserted(Next(s, steps[0]), steps[1..], h))
  }

  lemma {:induction false} RunKeepsGone(s: System, steps: seq<Step>, h: string)
    requires h in s.gone && NeverInserted(s, steps, h)
    ensures h in Run(s, steps).gone
    decreases |steps|
  {
    if steps != [] {
      RunKeepsGone(Next(s, steps[0]), steps[1..], h);
    }
  }

  lemma {:induction false} RunKeepsUnmarked(s: System, steps: seq<Step>, h: string)
    requires h !in s.markers && forall i :: 0 <= i < |steps| && steps[i].ReplaceSettings? ==> h !in steps[i].markers
    ensures h !in Run(s, steps).markers
    decreases |steps|
  {
    if steps != [] {
      RunKeepsUnmarked(Next(s, steps[0]), steps[1..], h);
    }
  }

  /** Nobody who looks at the server finds the host: not in the list, its text, the live map or the state file. */
  predicate Unknown(s: System, h: string) {
    && h !in Names(s.served.servers) && s.json.Serialised? && h !in Names(s.json.resp.servers)
    && h !in s.statMap && h !in Load(s.store.file).hosts
  }

  lemma FinishedPurgeRecords(s: System, step: Step)
    requires step == PurgeClear(true) && Enabled(s, step)
    ensures Next(s, step).gone == s.gone + s.lifecycle.hosts && Next(s, step).markers == s.markers - s.lifecycle.hosts
  {
  }

  /**
  A finished purge lasts: until the host's next processed report, whatever else happens, crashes included, the host
  stays unknown, and it is not marked either unless a settings replacement marks it again.
  */
  lemma FinishedPurgeLasts(
    markers: set<string>, snapshot: Option<StatsResp>, file: StateFile, before: seq<Step>, after: seq<Step>, h: string)
    requires WellKeyed(Load(file))
    requires var s := Reached(markers, snapshot, file, before);
             && s.lifecycle.PurgeClearing? && h in s.lifecycle.hosts && NeverInserted(Next(s, PurgeClear(true)), after, h)
    ensures var t := Run(Next(Reached(markers, snapshot, file, before), PurgeClear(true)), after);
            && Unknown(t, h)
            && ((forall i :: 0 <= i < |after| && after[i].ReplaceSettings? ==> h !in after[i].markers) ==> h !in t.markers)
  {
    hide Run;
    RunKeepsValid(Stopped(markers, snapshot, file), before);
    RunKeepsPurged(Stopped(markers, snapshot, file), before, h);
    var s := Reached(markers, snapshot, file, before);
    var s' := Next(s, PurgeClear(true));
    FinishedPurgeRecords(s, PurgeClear(true));
    StepKeepsValid(s, PurgeClear(true));
    StepKeepsPurged(s, PurgeClear(true), h);
    RunKeepsValid(s', after);
    RunKeepsPurged(s', after, h);
    RunKeepsGone(s', after, h);
    if forall i :: 0 <= i < |after| && after[i].ReplaceSettings? ==> h !in after[i].markers {
      RunKeepsUnmarked(s', after, h);
    }
  }

  // ---------- deleted markers ----------

  /** The step takes the host's marker off the disk. */
  predicate Unmarks(s: System, step: Step, h: string) {
    h in s.markers && h !in Next(s, step).markers
  }

  /**
  Exactly three things take a deleted marker off the disk: the start of a report from the host, accepted or not; a
  settings replacement without it; and a purge of the host, which by then has left memory, the state file and the
  public list.
  */
  lemma MarkerClearedExactlyWhen(
    markers: set<string>, snapshot: Option<StatsResp>, file: StateFile, steps: seq<Step>, step: Step, h: string)
    requires WellKeyed(Load(file))
    ensures var s := Reached(markers, snapshot, file, steps);
            && (Unmarks(s, step, h) <==>
                && h in s.markers
                && (|| (step.StartReport? && s.lifecycle.Idle? && step.stat.name == h && !Blank(h) && step.markerWritten)
                    || (step.ReplaceSettings? && h !in step.markers)
                    || (step.PurgeClear? && s.lifecycle.PurgeClearing? && h in s.lifecycle.hosts && step.written)))
            && (step.PurgeClear? && Unmarks(s, step, h) ==> Absent(s, h))
  {
    StepUnmarksExactlyWhen(Reached(markers, snapshot, file, steps), step, h);
    hide Run, Absent, Unmarks, Enabled;
    RunKeepsPurged(Stopped(markers, snapshot, file), steps, h);
  }

  lemma StepUnmarksExactlyWhen(s: System, step: Step, h: string)
    ensures Unmarks(s, step, h) <==>
            && h in s.markers
            && (|| (step.StartReport? && s.lifecycle.Idle? && step.stat.name == h && !Blank(h) && step.markerWritten)
                || (step.ReplaceSettings? && h !in step.markers)
                || (step.PurgeClear? && s.lifecycle.PurgeClearing? && h in s.lifecycle.hosts && step.written))
  {
    hide Blank, MarkStale, Listing, SortServers, LoadOrImport, Restores, Iterates, Refreshed, Publish, Upsert, Purge, ApplyAlertOp;
  }

  /** Starting a report and then publishing. */
  function Republish(stat: HostStat, known: bool, written: bool, timer: bool, order: seq<string>, updated: nat, threshold: nat)
    : seq<Step>
  {
    [StartReport(stat, known, written)] + PublicationSteps(timer, order, updated, threshold)
  }

  /**
  A rejected report shows a live, marked host again, with no report processed, exactly if it is that host's, its name
  is not blank and the write of the cleared marker succeeds: the next publication then lists it.
  */
  lemma RejectedReportUnhidesExactlyWhen(
    markers: set<string>, snapshot: Option<StatsResp>, file: StateFile, steps: seq<Step>, stat: HostStat, written: bool,
    timer: bool, order: seq<string>, updated: nat, threshold: nat, h: string)
    requires WellKeyed(Load(file))
    requires var s := Reached(markers, snapshot, file, steps);
             s.lifecycle.Idle? && s.publication.Free? && h in s.markers && Iterates(order, s.statMap)
    ensures var s := Reached(markers, snapshot, file, steps);
            var t := Run(s, Republish(stat, false, written, timer, order, updated, threshold));
            && (h in Names(t.served.servers) <==> h in s.statMap && stat.name == h && written)
            && t.json == Serialised(t.served) && t.statMap.Keys == s.statMap.Keys && t.gone == s.gone
            && t.markers == if written && !Blank(stat.name) then s.markers - {stat.name} else s.markers
  {
    hide Run;
    RunKeepsValid(Stopped(markers, snapshot, file), steps);
    PublishingLists(Next(Reached(markers, snapshot, file, steps), StartReport(stat, false, written)), timer, order, updated, threshold);
    RunCons(Reached(markers, snapshot, file, steps), StartReport(stat, false, written), PublicationSteps(timer, order, updated, threshold));
    StepKeepsValid(Reached(markers, snapshot, file, steps), StartReport(stat, false, written));
  }

  lemma RunCons(s: System, step: Step, rest: seq<Step>)
    ensures Run(s, [step] + rest) == Run(Next(s, step), rest)
  {
    hide Next;
    assert ([step] + rest)[1..] == rest;
  }

  /** A whole publication lists exactly the live hosts that are not marked when it starts. */
  lemma PublishingLists(s: System, timer: bool, order: seq<string>, updated: nat, threshold: nat)
    requires View(s) && s.publication.Free? && Iterates(order, s.statMap)
    ensures var t := Run(s, PublicationSteps(timer, order, updated, threshold));
            && Names(t.served.servers) == s.statMap.Keys - s.markers && t.json == Serialised(t.served)
            && t.statMap.Keys == s.statMap.Keys && t.gone == s.gone && t.markers == s.markers
            && t.lifecycle == s.lifecycle && t.publication.Free?
  {
    hide Run, Listing, SortServers, WellOrdered, Names, Blank;
    var started := Next(s, StartPublication(timer));
    ListHostsShows(started, ListHosts(order, updated, threshold));
    RunFour(s, StartPublication(timer), ListHosts(order, updated, threshold), PublishList(false, false), PublishText);
  }

  /** In between, the list is ahead of the text. */
  lemma ListIsAheadOfText(s: System, timer: bool, order: seq<string>, updated: nat, threshold: nat)
    requires View(s) && s.publication.Free? && Iterates(order, s.statMap)
    ensures var t := Run(s, PublicationSteps(timer, order, updated, threshold)[..3]);
            && t.json == Serialised(s.served) && t.publication.Written? && ListReadable(t)
            && Names(t.served.servers) == s.statMap.Keys - s.markers
  {
    hide Run, Listing, SortServers, WellOrdered, Names, Blank;
    var started := Next(s, StartPublication(timer));
    var listed := Next(started, ListHosts(order, updated, threshold));
    ListHostsShows(started, ListHosts(order, updated, threshold));
    assert PublicationSteps(timer, order, updated, threshold)[..3] ==
           [StartPublication(timer)] + [ListHosts(order, updated, threshold), PublishList(false, false)];
    RunCons(s, StartPublication(timer), [ListHosts(order, updated, threshold), PublishList(false, false)]);
    RunTwo(started, ListHosts(order, updated, threshold), PublishList(false, false));
  }

  const VPS := HostStat("vps", "vps", "g", true, true, false, false, 0, 0, 100, 0.0, 0.0, 0.0, 0.0, 0, 0, 0, 0)

  /** A fresh server, one processed report, the host marked as deleted, and the list published without it. */
  function MarkedHost(): seq<Step> {
    [Restart(NO_CONFIG, map[], [], 0, false), StartReport(VPS, true, true), InsertReport(false), ReplaceSettings({"vps"})]
    + PublicationSteps(false, ["vps"], 100, 60)
  }

  lemma MarkedHostIsHidden()
    ensures var s := Reached({}, None, Missing, MarkedHost());
            && s.statMap.Keys == {"vps"} && s.markers == {"vps"} && "vps" !in Names(s.served.servers)
            && s.lifecycle.Idle? && s.publication.Free?
  {
    hide Run, Next;
    var s0 := Stopped({}, None, Missing);
    var publishing := PublicationSteps(false, ["vps"], 100, 60);
    var last := [ReplaceSettings({"vps"})] + publishing;
    var reporting := [StartReport(VPS, true, true)] + ([InsertReport(false)] + last);
    assert MarkedHost() == [Restart(NO_CONFIG, map[], [], 0, false)] + reporting;
    var s1 := Next(s0, Restart(NO_CONFIG, map[], [], 0, false));
    var s2 := Next(s1, StartReport(VPS, true, true));
    var s3 := Next(s2, InsertReport(false));
    var s4 := Next(s3, ReplaceSettings({"vps"}));
    RunCons(s0, Restart(NO_CONFIG, map[], [], 0, false), reporting);
    RunCons(s1, StartReport(VPS, true, true), [InsertReport(false)] + last);
    RunCons(s2, InsertReport(false), last);
    RunCons(s3, ReplaceSettings({"vps"}), publishing);
    StartsEmpty();
    ReportIsProcessed(s1, VPS);
    StepKeepsValid(s0, Restart(NO_CONFIG, map[], [], 0, false));
    StepKeepsValid(s1, StartReport(VPS, true, true));
    StepKeepsValid(s2, InsertReport(false));
    StepKeepsValid(s3, ReplaceSettings({"vps"}));
    SettingsAreReplaced(s3, {"vps"});
    PublishingLists(s4, false, ["vps"], 100, 60);
  }

  lemma StartsEmpty()
    ensures var s := Next(Stopped({}, None, Missing), Restart(NO_CONFIG, map[], [], 0, false));
            s.statMap == map[] && s.lifecycle.Idle? && s.publication.Free?
    ensures Valid(Stopped({}, None, Missing))
  {
  }

  lemma ReportIsProcessed(s: System, stat: HostStat)
    requires s.lifecycle.Idle? && stat == VPS
    ensures var t := Next(Next(s, StartReport(stat, true, true)), InsertReport(false));
            t.statMap == s.statMap[stat.name := stat] && t.lifecycle.Idle? && t.publication == s.publication
  {
    hide Trim;
    NotBlank();
  }

  lemma SettingsAreReplaced(s: System, markers: set<string>)
    ensures Next(s, ReplaceSettings(markers)) == s.(markers := markers)
  {
  }

  lemma NotBlank()
    ensures !Blank("vps")
  {
    TrimFixed("vps");
  }

  // ---------- deleted hosts stay hidden while their marker is on disk ----------

  predicate InFlightHides(s: System, h: string) {
    match s.publication
    case Started(markers, _, _) => h in markers
    case Listed(resp, _, _) => h !in Names(resp.servers)
    case TimerSaving(resp, _, _) => h !in Names(resp.servers)
    case Written(_) => h !in Names(s.served.servers)
    case _ => true
  }

  /** The host is marked, in neither list nor text, and no publication under way will show it. */
  predicate Hidden(s: System, h: string) {
    && h in s.markers && h !in Names(s.served.servers) && h !in Names(Shown(s).servers)
    && InFlightHides(s, h)
  }

  lemma StepKeepsHidden(s: System, step: Step, h: string)
    requires Valid(s) && Hidden(s, h) && !Unmarks(s, step, h)
    ensures Hidden(Next(s, step), h)
  {
    hide WellOrdered, Listing, SortServers, MarkStale, LoadOrImport, Blank, Keyed;
    if Enabled(s, step) {
      match step {
        case ListHosts(_, _, _) => ListHostsShows(s, step);
        case PurgeList(_) => WithoutNames(s.served.servers, s.lifecycle.hosts);
        case Restart(_, _, _, _, _) => RestartShows(s, step);
        case _ =>
      }
    }
  }

  predicate NeverUnmarked(s: System, steps: seq<Step>, h: string)
    decreases |steps|
  {
    steps == [] || (!Unmarks(s, steps[0], h) && NeverUnmarked(Next(s, steps[0]), steps[1..], h))
  }

  lemma {:induction false} RunKeepsHidden(s: System, steps: seq<Step>, h: string)
    requires Valid(s) && Hidden(s, h) && NeverUnmarked(s, steps, h)
    ensures Valid(Run(s, steps)) && Hidden(Run(s, steps), h)
    decreases |steps|
  {
    if steps != [] {
      StepKeepsValid(s, steps[0]);
      StepKeepsHidden(s, steps[0], h);
      RunKeepsHidden(Next(s, steps[0]), steps[1..], h);
    }
  }

  /** Neither list nor text shows the host. */
  predicate NotShown(s: System, h: string) {
    h !in Names(s.served.servers) && s.json.Serialised? && h !in Names(s.json.resp.servers)
  }

  /**
  A restart never shows a host whose deleted marker is on disk, and nothing shows it afterwards for as long
  as the marker stays there.
  */
  lemma MarkedHostsStayHiddenAfterRestart(
    markers: set<string>, snapshot: Option<StatsResp>, file: StateFile, before: seq<Step>, restart: Step, after: seq<Step>,
    h: string)
    requires WellKeyed(Load(file))
    requires var s := Reached(markers, snapshot, file, before);
             restart.Restart? && Enabled(s, restart) && h in s.markers && NeverUnmarked(Next(s, restart), after, h)
    ensures NotShown(Run(Next(Reached(markers, snapshot, file, before), restart), after), h)
  {
    RunKeepsValid(Stopped(markers, snapshot, file), before);
    var s := Reached(markers, snapshot, file, before);
    hide Run;
    RestartShows(s, restart);
    StepKeepsValid(s, restart);
    RunKeepsHidden(Next(s, restart), after, h);
  }

  /** The marker is on disk and the publication under way, if any, started after it. */
  predicate WillHide(s: System, h: string) {
    h in s.markers && InFlightHides(s, h)
  }

  lemma StepKeepsWillHide(s: System, step: Step, h: string)
    requires Valid(s) && WillHide(s, h) && !Unmarks(s, step, h)
    ensures WillHide(Next(s, step), h)
  {
    hide WellOrdered, Listing, SortServers, MarkStale, Blank;
    if Enabled(s, step) && step.ListHosts? {
      ListHostsShows(s, step);
    }
  }

  lemma {:induction false} RunKeepsWillHide(s: System, steps: seq<Step>, h: string)
    requires Valid(s) && WillHide(s, h) && NeverUnmarked(s, steps, h)
    ensures Valid(Run(s, steps)) && WillHide(Run(s, steps), h)
    decreases |steps|
  {
    if steps != [] {
      StepKeepsValid(s, steps[0]);
      StepKeepsWillHide(s, steps[0], h);
      RunKeepsWillHide(Next(s, steps[0]), steps[1..], h);
    }
  }

  /**
  Without a restart: once the marker is on disk, the first publication that starts after it and completes
  hides the host, and the host stays hidden for as long as the marker stays there.
  */
  lemma MarkedHostsHiddenByNextPublication(
    markers: set<string>, snapshot: Option<StatsResp>, file: StateFile, before: seq<Step>,
    between: seq<Step>, after: seq<Step>, h: string)
    requires WellKeyed(Load(file))
    requires var s := Reached(markers, snapshot, file, before);
             var t := Run(s, between);
             && WillHide(s, h) && NeverUnmarked(s, between, h)
             && t.publication.Written? && NeverUnmarked(Next(t, PublishText), after, h)
    ensures NotShown(Run(Next(Run(Reached(markers, snapshot, file, before), between), PublishText), after), h)
  {
    RunKeepsValid(Stopped(markers, snapshot, file), before);
    var s := Reached(markers, snapshot, file, before);
    hide Run;
    RunKeepsWillHide(s, between, h);
    StepKeepsValid(Run(s, between), PublishText);
    RunKeepsHidden(Next(Run(s, between), PublishText), after, h);
  }

  /** If a hidden host is shown again, restarts included, some step took its marker off before. */
  lemma {:induction false} ShownAgainMeansUnmarked(s: System, steps: seq<Step>, h: string)
    requires Valid(s) && Hidden(s, h) && !NotShown(Run(s, steps), h)
    ensures exists i | 0 <= i < |steps| :: Unmarks(Run(s, steps[..i]), steps[i], h)
    decreases |steps|
  {
    hide Next, Hidden, Unmarks;
    if forall i | 0 <= i < |steps| :: !Unmarks(Run(s, steps[..i]), steps[i], h) {
      UnmarkedNowhere(s, steps, h);
      RunKeepsHidden(s, steps, h);
      HiddenIsNotShown(Run(s, steps), h);
    }
  }

  lemma HiddenIsNotShown(s: System, h: string)
    requires Valid(s) && Hidden(s, h)
    ensures NotShown(s, h)
  {
  }

  lemma {:induction false} UnmarkedNowhere(s: System, steps: seq<Step>, h: string)
    requires forall i | 0 <= i < |steps| :: !Unmarks(Run(s, steps[..i]), steps[i], h)
    ensures NeverUnmarked(s, steps, h)
    decreases |steps|
  {
    hide Next, Unmarks;
    if steps != [] {
      assert steps[..0] == [] && !Unmarks(Run(s, steps[..0]), steps[0], h);
      forall i | 0 <= i < |steps| - 1
        ensures !Unmarks(Run(Next(s, steps[0]), steps[1..][..i]), steps[1..][i], h)
      {
        assert !Unmarks(Run(s, steps[..i + 1]), steps[i + 1], h);
        assert steps[..i + 1] == [steps[0]] + steps[1..][..i];
        RunCons(s, steps[0], steps[1..][..i]);
      }
      UnmarkedNowhere(Next(s, steps[0]), steps[1..], h);
    }
  }

  // ---------- the two cases at concrete inputs ----------

  /** Between the two writes a reader finds a host in the list that the text does not have yet. */
  lemma ReaderSeesOldText()
    ensures var steps := MarkedHost() + [ReplaceSettings({})] + PublicationSteps(false, ["vps"], 101, 60)[..3];
            var s := Reached({}, None, Missing, steps);
            && ListReadable(s) && s.json.Serialised?
            && "vps" in Names(s.served.servers) && "vps" !in Names(s.json.resp.servers)
  {
    hide Run, MarkedHost, Next;
    var s := Reached({}, None, Missing, MarkedHost());
    var writing := PublicationSteps(false, ["vps"], 101, 60)[..3];
    MarkedHostIsHidden();
    StartsEmpty();
    RunKeepsValid(Stopped({}, None, Missing), MarkedHost());
    StepKeepsValid(s, ReplaceSettings({}));
    SettingsAreReplaced(s, {});
    ListIsAheadOfText(Next(s, ReplaceSettings({})), false, ["vps"], 101, 60);
    RunConcat(Stopped({}, None, Missing), MarkedHost(), [ReplaceSettings({})] + writing);
    RunCons(s, ReplaceSettings({}), writing);
    assert MarkedHost() + [ReplaceSettings({})] + writing == MarkedHost() + ([ReplaceSettings({})] + writing);
  }

  lemma {:induction false} RunConcat(s: System, a: seq<Step>, b: seq<Step>)
    ensures Run(s, a + b) == Run(Run(s, a), b)
    decreases |a|
  {
    hide Next;
    if a == [] {
      assert a + b == b;
    } else {
      assert (a + b)[1..] == a[1..] + b;
      RunConcat(Next(s, a[0]), a[1..], b);
    }
  }

  /** A report of the marked host that is rejected for its group shows the host again. */
  lemma RejectedReportUnhidesHost()
    ensures var s := Reached({}, None, Missing, MarkedHost());
            var t := Run(s, Republish(VPS, false, true, false, ["vps"], 101, 60));
            && "vps" in s.markers && "vps" !in Names(s.served.servers)
            && "vps" in Names(t.served.servers) && "vps" !in t.markers
  {
    hide Run, MarkedHost;
    NotBlank();
    MarkedHostIsHidden();
    RejectedReportUnhidesExactlyWhen({}, None, Missing, MarkedHost(), VPS, true, false, ["vps"], 101, 60, "vps");
  }
}
