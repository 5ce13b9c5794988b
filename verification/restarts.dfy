/** What a restart gives back: over whole runs, the last report that was processed and then saved. */
module Restarts {
  import opened Wrappers
  import opened Text
  import opened Payload
  import opened RuntimeState
  import opened Publication
  import opened Hosts
  import opened Lifecycle
  import L = Lifecycle

  /** A plain record beside the server: each host's last processed report, and the same when the file was last replaced. */
  datatype Ledger = Ledger(heard: map<string, HostStat>, filed: map<string, HostStat>)

  /** This step replaces the state file: nothing has moved since the snapshot, and neither write nor rename fails. */
  predicate Saves(s: System, step: Step)
    requires Enabled(s, step)
  {
    match step
    case FinishReportSave(fault) => Installs(s.store, s.lifecycle.reportTicket, fault)
    case FinishTimerSave(fault) => Installs(s.store, s.publication.timerTicket, fault)
    case PurgeSave(fault) => Installs(s.store, s.lifecycle.purgeTicket, fault)
    case _ => false
  }

  /** The last entry of that name. */
  function LastOf(servers: seq<HostStat>, n: string): HostStat
    requires n in Names(servers)
  {
    var k := |servers| - 1;
    if servers[k].name == n then servers[k]
    else
      assert forall i :: 0 <= i < k ==> servers[i] == servers[..k][i];
      LastOf(servers[..k], n)
  }

  /** What the public snapshot says of the hosts that may be shown. */
  function Imported(snapshot: Option<StatsResp>, markers: set<string>): map<string, HostStat> {
    if snapshot.None? then map[]
    else map n | n in Names(snapshot.value.servers) && !Blank(n) && n !in markers :: LastOf(snapshot.value.servers, n)
  }

  function Noted(l: Ledger, s: System, step: Step): Ledger {
    if !Enabled(s, step) then l
    else
      match step
      case InsertReport(_) => l.(heard := l.heard[s.lifecycle.stat.name := s.lifecycle.stat])
      case PurgeMaps => l.(heard := WithoutHosts(l.heard, s.lifecycle.hosts))
      case Restart(_, _, _, _, migrated) =>
        if !s.store.file.Missing? then Ledger(l.filed, l.filed)
        else if migrated then Ledger(Imported(s.snapshot, s.markers), Imported(s.snapshot, s.markers))
        else Ledger(map[], map[])
      case _ => if Saves(s, step) then l.(filed := l.heard) else l
  }

  function NotedAll(l: Ledger, s: System, steps: seq<Step>): Ledger
    decreases |steps|
  {
    if steps == [] then l else NotedAll(Noted(l, s, steps[0]), Next(s, steps[0]), steps[1..])
  }

  // ---------- the server's known hosts are the ledger's ----------

  predicate Told(hosts: map<string, KnownHost>, said: map<string, HostStat>) {
    hosts.Keys == said.Keys && forall n :: n in hosts ==> Keeps(hosts[n], said[n])
  }

  predicate TicketsAgree(s: System) {
    && (s.lifecycle.ReportSaving? ==> TicketOf(s.store, s.lifecycle.reportTicket))
    && (s.publication.TimerSaving? ==> TicketOf(s.store, s.publication.timerTicket))
  }

  predicate Agrees(l: Ledger, s: System) {
    Told(s.store.state.hosts, l.heard) && Told(Load(s.store.file).hosts, l.filed) && TicketsAgree(s)
  }

  lemma ImportedOneMore(servers: seq<HostStat>, markers: set<string>)
    requires servers != []
    ensures var last := servers[|servers| - 1];
            var rest := Imported(Some(StatsResp(0, servers[..|servers| - 1])), markers);
            Imported(Some(StatsResp(0, servers)), markers) ==
            if Blank(last.name) || last.name in markers then rest else rest[last.name := last]
  {
    hide Blank;
    var k := |servers| - 1;
    NamesOneMore(servers);
    assert forall n :: n in Names(servers) && n != servers[k].name ==> LastOf(servers, n) == LastOf(servers[..k], n);
  }

  lemma NamesOneMore(servers: seq<HostStat>)
    requires servers != []
    ensures Names(servers) == Names(servers[..|servers| - 1]) + {servers[|servers| - 1].name}
  {
    var front := servers[..|servers| - 1];
    assert forall i :: 0 <= i < |front| ==> front[i] == servers[i];
  }

  lemma {:induction false} ImportIsTold(servers: seq<HostStat>, markers: set<string>)
    ensures Told(ImportServers(servers, markers), Imported(Some(StatsResp(0, servers)), markers))
  {
    if servers != [] {
      ImportIsTold(servers[..|servers| - 1], markers);
      ImportedOneMore(servers, markers);
      hide Blank, Keeps, Imported;
      ReportIsKept(servers[|servers| - 1]);
    }
  }

  /** A snapshot that was of the present state, or older, is still so after any step of a running server. */
  lemma StepKeepsTicket(s: System, step: Step, t: Ticket)
    requires TicketOf(s.store, t) && !step.Restart?
    ensures TicketOf(Next(s, step).store, t)
  {
    hide Listing, SortServers, MarkStale, Blank;
    var w := World(s.store, map[], []);
    if Enabled(s, step) {
      match step {
        case ReportAlerts(op) => StepMovesGeneration(w, op);
        case TimerAlerts(op) => StepMovesGeneration(w, op);
        case InsertReport(_) => StepMovesGeneration(w, OpUpsert(KnownHost.FromStat(s.lifecycle.stat)));
        case PurgeMaps => StepMovesGeneration(w, OpPurge(s.lifecycle.hosts));
        case _ =>
      }
    }
  }

  lemma StepKeepsTickets(s: System, step: Step)
    requires TicketsAgree(s)
    ensures TicketsAgree(Next(s, step))
  {
    hide Listing, SortServers, MarkStale, Blank, TicketOf, ApplyAlertOp, Publish;
    SnapshotIsOfNow(s.store);
    if s.lifecycle.ReportSaving? && !step.Restart? {
      StepKeepsTicket(s, step, s.lifecycle.reportTicket);
    }
    if s.publication.TimerSaving? && !step.Restart? {
      StepKeepsTicket(s, step, s.publication.timerTicket);
    }
    if s.lifecycle.Reporting? {
      SnapshotIsOfNow(Upsert(s.store, KnownHost.FromStat(s.lifecycle.stat)));
    }
  }

  lemma SnapshotIsOfNow(store: Store)
    ensures TicketOf(store, Snapshot(store))
  {
  }

  /** The known hosts and the file after a step of a running server. */
  lemma StoreAfter(s: System, step: Step)
    requires View(s) && TicketsAgree(s) && Enabled(s, step) && !step.Restart?
    ensures Next(s, step).store.state.hosts ==
            match step
            case InsertReport(_) => s.store.state.hosts[s.lifecycle.stat.name := KnownHost.FromStat(s.lifecycle.stat)]
            case PurgeMaps => WithoutHosts(s.store.state.hosts, s.lifecycle.hosts)
            case _ => s.store.state.hosts
    ensures Next(s, step).store.file == if Saves(s, step) then Parsed(RUNTIME_STATE_VERSION, s.store.state) else s.store.file
  {
    hide Listing, SortServers, MarkStale, WellOrdered, WellNamed, Blank;
    if step.PurgeMaps? && s.lifecycle.hosts == {} {
      assert WithoutHosts(s.store.state.hosts, {}) == s.store.state.hosts;
    }
    if step.InsertReport? {
      assert !Blank(s.lifecycle.stat.name);
    }
  }

  lemma RunningStepKeepsAgrees(l: Ledger, s: System, step: Step)
    requires View(s) && Agrees(l, s) && Enabled(s, step) && !step.Restart?
    ensures Agrees(Noted(l, s, step), Next(s, step))
  {
    hide Next, TicketsAgree, View, Installs;
    StoreAfter(s, step);
    StepKeepsTickets(s, step);
  }

  lemma RestartKeepsAgrees(l: Ledger, s: System, step: Step)
    requires Agrees(l, s) && Enabled(s, step) && step.Restart?
    ensures Agrees(Noted(l, s, step), Next(s, step))
  {
    hide Listing, SortServers, ImportServers, Imported, Restores, Iterates, Keeps;
    if s.snapshot.Some? {
      ImportIsTold(s.snapshot.value.servers, s.markers);
      SnapshotOnlyCounts(s.snapshot.value, s.markers);
    } else {
      NothingImported(s.markers);
    }
  }

  lemma SnapshotOnlyCounts(resp: StatsResp, markers: set<string>)
    ensures Imported(Some(resp), markers) == Imported(Some(StatsResp(0, resp.servers)), markers)
  {
  }

  lemma NothingImported(markers: set<string>)
    ensures Imported(None, markers) == map[]
  {
  }

  lemma StepKeepsAgrees(l: Ledger, s: System, step: Step)
    requires View(s) && Agrees(l, s)
    ensures Agrees(Noted(l, s, step), Next(s, step))
  {
    hide Agrees, View, Apply;
    if Enabled(s, step) {
      if step.Restart? {
        RestartKeepsAgrees(l, s, step);
      } else {
        RunningStepKeepsAgrees(l, s, step);
      }
    }
  }

  lemma {:induction false} RunKeepsAgrees(l: Ledger, s: System, steps: seq<Step>)
    requires Valid(s) && Agrees(l, s)
    ensures Agrees(NotedAll(l, s, steps), L.Run(s, steps))
    decreases |steps|
  {
    hide Agrees, Valid, Noted, Next;
    if steps != [] {
      StepKeepsValid(s, steps[0]);
      assert View(s) by { ValidHasView(s); }
      StepKeepsAgrees(l, s, steps[0]);
      RunKeepsAgrees(Noted(l, s, steps[0]), Next(s, steps[0]), steps[1..]);
    }
  }

  lemma ValidHasView(s: System)
    requires Valid(s)
    ensures View(s)
  {
  }

  // ---------- what a restart shows ----------

  /**
  From a server whose known hosts and file are some ledger's, a restart at the end of any run lists exactly the hosts
  of the ledger that are not blank or marked, each as the ledger's saved report said it: the last report of the host
  that had been processed when the file was last replaced, or its entry in the snapshot where there is no file.
  */
  lemma RestartShowsTheLastSavedReport(l: Ledger, s: System, steps: seq<Step>, restart: Step, n: string)
    requires Valid(s) && Agrees(l, s)
    requires restart.Restart? && Enabled(L.Run(s, steps), restart)
    ensures var before, after := L.Run(s, steps), Next(L.Run(s, steps), restart);
            var saved := Noted(NotedAll(l, s, steps), before, restart).heard;
            && (n in after.statMap <==> n in saved && !Blank(n) && n !in before.markers)
            && (n in after.statMap ==> RestoredAs(after.statMap[n], saved[n], restart.config))
  {
    hide L.Run, Restores, Agrees, Valid, Noted, NotedAll, RestoredAs, Next;
    RunKeepsValid(s, steps);
    RunKeepsAgrees(l, s, steps);
    RestartShowsLedger(NotedAll(l, s, steps), L.Run(s, steps), restart, n);
  }

  lemma RestartShowsLedger(l: Ledger, s: System, restart: Step, n: string)
    requires Valid(s) && Agrees(l, s) && restart.Restart? && Enabled(s, restart)
    ensures var after, saved := Next(s, restart), Noted(l, s, restart).heard;
            && (n in after.statMap <==> n in saved && !Blank(n) && n !in s.markers)
            && (n in after.statMap ==> RestoredAs(after.statMap[n], saved[n], restart.config))
  {
    hide RestoredAs, RestoredEntry, Keeps, View, Noted, Apply;
    var hosts := LoadOrImport(s, restart.migrated).state.hosts;
    RestartKeepsAgrees(l, s, restart);
    StepKeepsKeyed(s, restart);
    RestartStarts(s, restart);
    assert WellKeyed(State(hosts, map[]));
    if n in hosts {
      assert n in (set k | k in hosts && Restorable(hosts[k], s.markers) :: hosts[k].name) <==> Restorable(hosts[n], s.markers);
      RestoredEntryIs(restart.config, hosts[n], Noted(l, s, restart).heard[n]);
    }
  }

  lemma RestartStarts(s: System, restart: Step)
    requires restart.Restart? && Enabled(s, restart)
    ensures Next(s, restart).store == LoadOrImport(s, restart.migrated) && Next(s, restart).statMap == restart.stats
  {
  }

  // ---------- one report, from its processing to a later restart ----------

  /** The step neither processes a report of the host nor purges it. */
  predicate LeavesAlone(s: System, step: Step, n: string) {
    Enabled(s, step) ==>
      && (step.InsertReport? ==> s.lifecycle.stat.name != n)
      && (step.PurgeMaps? ==> n !in s.lifecycle.hosts)
  }

  predicate AllLeaveAlone(s: System, steps: seq<Step>, n: string)
    decreases |steps|
  {
    steps == [] || (LeavesAlone(s, steps[0], n) && AllLeaveAlone(Next(s, steps[0]), steps[1..], n))
  }

  predicate NoRestart(steps: seq<Step>) {
    forall i :: 0 <= i < |steps| ==> !steps[i].Restart?
  }

  /** A ledger that fits a server: each known host as it was saved. */
  function LedgerOf(s: System): Ledger {
    Ledger(map n | n in s.store.state.hosts :: s.store.state.hosts[n].IntoOfflineStat(),
           map n | n in Load(s.store.file).hosts :: Load(s.store.file).hosts[n].IntoOfflineStat())
  }

  lemma LedgerExists(s: System)
    requires TicketsAgree(s)
    ensures Agrees(LedgerOf(s), s)
  {
  }

  lemma {:induction false} RunKeepsTickets(s: System, steps: seq<Step>)
    requires TicketsAgree(s)
    ensures TicketsAgree(L.Run(s, steps))
    decreases |steps|
  {
    hide TicketsAgree, Next;
    if steps != [] {
      StepKeepsTickets(s, steps[0]);
      RunKeepsTickets(Next(s, steps[0]), steps[1..]);
    }
  }

  predicate Heard(l: Ledger, said: HostStat) {
    said.name in l.heard && l.heard[said.name] == said
  }

  predicate Filed(l: Ledger, said: HostStat) {
    said.name in l.filed && l.filed[said.name] == said
  }

  lemma {:induction false} StaysHeard(l: Ledger, s: System, steps: seq<Step>, said: HostStat)
    requires Heard(l, said) && NoRestart(steps) && AllLeaveAlone(s, steps, said.name)
    ensures Heard(NotedAll(l, s, steps), said)
    decreases |steps|
  {
    hide Next, Saves;
    if steps != [] {
      assert !steps[0].Restart?;
      assert forall i :: 0 <= i < |steps[1..]| ==> steps[1..][i] == steps[i + 1];
      StaysHeard(Noted(l, s, steps[0]), Next(s, steps[0]), steps[1..], said);
    }
  }

  lemma StepStaysFiled(l: Ledger, s: System, step: Step, said: HostStat)
    requires Agrees(l, s) && Heard(l, said) && Filed(l, said) && LeavesAlone(s, step, said.name)
    ensures Heard(Noted(l, s, step), said) && Filed(Noted(l, s, step), said)
  {
    hide Saves, TicketsAgree, Keeps, Imported;
    assert said.name in Load(s.store.file).hosts;
  }

  lemma {:induction false} StaysFiled(l: Ledger, s: System, steps: seq<Step>, said: HostStat)
    requires Valid(s) && Agrees(l, s) && Heard(l, said) && Filed(l, said) && AllLeaveAlone(s, steps, said.name)
    ensures Heard(NotedAll(l, s, steps), said) && Filed(NotedAll(l, s, steps), said)
    decreases |steps|
  {
    hide Next, Noted, Valid, Agrees, LeavesAlone, Heard, Filed;
    if steps != [] {
      StepKeepsValid(s, steps[0]);
      ValidHasView(s);
      StepKeepsAgrees(l, s, steps[0]);
      StepStaysFiled(l, s, steps[0], said);
      StaysFiled(Noted(l, s, steps[0]), Next(s, steps[0]), steps[1..], said);
    }
  }

  /** The step runs and replaces the state file. */
  predicate ReplacesFile(s: System, step: Step) {
    Enabled(s, step) && Saves(s, step)
  }

  /** From the processing of a report to a save, and on to a later restart. */
  function UntilSave(s: System, save: bool, until: seq<Step>): System {
    L.Run(Next(s, InsertReport(save)), until)
  }

  function UntilRestart(s: System, save: bool, until: seq<Step>, saving: Step, since: seq<Step>): System {
    L.Run(Next(UntilSave(s, save, until), saving), since)
  }

  /**
  In every run: once a report is processed, and the file is replaced with no restart or other report or purge of the
  host in between, every later restart before the host's next report or purge shows the host as that report said it.
  */
  lemma SavedReportComesBack(
    markers: set<string>, snapshot: Option<StatsResp>, file: StateFile, before: seq<Step>, save: bool, until: seq<Step>,
    saving: Step, since: seq<Step>, restart: Step, said: HostStat)
    requires WellKeyed(Load(file))
    requires var s := Reached(markers, snapshot, file, before);
             && s.lifecycle == Reporting(said)
             && NoRestart(until) && AllLeaveAlone(Next(s, InsertReport(save)), until, said.name)
             && ReplacesFile(UntilSave(s, save, until), saving)
             && AllLeaveAlone(Next(UntilSave(s, save, until), saving), since, said.name)
             && restart.Restart? && Enabled(UntilRestart(s, save, until, saving, since), restart)
             && said.name !in UntilRestart(s, save, until, saving, since).markers
    ensures var after := Next(UntilRestart(Reached(markers, snapshot, file, before), save, until, saving, since), restart);
            said.name in after.statMap && RestoredAs(after.statMap[said.name], said, restart.config)
  {
    var s := Reached(markers, snapshot, file, before);
    RunKeepsValid(Stopped(markers, snapshot, file), before);
    RunKeepsTickets(Stopped(markers, snapshot, file), before);
    hide L.Run, RestoredAs, Agrees, TicketsAgree, LedgerOf;
    LedgerExists(s);
    ComesBack(LedgerOf(s), s, save, until, saving, since, restart, said);
  }

  lemma ComesBack(
    l: Ledger, s: System, save: bool, until: seq<Step>, saving: Step, since: seq<Step>, restart: Step, said: HostStat)
    requires Valid(s) && Agrees(l, s) && s.lifecycle == Reporting(said)
    requires NoRestart(until) && AllLeaveAlone(Next(s, InsertReport(save)), until, said.name)
    requires ReplacesFile(UntilSave(s, save, until), saving)
    requires AllLeaveAlone(Next(UntilSave(s, save, until), saving), since, said.name)
    requires restart.Restart? && Enabled(UntilRestart(s, save, until, saving, since), restart)
    requires said.name !in UntilRestart(s, save, until, saving, since).markers
    ensures var after := Next(UntilRestart(s, save, until, saving, since), restart);
            said.name in after.statMap && RestoredAs(after.statMap[said.name], said, restart.config)
  {
    hide L.Run, RestoredAs, Agrees, Valid, Next, Restores, AllLeaveAlone, NoRestart;
    var s1, l1 := Next(s, InsertReport(save)), Noted(l, s, InsertReport(save));
    assert Heard(l1, said) && !Blank(said.name) by { ValidHasView(s); }
    ValidHasView(s);
    StepKeepsValid(s, InsertReport(save));
    StepKeepsAgrees(l, s, InsertReport(save));
    var s2, l2 := UntilSave(s, save, until), NotedAll(l1, s1, until);
    RunKeepsValid(s1, until);
    RunKeepsAgrees(l1, s1, until);
    StaysHeard(l1, s1, until, said);
    FiledFromHere(l2, s2, saving, since, restart, said);
  }

  lemma FiledFromHere(l: Ledger, s: System, saving: Step, since: seq<Step>, restart: Step, said: HostStat)
    requires Valid(s) && Agrees(l, s) && Heard(l, said) && !Blank(said.name)
    requires ReplacesFile(s, saving) && AllLeaveAlone(Next(s, saving), since, said.name)
    requires var t := L.Run(Next(s, saving), since); restart.Restart? && Enabled(t, restart) && said.name !in t.markers
    ensures var after := Next(L.Run(Next(s, saving), since), restart);
            said.name in after.statMap && RestoredAs(after.statMap[said.name], said, restart.config)
  {
    hide L.Run, RestoredAs, Agrees, Valid, View, Next, Restores, AllLeaveAlone, Keeps, Installs;
    ValidHasView(s);
    var s1, l1 := Next(s, saving), Noted(l, s, saving);
    StepKeepsValid(s, saving);
    StepKeepsAgrees(l, s, saving);
    var s2, l2 := L.Run(s1, since), NotedAll(l1, s1, since);
    RunKeepsValid(s1, since);
    RunKeepsAgrees(l1, s1, since);
    StaysFiled(l1, s1, since, said);
    RestartShowsLedger(l2, s2, restart, said.name);
    FileIsThere(l2, s2, said);
  }

  lemma FileIsThere(l: Ledger, s: System, said: HostStat)
    requires Agrees(l, s) && Filed(l, said)
    ensures !s.store.file.Missing?
  {
    assert said.name in Load(s.store.file).hosts;
  }
}
