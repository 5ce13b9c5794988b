/**
Deadlock freedom.  Each thread is a program of nested lock scopes, channel sends and receives; the system
interleaves any number of them.  Every lock is taken in rising rank, and each channel's consumer waits for
nothing that a blocked sender could hold, so some thread can always move.
*/
module Locks {

  datatype Lock =
    | LifecycleLock | PublicationLock | HostsMap | StatMap | StorePublication | StoreInner
    | RuntimeSlot | ExpireNotify | StatsData | RespJson | Notifiers | AdminState | NotifierHandle | JinjaEnv | LoginTable

  /** Bounded channels: reports to the report thread, messages to the notifier thread. */
  datatype Channel = Reports | Messages

  function LockRank(l: Lock): int {
    match l
    case LifecycleLock => 1
    case PublicationLock => 2
    case HostsMap => 3
    case StatMap => 4
    case RuntimeSlot => 5
    case StorePublication => 6
    case StoreInner => 7
    case ExpireNotify => 8
    case StatsData => 9
    case RespJson => 10
    case Notifiers => 12
    case AdminState => 13
    case NotifierHandle => 14
    case JinjaEnv => 15
    case LoginTable => 16
  }

  function ChannelRank(c: Channel): int {
    match c
    case Reports => 0
    case Messages => 11
  }

  /** A thread's code, as far as locks and channels go.  A guard lives exactly as long as its scope. */
  datatype Code =
    | Nothing
    | Then(first: Code, second: Code)
    | Hold(lock: Lock, body: Code)
    | Maybe(code: Code)
    | Repeat(code: Code)
    | Send(channel: Channel)
    | Receive(channel: Channel)

  datatype Frame = Run(code: Code) | Release(lock: Lock)

  /** What a thread has left to do, innermost first. */
  type Stack = seq<Frame>

  /** All threads, and how many items wait in each channel. */
  datatype State = State(stacks: seq<Stack>, queued: map<Channel, nat>)

  // ---------- how threads move ----------

  predicate Holds(stack: Stack, l: Lock) {
    Release(l) in stack
  }

  predicate Taken(s: State, l: Lock) {
    exists i :: 0 <= i < |s.stacks| && Holds(s.stacks[i], l)
  }

  function Queued(s: State, c: Channel): nat {
    if c in s.queued then s.queued[c] else 0
  }

  /** Whether thread `i` can take its next step.  A thread with nothing left starts its program again. */
  predicate CanMove(s: State, capacity: nat, i: nat)
    requires i < |s.stacks|
  {
    var stack := s.stacks[i];
    stack != [] && stack[0].Run? ==>
      match stack[0].code
      case Hold(l, _) => !Taken(s, l)
      case Send(c) => Queued(s, c) < capacity
      case Receive(c) => Queued(s, c) > 0
      case _ => true
  }

  function MovedStack(stack: Stack, program: Code, choice: bool): Stack {
    if stack == [] then [Run(program)]
    else
      var rest := stack[1..];
      match stack[0]
      case Release(_) => rest
      case Run(code) =>
        match code
        case Then(a, b) => [Run(a), Run(b)] + rest
        case Hold(l, body) => [Run(body), Release(l)] + rest
        case Maybe(c) => if choice then [Run(c)] + rest else rest
        case Repeat(c) => if choice then [Run(c), Run(Repeat(c))] + rest else rest
        case _ => rest
  }

  function MovedQueues(s: State, stack: Stack): map<Channel, nat> {
    if stack == [] || !stack[0].Run? then s.queued
    else
      match stack[0].code
      case Send(c) => s.queued[c := Queued(s, c) + 1]
      case Receive(c) => s.queued[c := if Queued(s, c) > 0 then Queued(s, c) - 1 else 0]
      case _ => s.queued
  }

  datatype Move = Move(thread: nat, choice: bool)

  function After(s: State, programs: seq<Code>, capacity: nat, m: Move): State
    requires |programs| == |s.stacks|
  {
    if m.thread < |s.stacks| && CanMove(s, capacity, m.thread) then
      var stack := s.stacks[m.thread];
      State(s.stacks[m.thread := MovedStack(stack, programs[m.thread], m.choice)], MovedQueues(s, stack))
    else s
  }

  function AfterAll(s: State, programs: seq<Code>, capacity: nat, moves: seq<Move>): (r: State)
    requires |programs| == |s.stacks|
    ensures |r.stacks| == |s.stacks|
    decreases |moves|
  {
    if moves == [] then s else AfterAll(After(s, programs, capacity, moves[0]), programs, capacity, moves[1..])
  }

  function Boot(programs: seq<Code>): State {
    State(seq(|programs|, i => []), map[])
  }

  // ---------- the discipline ----------

  /** Inside a scope of rank `floor`, everything the code may wait for ranks higher; it receives holding nothing. */
  predicate Rises(code: Code, floor: int) {
    match code
    case Nothing => true
    case Then(a, b) => Rises(a, floor) && Rises(b, floor)
    case Hold(l, body) => LockRank(l) > floor && Rises(body, LockRank(l))
    case Maybe(c) => Rises(c, floor)
    case Repeat(c) => Rises(c, floor)
    case Send(c) => ChannelRank(c) > floor
    case Receive(_) => floor < 0
  }

  /** The code receives from `own` at most, and otherwise waits only above rank `above`. */
  predicate WaitsAbove(code: Code, above: int, own: set<Channel>) {
    match code
    case Nothing => true
    case Then(a, b) => WaitsAbove(a, above, own) && WaitsAbove(b, above, own)
    case Hold(l, body) => LockRank(l) > above && WaitsAbove(body, above, own)
    case Maybe(c) => WaitsAbove(c, above, own)
    case Repeat(c) => WaitsAbove(c, above, own)
    case Send(c) => ChannelRank(c) > above
    case Receive(c) => c in own
  }

  /** The highest rank a stack holds, which is that of its innermost scope. */
  function Floor(stack: Stack): int {
    if stack == [] then -1
    else if stack[0].Release? then LockRank(stack[0].lock)
    else Floor(stack[1..])
  }

  predicate FrameFits(frame: Frame, rest: Stack, above: int, own: set<Channel>) {
    match frame
    case Run(code) => Rises(code, Floor(rest)) && WaitsAbove(code, above, own)
    case Release(l) => LockRank(l) > Floor(rest)
  }

  predicate Disciplined(stack: Stack, above: int, own: set<Channel>) {
    stack == [] || (Disciplined(stack[1..], above, own) && FrameFits(stack[0], stack[1..], above, own))
  }

  /** Thread 0 consumes the reports, thread 1 the messages; the others consume nothing. */
  function Own(i: nat): set<Channel> {
    if i == 0 then {Reports} else if i == 1 then {Messages} else {}
  }

  function Above(i: nat): int {
    if i == 0 then ChannelRank(Reports) else if i == 1 then ChannelRank(Messages) else -1
  }

  predicate Ranked(programs: seq<Code>) {
    && |programs| >= 3
    && forall i :: 0 <= i < |programs| ==> Rises(programs[i], -1) && WaitsAbove(programs[i], Above(i), Own(i))
  }

  predicate AllDisciplined(s: State) {
    forall i :: 0 <= i < |s.stacks| ==> Disciplined(s.stacks[i], Above(i), Own(i))
  }

  lemma DisciplinedPush(a: Frame, rest: Stack, above: int, own: set<Channel>)
    requires Disciplined(rest, above, own) && FrameFits(a, rest, above, own)
    ensures Disciplined([a] + rest, above, own)
    ensures Floor([a] + rest) == if a.Release? then LockRank(a.lock) else Floor(rest)
  {
    assert ([a] + rest)[1..] == rest;
  }

  lemma PushTwo(a: Code, b: Frame, rest: Stack, above: int, own: set<Channel>)
    requires Disciplined(rest, above, own) && FrameFits(b, rest, above, own)
    requires Rises(a, if b.Release? then LockRank(b.lock) else Floor(rest)) && WaitsAbove(a, above, own)
    ensures Disciplined([Run(a), b] + rest, above, own)
  {
    hide Rises, WaitsAbove;
    DisciplinedPush(b, rest, above, own);
    DisciplinedPush(Run(a), [b] + rest, above, own);
    assert [Run(a), b] + rest == [Run(a)] + ([b] + rest);
  }

  lemma MoveKeepsDiscipline(stack: Stack, program: Code, choice: bool, above: int, own: set<Channel>)
    requires Disciplined(stack, above, own) && Rises(program, -1) && WaitsAbove(program, above, own)
    ensures Disciplined(MovedStack(stack, program, choice), above, own)
  {
    hide LockRank, ChannelRank;
    if stack == [] {
      DisciplinedPush(Run(program), [], above, own);
    } else if stack[0].Run? {
      var rest := stack[1..];
      match stack[0].code {
        case Then(a, b) => PushTwo(a, Run(b), rest, above, own);
        case Hold(l, body) => PushTwo(body, Release(l), rest, above, own);
        case Maybe(c) => DisciplinedPush(Run(c), rest, above, own);
        case Repeat(c) => PushTwo(c, Run(Repeat(c)), rest, above, own);
        case _ =>
      }
    }
  }

  lemma {:induction false} MovesKeepDiscipline(s: State, programs: seq<Code>, capacity: nat, moves: seq<Move>)
    requires |programs| == |s.stacks| && Ranked(programs) && AllDisciplined(s)
    ensures AllDisciplined(AfterAll(s, programs, capacity, moves))
    decreases |moves|
  {
    if moves != [] {
      var m := moves[0];
      if m.thread < |s.stacks| {
        MoveKeepsDiscipline(s.stacks[m.thread], programs[m.thread], m.choice, Above(m.thread), Own(m.thread));
      }
      MovesKeepDiscipline(After(s, programs, capacity, m), programs, capacity, moves[1..]);
    }
  }

  // ---------- one holder a lock ----------

  predicate OneHolder(s: State) {
    forall i, j, l :: 0 <= i < j < |s.stacks| && Holds(s.stacks[i], l) ==> !Holds(s.stacks[j], l)
  }

  /** A move takes no lock but the one its scope names. */
  lemma MoveTakes(stack: Stack, program: Code, choice: bool, l: Lock)
    requires Holds(MovedStack(stack, program, choice), l)
    ensures Holds(stack, l) || (stack != [] && stack[0].Run? && stack[0].code.Hold? && stack[0].code.lock == l)
  {
    if stack != [] {
      assert stack == [stack[0]] + stack[1..];
    }
  }

  lemma MoveKeepsOneHolder(s: State, programs: seq<Code>, capacity: nat, m: Move)
    requires |programs| == |s.stacks| && OneHolder(s)
    ensures OneHolder(After(s, programs, capacity, m))
  {
    hide Holds, MovedStack, MovedQueues;
    if m.thread < |s.stacks| && CanMove(s, capacity, m.thread) {
      var t := m.thread;
      var moved := MovedStack(s.stacks[t], programs[t], m.choice);
      forall i, l | 0 <= i < |s.stacks| && i != t && Holds(moved, l)
        ensures !Holds(s.stacks[i], l)
      {
        MoveTakes(s.stacks[t], programs[t], m.choice, l);
      }
    }
  }

  lemma {:induction false} MovesKeepOneHolder(s: State, programs: seq<Code>, capacity: nat, moves: seq<Move>)
    requires |programs| == |s.stacks| && OneHolder(s)
    ensures OneHolder(AfterAll(s, programs, capacity, moves))
    decreases |moves|
  {
    hide OneHolder, CanMove, MovedStack;
    if moves != [] {
      MoveKeepsOneHolder(s, programs, capacity, moves[0]);
      MovesKeepOneHolder(After(s, programs, capacity, moves[0]), programs, capacity, moves[1..]);
    }
  }

  /** Mutual exclusion: whatever the threads are and have done, no lock is held by two of them. */
  lemma NoLockHasTwoHolders(programs: seq<Code>, capacity: nat, moves: seq<Move>, i: nat, j: nat, l: Lock)
    requires i < |programs| && j < |programs|
    ensures var s := AfterAll(Boot(programs), programs, capacity, moves);
            Holds(s.stacks[i], l) && Holds(s.stacks[j], l) ==> i == j
  {
    hide AfterAll;
    MovesKeepOneHolder(Boot(programs), programs, capacity, moves);
  }

  // ---------- somebody can always move ----------

  lemma {:induction false} HeldIsBelowFloor(stack: Stack, l: Lock, above: int, own: set<Channel>)
    requires Disciplined(stack, above, own) && Holds(stack, l)
    ensures LockRank(l) <= Floor(stack)
  {
    if stack[0] != Release(l) {
      assert Release(l) in stack[1..];
      HeldIsBelowFloor(stack[1..], l, above, own);
    }
  }

  /** The rank of what a thread is waiting for; receivers wait lowest of all. */
  function WaitRank(stack: Stack): int {
    if stack == [] || !stack[0].Run? then -2
    else
      match stack[0].code
      case Hold(l, _) => LockRank(l)
      case Send(c) => ChannelRank(c)
      case _ => -2
  }

  /** Thread `i` cannot move until `j` lets go of a lock or makes room in a channel. */
  predicate WaitsFor(s: State, capacity: nat, i: nat, j: nat) {
    && i < |s.stacks| && j < |s.stacks| && !CanMove(s, capacity, i)
    && match s.stacks[i][0].code
       case Hold(l, _) => Holds(s.stacks[j], l)
       case Send(Reports) => j == 0
       case Send(Messages) => j == 1
       case _ => false
  }

  /** The thread waits for something to be sent to it, holding nothing. */
  predicate Idle(s: State, capacity: nat, i: nat)
    requires i < |s.stacks|
  {
    !CanMove(s, capacity, i) && s.stacks[i][0].code.Receive?
  }

  /** What a thread waits for can move, or waits for something higher; it is never idle. */
  lemma WaitsRise(s: State, capacity: nat, i: nat, j: nat)
    requires capacity > 0 && AllDisciplined(s) && WaitsFor(s, capacity, i, j)
    ensures CanMove(s, capacity, j) || (!Idle(s, capacity, j) && WaitRank(s.stacks[j]) > WaitRank(s.stacks[i]))
  {
    match s.stacks[i][0].code {
      case Hold(l, _) => HeldIsBelowFloor(s.stacks[j], l, Above(j), Own(j));
      case _ =>   // the channel is full, so its consumer is not waiting to receive
    }
  }

  lemma BlockedWaitsForSomeone(s: State, capacity: nat, i: nat) returns (j: nat)
    requires |s.stacks| >= 3 && i < |s.stacks| && !CanMove(s, capacity, i) && !Idle(s, capacity, i)
    ensures WaitsFor(s, capacity, i, j)
  {
    match s.stacks[i][0].code {
      case Hold(l, _) => j :| 0 <= j < |s.stacks| && Holds(s.stacks[j], l);
      case Send(Reports) => j := 0;
      case Send(Messages) => j := 1;
    }
  }

  /** Each thread of the path waits for the next, and the last one can move. */
  predicate LeadsToMover(s: State, capacity: nat, path: seq<nat>) {
    && path != [] && path[|path| - 1] < |s.stacks| && CanMove(s, capacity, path[|path| - 1])
    && forall k :: 0 <= k < |path| - 1 ==> WaitsFor(s, capacity, path[k], path[k + 1])
  }

  lemma {:induction false} WaitLeadsToMover(s: State, capacity: nat, i: nat) returns (path: seq<nat>)
    requires capacity > 0 && |s.stacks| >= 3 && AllDisciplined(s) && i < |s.stacks| && !Idle(s, capacity, i)
    ensures LeadsToMover(s, capacity, path) && path[0] == i
    decreases 16 - WaitRank(s.stacks[i])
  {
    if CanMove(s, capacity, i) {
      path := [i];
    } else {
      var j := BlockedWaitsForSomeone(s, capacity, i);
      WaitsRise(s, capacity, i, j);
      if CanMove(s, capacity, j) {
        path := [i, j];
      } else {
        var rest := WaitLeadsToMover(s, capacity, j);
        path := [i] + rest;
      }
    }
  }

  /**
  Nobody is stuck: whatever the threads have done since start-up, following what a waiting thread waits for
  leads to a thread that can move.  No set of threads waits in a circle, for any number of ranked programs.
  */
  lemma EveryWaitLeadsToMover(programs: seq<Code>, capacity: nat, moves: seq<Move>, i: nat)
    requires Ranked(programs) && capacity > 0 && i < |programs|
    ensures var s := AfterAll(Boot(programs), programs, capacity, moves);
            Idle(s, capacity, i) || exists path :: LeadsToMover(s, capacity, path) && path[0] == i
  {
    MovesKeepDiscipline(Boot(programs), programs, capacity, moves);
    var s := AfterAll(Boot(programs), programs, capacity, moves);
    if !Idle(s, capacity, i) {
      var path := WaitLeadsToMover(s, capacity, i);
    }
  }

  predicate SomeoneCanMove(s: State, capacity: nat) {
    exists i :: 0 <= i < |s.stacks| && CanMove(s, capacity, i)
  }

  /** Not all threads wait at once: one that consumes nothing is never idle. */
  lemma SomeThreadCanMove(programs: seq<Code>, capacity: nat, moves: seq<Move>)
    requires Ranked(programs) && capacity > 0
    ensures SomeoneCanMove(AfterAll(Boot(programs), programs, capacity, moves), capacity)
  {
    MovesKeepDiscipline(Boot(programs), programs, capacity, moves);
    var s := AfterAll(Boot(programs), programs, capacity, moves);
    assert Disciplined(s.stacks[2], Above(2), Own(2));
    var path := WaitLeadsToMover(s, capacity, 2);
    assert CanMove(s, capacity, path[|path| - 1]);
  }

  // ---------- the server's threads ----------

  /** A short read or write of the settings. */
  const SETTINGS := Hold(AdminState, Nothing)

  const CHANNEL_CAPACITY: nat := 512

  /** Snapshot under the state lock, then rename under both store locks. */
  function SaveState(): Code {
    Then(Hold(StoreInner, Nothing), Hold(StorePublication, Hold(StoreInner, Nothing)))
  }

  function ReportInsert(): Code {
    Hold(StatMap,
         Then(Maybe(Then(SETTINGS, Then(SETTINGS, Hold(StoreInner, Nothing)))),
              Then(Repeat(Send(Messages)),
                   Then(Hold(StoreInner, Nothing), Maybe(SaveState())))))
  }

  function ReportMerge(): Code {
    Hold(HostsMap, Maybe(Then(SETTINGS, Maybe(ReportInsert()))))
  }

  /** The report thread: receive, then handle the report with the lifecycle lock held throughout. */
  function ReportThread(): Code {
    Then(Receive(Reports),
         Hold(LifecycleLock,
              Then(SETTINGS,
                   Then(Maybe(Then(SETTINGS, SETTINGS)),
                        Then(Hold(HostsMap, Maybe(SETTINGS)), Maybe(ReportMerge()))))))
  }

  function TimerHost(): Code {
    Then(Maybe(Hold(ExpireNotify, Nothing)),
         Then(Hold(StoreInner, Nothing),
              Then(Maybe(Send(Messages)),
                   Then(Maybe(Send(Messages)), Repeat(Then(Send(Messages), Hold(StoreInner, Nothing)))))))
  }

  function PublishLists(): Code {
    Then(Hold(StatsData, Nothing), Hold(RespJson, Nothing))
  }

  /** The timer thread: one pass with the publication lock held throughout. */
  function TimerThread(): Code {
    Hold(PublicationLock,
         Then(Repeat(SETTINGS),
              Then(Hold(StatMap, Repeat(TimerHost())),
                   Then(Hold(StoreInner, Nothing), Then(Maybe(SaveState()), PublishLists())))))
  }

  /** Each notifier reads the settings and then takes the handle of the runtime it sends on. */
  function NotifierThread(): Code {
    Then(Receive(Messages), Hold(Notifiers, Repeat(Then(Repeat(SETTINGS), Maybe(Hold(NotifierHandle, Nothing))))))
  }

  /** A purge request, down to clearing the markers under the lifecycle lock alone. */
  function PurgeRequest(): Code {
    Hold(LifecycleLock,
         Then(Hold(PublicationLock,
                   Then(Hold(HostsMap, Nothing),
                        Then(Hold(StatMap, Nothing),
                             Then(Hold(RuntimeSlot, Nothing),
                                  Then(Hold(StoreInner, Nothing),
                                       Then(SaveState(),
                                            Then(Hold(ExpireNotify, Nothing),
                                                 Hold(StatsData, Hold(RespJson, Nothing))))))))),
              Then(SETTINGS, SETTINGS)))
  }

  function Rebuild(): Code {
    Hold(PublicationLock, Then(SETTINGS, Then(Hold(StatMap, Nothing), PublishLists())))
  }

  /** Saving settings refreshes the live maps and rebuilds the public list. */
  function SettingsRequest(): Code {
    Then(Repeat(SETTINGS), Then(Hold(HostsMap, Hold(StatMap, Repeat(SETTINGS))), Rebuild()))
  }

  /** A report looks up the host's group, checks its access key and is sent on. */
  function ReportRequest(): Code {
    Then(Hold(StatMap, Nothing), Then(Repeat(SETTINGS), Maybe(Send(Reports))))
  }

  function ReadRequest(): Code {
    Then(Maybe(Hold(StatMap, Nothing)), Then(Maybe(Hold(StatsData, Nothing)), Maybe(Hold(RespJson, Nothing))))
  }

  /** A page rendered from the public list, which the detail page holds on to while it renders. */
  function DetailPage(): Code {
    Hold(StatsData, Hold(JinjaEnv, Nothing))
  }

  function OtherPage(): Code {
    Then(Maybe(Hold(StatsData, Nothing)), Hold(JinjaEnv, Nothing))
  }

  function LoginRequest(): Code {
    Then(Hold(LoginTable, Nothing), Then(Repeat(SETTINGS), Hold(LoginTable, Nothing)))
  }

  predicate RequestBody(code: Code) {
    || code == Nothing || code == PurgeRequest() || code == Rebuild() || code == SettingsRequest()
    || code == ReportRequest() || code == ReadRequest() || code == DetailPage() || code == OtherPage() || code == LoginRequest()
  }

  /** Every request may read or write the settings first, to check who asks or for all it does. */
  predicate RequestThread(code: Code) {
    code.Then? && code.first == Repeat(SETTINGS) && RequestBody(code.second)
  }

  /** The three long-lived threads and any number of request threads. */
  predicate ServerThreads(programs: seq<Code>) {
    && |programs| >= 3
    && programs[0] == ReportThread() && programs[1] == NotifierThread() && programs[2] == TimerThread()
    && forall i :: 3 <= i < |programs| ==> RequestThread(programs[i])
  }

  lemma SaveIsRanked(floor: int, above: int, own: set<Channel>)
    requires floor < 6 && above < 6
    ensures Rises(SaveState(), floor) && WaitsAbove(SaveState(), above, own)
  {
    var store := Hold(StoreInner, Nothing);
    assert Rises(store, 6) && WaitsAbove(store, above, own);
    assert Rises(Hold(StorePublication, store), floor) && WaitsAbove(Hold(StorePublication, store), above, own);
  }

  lemma ReportInsertIsRanked()
    ensures Rises(ReportInsert(), 3) && WaitsAbove(ReportInsert(), 0, {Reports})
  {
    SaveIsRanked(4, 0, {Reports});
    var alerts := Then(SETTINGS, Then(SETTINGS, Hold(StoreInner, Nothing)));
    assert Rises(alerts, 4) && WaitsAbove(alerts, 0, {Reports});
    var store := Then(Hold(StoreInner, Nothing), Maybe(SaveState()));
    assert Rises(store, 4) && WaitsAbove(store, 0, {Reports});
    var send := Then(Repeat(Send(Messages)), store);
    assert Rises(send, 4) && WaitsAbove(send, 0, {Reports});
  }

  lemma ReportThreadIsRanked()
    ensures Rises(ReportThread(), -1) && WaitsAbove(ReportThread(), 0, {Reports})
  {
    ReportInsertIsRanked();
    assert Rises(ReportMerge(), 1) && WaitsAbove(ReportMerge(), 0, {Reports});
    var groups := Then(Hold(HostsMap, Maybe(SETTINGS)), Maybe(ReportMerge()));
    assert Rises(groups, 1) && WaitsAbove(groups, 0, {Reports});
    var marker := Then(Maybe(Then(SETTINGS, SETTINGS)), groups);
    assert Rises(marker, 1) && WaitsAbove(marker, 0, {Reports});
  }

  lemma TimerHostIsRanked()
    ensures Rises(TimerHost(), 4) && WaitsAbove(TimerHost(), -1, {})
  {
    var health := Repeat(Then(Send(Messages), Hold(StoreInner, Nothing)));
    var sends := Then(Maybe(Send(Messages)), Then(Maybe(Send(Messages)), health));
    assert Rises(health, 4) && WaitsAbove(health, -1, {}) && Rises(sends, 4) && WaitsAbove(sends, -1, {});
  }

  lemma TimerThreadIsRanked()
    ensures Rises(TimerThread(), -1) && WaitsAbove(TimerThread(), -1, {})
  {
    hide TimerHost, SaveState;
    TimerHostIsRanked();
    SaveIsRanked(2, -1, {});
    var store := Then(Hold(StoreInner, Nothing), Then(Maybe(SaveState()), PublishLists()));
    assert Rises(PublishLists(), 2) && WaitsAbove(PublishLists(), -1, {}) && Rises(store, 2) && WaitsAbove(store, -1, {});
    var pass := Then(Hold(StatMap, Repeat(TimerHost())), store);
    assert Rises(pass, 2) && WaitsAbove(pass, -1, {});
  }

  lemma PurgeRequestIsRanked()
    ensures Rises(PurgeRequest(), -1) && WaitsAbove(PurgeRequest(), -1, {})
  {
    hide SaveState;
    SaveIsRanked(2, -1, {});
    var publish := Then(Hold(ExpireNotify, Nothing), Hold(StatsData, Hold(RespJson, Nothing)));
    assert Rises(publish, 2) && WaitsAbove(publish, -1, {});
    var save := Then(Hold(StoreInner, Nothing), Then(SaveState(), publish));
    assert Rises(save, 2) && WaitsAbove(save, -1, {});
    var maps := Then(Hold(StatMap, Nothing), Then(Hold(RuntimeSlot, Nothing), save));
    assert Rises(maps, 2) && WaitsAbove(maps, -1, {});
    var locked := Hold(PublicationLock, Then(Hold(HostsMap, Nothing), maps));
    assert Rises(locked, 1) && WaitsAbove(locked, -1, {});
  }

  lemma RebuildIsRanked()
    ensures Rises(Rebuild(), -1) && WaitsAbove(Rebuild(), -1, {})
  {
    var publish := Then(Hold(StatMap, Nothing), PublishLists());
    assert Rises(publish, 2) && WaitsAbove(publish, -1, {});
  }

  lemma ReadRequestIsRanked()
    ensures Rises(ReadRequest(), -1) && WaitsAbove(ReadRequest(), -1, {})
  {
  }

  lemma PagesAreRanked()
    ensures Rises(DetailPage(), -1) && WaitsAbove(DetailPage(), -1, {})
    ensures Rises(OtherPage(), -1) && WaitsAbove(OtherPage(), -1, {})
    ensures Rises(LoginRequest(), -1) && WaitsAbove(LoginRequest(), -1, {})
    ensures Rises(ReportRequest(), -1) && WaitsAbove(ReportRequest(), -1, {})
  {
    assert Rises(Repeat(SETTINGS), -1) && WaitsAbove(Repeat(SETTINGS), -1, {});
  }

  lemma SettingsRequestIsRanked()
    ensures Rises(SettingsRequest(), -1) && WaitsAbove(SettingsRequest(), -1, {})
  {
    hide Rebuild;
    RebuildIsRanked();
    var refresh := Hold(HostsMap, Hold(StatMap, Repeat(SETTINGS)));
    assert Rises(Repeat(SETTINGS), 4) && WaitsAbove(Repeat(SETTINGS), -1, {});
    assert Rises(refresh, -1) && WaitsAbove(refresh, -1, {});
    assert Rises(Repeat(SETTINGS), -1);
  }

  lemma RequestThreadIsRanked(code: Code)
    requires RequestThread(code)
    ensures Rises(code, -1) && WaitsAbove(code, -1, {})
  {
    hide PurgeRequest, Rebuild, SettingsRequest, ReportRequest, ReadRequest, DetailPage, OtherPage, LoginRequest;
    ReadRequestIsRanked();
    PurgeRequestIsRanked();
    RebuildIsRanked();
    PagesAreRanked();
    SettingsRequestIsRanked();
    assert Rises(Repeat(SETTINGS), -1) && WaitsAbove(Repeat(SETTINGS), -1, {});
  }

  lemma NotifierThreadIsRanked()
    ensures Rises(NotifierThread(), -1) && WaitsAbove(NotifierThread(), 11, {Messages})
  {
    var each := Then(Repeat(SETTINGS), Maybe(Hold(NotifierHandle, Nothing)));
    assert Rises(each, 12) && WaitsAbove(each, 11, {Messages});
  }

  lemma ServerThreadsAreRanked(programs: seq<Code>)
    requires ServerThreads(programs)
    ensures Ranked(programs)
  {
    hide ReportThread, TimerThread, NotifierThread, RequestThread, Rises, WaitsAbove;
    ReportThreadIsRanked();
    TimerThreadIsRanked();
    NotifierThreadIsRanked();
    forall i | 3 <= i < |programs|
      ensures Rises(programs[i], -1) && WaitsAbove(programs[i], -1, {})
    {
      RequestThreadIsRanked(programs[i]);
    }
  }

  /**
  The server's own threads, with any number of requests in progress, never deadlock: some thread can move, and
  a thread that waits for a lock or a full channel waits, in the end, for one that can move.
  */
  lemma ServerNeverDeadlocks(programs: seq<Code>, moves: seq<Move>, i: nat)
    requires ServerThreads(programs) && i < |programs|
    ensures var s := AfterAll(Boot(programs), programs, CHANNEL_CAPACITY, moves);
            && SomeoneCanMove(s, CHANNEL_CAPACITY)
            && (Idle(s, CHANNEL_CAPACITY, i) || exists path :: LeadsToMover(s, CHANNEL_CAPACITY, path) && path[0] == i)
  {
    ServerThreadsAreRanked(programs);
    SomeThreadCanMove(programs, CHANNEL_CAPACITY, moves);
    EveryWaitLeadsToMover(programs, CHANNEL_CAPACITY, moves, i);
  }
}
