/** The limiter on failed logins: five failures lock a key, the client address with the user name, for five minutes. */
module Login {
  const LOGIN_MAX_FAILURES: nat := 5
  const LOGIN_LOCK_SECONDS: nat := 300
  const U32_MAX: nat := 0xFFFF_FFFF

  datatype LoginAttempt = LoginAttempt(failures: nat, lockedUntil: nat)

  type Attempts = map<string, LoginAttempt>

  datatype Outcome = TooManyAttempts | WrongCredentials | Accepted

  /** An attempt that names a user and a password; `ok` says whether they are right. */
  datatype Attempt = Attempt(key: string, now: nat, ok: bool)

  predicate Limited(attempts: Attempts, key: string, now: nat) {
    key in attempts && attempts[key].lockedUntil > now
  }

  /** A lock that has run out is forgotten, with its failures. */
  function Forgotten(attempts: Attempts, key: string, now: nat): Attempts {
    if key in attempts && 0 < attempts[key].lockedUntil <= now then attempts - {key} else attempts
  }

  function Failed(attempts: Attempts, key: string, now: nat): Attempts {
    var attempt := if key in attempts then attempts[key] else LoginAttempt(0, 0);
    var failures := if attempt.failures < U32_MAX then attempt.failures + 1 else attempt.failures;
    attempts[key := LoginAttempt(
      failures, if failures >= LOGIN_MAX_FAILURES then now + LOGIN_LOCK_SECONDS else attempt.lockedUntil)]
  }

  function OutcomeOf(attempts: Attempts, a: Attempt): Outcome {
    if Limited(attempts, a.key, a.now) then TooManyAttempts else if a.ok then Accepted else WrongCredentials
  }

  function Tried(attempts: Attempts, a: Attempt): Attempts {
    match OutcomeOf(attempts, a)
    case TooManyAttempts => attempts
    case WrongCredentials => Failed(Forgotten(attempts, a.key, a.now), a.key, a.now)
    case Accepted => attempts - {a.key}
  }

  class LoginLimiter {
    var attempts: Attempts

    constructor ()
      ensures attempts == map[]
    {
      attempts := map[];
    }

    method LoginAttemptLimited(key: string, now: nat) returns (limited: bool)
      modifies this
      ensures limited == Limited(old(attempts), key, now)
      ensures attempts == Forgotten(old(attempts), key, now)
    {
      if key !in attempts {
        return false;
      }
      if attempts[key].lockedUntil > now {
        return true;
      }
      if attempts[key].lockedUntil > 0 {
        attempts := attempts - {key};
      }
      limited := false;
    }

    method RecordLoginFailure(key: string, now: nat)
      modifies this
      ensures attempts == Failed(old(attempts), key, now)
    {
      if key !in attempts {
        attempts := attempts[key := LoginAttempt(0, 0)];
      }
      var attempt := attempts[key];
      attempt := attempt.(failures := if attempt.failures < U32_MAX then attempt.failures + 1 else attempt.failures);
      if attempt.failures >= LOGIN_MAX_FAILURES {
        attempt := attempt.(lockedUntil := now + LOGIN_LOCK_SECONDS);
      }
      attempts := attempts[key := attempt];
    }

    method ClearLoginAttempts(key: string)
      modifies this
      ensures attempts == old(attempts) - {key}
    {
      attempts := attempts - {key};
    }

    method Authorize(a: Attempt) returns (outcome: Outcome)
      modifies this
      ensures outcome == OutcomeOf(old(attempts), a)
      ensures attempts == Tried(old(attempts), a)
    {
      var limited := LoginAttemptLimited(a.key, a.now);
      if limited {
        return TooManyAttempts;
      }
      if !a.ok {
        RecordLoginFailure(a.key, a.now);
        return WrongCredentials;
      }
      ClearLoginAttempts(a.key);
      outcome := Accepted;
    }
  }

  // ---------- runs ----------

  function After(attempts: Attempts, run: seq<Attempt>): Attempts {
    if run == [] then attempts else Tried(After(attempts, run[..|run| - 1]), run[|run| - 1])
  }

  /** When the failures of a key were recorded, since its last successful login. */
  function Streak(run: seq<Attempt>, key: string): seq<nat> {
    if run == [] then []
    else
      var a, before := run[|run| - 1], Streak(run[..|run| - 1], key);
      if a.key != key then before
      else
        match OutcomeOf(After(map[], run[..|run| - 1]), a)
        case TooManyAttempts => before
        case WrongCredentials => before + [a.now]
        case Accepted => []
  }

  predicate Timed(run: seq<Attempt>) {
    forall i, j :: 0 <= i < j < |run| ==> run[i].now <= run[j].now
  }

  /** Failures come in fives, and after each five nothing is recorded for five minutes. */
  predicate Spaced(times: seq<nat>) {
    && (forall i, j :: 0 <= i < j < |times| ==> times[i] <= times[j])
    && forall i | 0 <= i < |times| - 1 :: i % 5 == 4 ==> times[i] + LOGIN_LOCK_SECONDS <= times[i + 1]
  }

  /** What the limiter remembers of a streak, at a time when every earlier attempt is over. */
  predicate Remembers(attempts: Attempts, key: string, times: seq<nat>) {
    if times == [] then key !in attempts
    else if key !in attempts then false
    else
      var attempt, last := attempts[key], times[|times| - 1];
      && 1 <= attempt.failures <= LOGIN_MAX_FAILURES
      && attempt.failures % LOGIN_MAX_FAILURES == |times| % LOGIN_MAX_FAILURES
      && attempt.lockedUntil == if attempt.failures == LOGIN_MAX_FAILURES then last + LOGIN_LOCK_SECONDS else 0
  }

  predicate Earlier(times: seq<nat>, now: nat) {
    forall i :: 0 <= i < |times| ==> times[i] <= now
  }

  lemma LimitedExactly(attempts: Attempts, key: string, times: seq<nat>, now: nat)
    requires Remembers(attempts, key, times)
    ensures Limited(attempts, key, now) <==>
            times != [] && |times| % LOGIN_MAX_FAILURES == 0 && now < times[|times| - 1] + LOGIN_LOCK_SECONDS
  {
  }

  lemma FailureRemembered(attempts: Attempts, key: string, times: seq<nat>, now: nat)
    requires Remembers(attempts, key, times) && !Limited(attempts, key, now)
    ensures Remembers(Failed(Forgotten(attempts, key, now), key, now), key, times + [now])
  {
    LimitedExactly(attempts, key, times, now);
  }

  lemma FailureSpaced(times: seq<nat>, now: nat)
    requires Spaced(times) && Earlier(times, now)
    requires times == [] || |times| % LOGIN_MAX_FAILURES != 0 || now >= times[|times| - 1] + LOGIN_LOCK_SECONDS
    ensures Spaced(times + [now]) && Earlier(times + [now], now)
  {
  }

  lemma StepRemembers(attempts: Attempts, times: seq<nat>, a: Attempt)
    requires Remembers(attempts, a.key, times) && Spaced(times) && Earlier(times, a.now)
    ensures var times' := match OutcomeOf(attempts, a)
                          case TooManyAttempts => times
                          case WrongCredentials => times + [a.now]
                          case Accepted => [];
            Remembers(Tried(attempts, a), a.key, times') && Spaced(times') && Earlier(times', a.now)
  {
    hide Failed, Forgotten, Spaced, Earlier, Remembers;
    LimitedExactly(attempts, a.key, times, a.now);
    NothingRemembered(attempts, a.key, a.now);
    if OutcomeOf(attempts, a) == WrongCredentials {
      FailureRemembered(attempts, a.key, times, a.now);
      FailureSpaced(times, a.now);
    }
  }

  lemma NothingRemembered(attempts: Attempts, key: string, now: nat)
    ensures Remembers(attempts - {key}, key, []) && Spaced([]) && Earlier([], now)
  {
  }

  lemma {:induction false} RunRemembers(run: seq<Attempt>, key: string)
    requires Timed(run)
    ensures Remembers(After(map[], run), key, Streak(run, key)) && Spaced(Streak(run, key))
    ensures run != [] ==> Earlier(Streak(run, key), run[|run| - 1].now)
  {
    if run != [] {
      var front, a := run[..|run| - 1], run[|run| - 1];
      RunRemembers(front, key);
      assert front != [] ==> front[|front| - 1].now <= a.now;
      if a.key == key {
        StepRemembers(After(map[], front), Streak(front, key), a);
      }
    }
  }

  /** At most five failures count against a key, and it is locked exactly when they are five. */
  lemma {:induction false} LockedExactlyAtFive(run: seq<Attempt>, key: string)
    requires Timed(run)
    ensures var attempts := After(map[], run);
            key in attempts ==>
              attempts[key].failures <= 5
              && (attempts[key].lockedUntil > 0 <==> attempts[key].failures == 5)
  {
    RunRemembers(run, key);
  }

  /** An attempt is turned away exactly when the failures since the last success make full fives and the last is recent. */
  lemma TurnedAwayExactlyWhen(run: seq<Attempt>, a: Attempt)
    requires Timed(run)
    ensures var times := Streak(run, a.key);
            OutcomeOf(After(map[], run), a) == TooManyAttempts <==>
              times != [] && |times| % 5 == 0 && a.now < times[|times| - 1] + 300
  {
    hide Streak, After, Remembers, Spaced;
    RunRemembers(run, a.key);
    LimitedExactly(After(map[], run), a.key, Streak(run, a.key), a.now);
  }

  // ---------- the bound ----------

  /** How many of the times lie in the half-open window of five minutes from `start`. */
  function CountInWindow(times: seq<nat>, start: nat): nat {
    if times == [] then 0
    else
      var last := times[|times| - 1];
      CountInWindow(times[..|times| - 1], start) + if start <= last < start + 300 then 1 else 0
  }

  /** Any six failures in a row span at least five minutes. */
  lemma SixSpanTheLock(times: seq<nat>, i: nat)
    requires Spaced(times) && i + 5 < |times|
    ensures times[i] + LOGIN_LOCK_SECONDS <= times[i + 5]
  {
    var fifth := i + 4 - i % 5;
    assert fifth % 5 == 4 && i <= fifth <= i + 4;
    assert times[i] <= times[fifth] && times[fifth + 1] <= times[i + 5];
  }

  predicate AllBefore(times: seq<nat>, start: nat) {
    forall i :: 0 <= i < |times| ==> times[i] < start
  }

  lemma {:induction false} NoneBeforeStart(times: seq<nat>, start: nat)
    requires AllBefore(times, start)
    ensures CountInWindow(times, start) == 0
  {
    if times != [] {
      NoneBeforeStart(times[..|times| - 1], start);
    }
  }

  lemma {:induction false} CountTail(times: seq<nat>, start: nat, k: nat)
    requires k <= |times|
    ensures CountInWindow(times, start) <= CountInWindow(times[..|times| - k], start) + k
    decreases k
  {
    if k == 0 {
      assert times[..|times|] == times;
    } else {
      var front := times[..|times| - 1];
      assert front[..|front| - (k - 1)] == times[..|times| - k];
      CountTail(front, start, k - 1);
    }
  }

  lemma AllButFiveAreBefore(times: seq<nat>, start: nat)
    requires Spaced(times) && |times| > 5 && times[|times| - 1] < start + 300
    ensures AllBefore(times[..|times| - 5], start)
  {
    SixSpanTheLock(times, |times| - 6);
  }

  lemma SpacedFront(times: seq<nat>)
    requires times != [] && Spaced(times)
    ensures Spaced(times[..|times| - 1])
  {
  }

  lemma {:induction false} SpacedBound(times: seq<nat>, start: nat)
    requires Spaced(times)
    ensures CountInWindow(times, start) <= 5
  {
    hide Spaced;
    var n := |times|;
    if n <= 5 {
      CountTail(times, start, n);
      NoneBeforeStart([], start);
      assert times[..0] == [];
    } else if start <= times[n - 1] < start + 300 {
      AllButFiveAreBefore(times, start);
      NoneBeforeStart(times[..n - 5], start);
      CountTail(times, start, 5);
    } else {
      SpacedFront(times);
      SpacedBound(times[..n - 1], start);
    }
  }

  /** With no success in between, any five minutes hold at most five recorded failures of a key. */
  lemma AtMostFiveFailuresInFiveMinutes(run: seq<Attempt>, key: string, start: nat)
    requires Timed(run)
    ensures CountInWindow(Streak(run, key), start) <= 5
  {
    RunRemembers(run, key);
    SpacedBound(Streak(run, key), start);
  }

  /** Attempts of one key say nothing about another. */
  lemma KeysAreIndependent(attempts: Attempts, a: Attempt, key: string)
    requires a.key != key
    ensures key in Tried(attempts, a) <==> key in attempts
    ensures key in attempts ==> Tried(attempts, a)[key] == attempts[key]
  {
  }

  // ---------- attempts that overlap ----------

  /**
  An attempt takes the table's lock twice: to check, and to record its failure or clear the key.  It reads the clock
  before either, and other attempts may run in between.
  */
  datatype Section =
    | Arrive(id: nat, key: string, now: nat)
    | Check(id: nat)
    | Record(id: nat)
    | Clear(id: nat)

  /** An attempt in flight: it has read the clock, and may have passed the check. */
  datatype Flight = Flight(key: string, now: nat, passed: bool)

  /** The table, the attempts in flight, and the failures recorded for each key since its last success. */
  datatype Server = Server(attempts: Attempts, flights: map<nat, Flight>, streaks: map<string, seq<nat>>)

  const IDLE_SERVER := Server(map[], map[], map[])

  function StreakOf(s: Server, key: string): seq<nat> {
    if key in s.streaks then s.streaks[key] else []
  }

  predicate HasPassed(s: Server, id: nat) {
    id in s.flights && s.flights[id].passed
  }

  /** A failure counts at the time its attempt read, as the limiter counts it. */
  function Recorded(s: Server, id: nat): Server
    requires id in s.flights
  {
    var f := s.flights[id];
    Server(Failed(s.attempts, f.key, f.now), s.flights - {id}, s.streaks[f.key := StreakOf(s, f.key) + [f.now]])
  }

  function Cleared(s: Server, id: nat): Server
    requires id in s.flights
  {
    var f := s.flights[id];
    Server(s.attempts - {f.key}, s.flights - {id}, s.streaks[f.key := []])
  }

  function Checked(s: Server, id: nat): Server
    requires id in s.flights
  {
    var f := s.flights[id];
    if Limited(s.attempts, f.key, f.now) then s.(flights := s.flights - {id})
    else s.(attempts := Forgotten(s.attempts, f.key, f.now), flights := s.flights[id := f.(passed := true)])
  }

  /** A section that is not due changes nothing. */
  function Next(s: Server, section: Section): Server {
    match section
    case Arrive(id, key, now) => if id in s.flights then s else s.(flights := s.flights[id := Flight(key, now, false)])
    case Check(id) => if id in s.flights && !s.flights[id].passed then Checked(s, id) else s
    case Record(id) => if HasPassed(s, id) then Recorded(s, id) else s
    case Clear(id) => if HasPassed(s, id) then Cleared(s, id) else s
  }

  function Run(s: Server, sections: seq<Section>): Server
    decreases |sections|
  {
    if sections == [] then s else Run(Next(s, sections[0]), sections[1..])
  }

  /** An attempt whose sections follow each other is the atomic attempt. */
  lemma UnbrokenAttemptIsAtomic(s: Server, id: nat, a: Attempt)
    requires id !in s.flights
    ensures var t := Next(Next(Next(s, Arrive(id, a.key, a.now)), Check(id)), if a.ok then Clear(id) else Record(id));
            && t.attempts == Tried(s.attempts, a) && t.flights == s.flights
            && StreakOf(t, a.key) == match OutcomeOf(s.attempts, a)
                                     case TooManyAttempts => StreakOf(s, a.key)
                                     case WrongCredentials => StreakOf(s, a.key) + [a.now]
                                     case Accepted => []
  {
  }

  // ---------- how many may overlap ----------

  function FlyingFor(s: Server, key: string): set<nat> {
    set id | id in s.flights && s.flights[id].key == key
  }

  /** The clock does not run backwards between the arrivals of the run. */
  predicate ClockRuns(sections: seq<Section>) {
    forall i, j :: 0 <= i < j < |sections| && sections[i].Arrive? && sections[j].Arrive? ==> sections[i].now <= sections[j].now
  }

  /** At no point of the run are more than `w` attempts of the key in flight. */
  predicate AtMostInFlight(sections: seq<Section>, key: string, w: nat) {
    forall i :: 0 <= i <= |sections| ==> |FlyingFor(Run(IDLE_SERVER, sections[..i]), key)| <= w
  }

  ghost predicate Bounded(sections: seq<Section>, key: string) {
    forall start: nat :: CountInWindow(StreakOf(Run(IDLE_SERVER, sections), key), start) <= 5
  }

  lemma {:induction false} RunConcat(s: Server, a: seq<Section>, b: seq<Section>)
    ensures Run(s, a + b) == Run(Run(s, a), b)
    decreases |a|
  {
    hide Next;
    if a == [] {
      assert a + b == b;
    } else {
      assert (a + b)[1..] == a[1..] + b;
      RunConcat(Next(s, a[0]), a[1..], b);
    }
  }

  lemma RunSnoc(s: Server, a: seq<Section>, section: Section)
    ensures Run(s, a + [section]) == Next(Run(s, a), section)
  {
    hide Next;
    RunConcat(s, a, [section]);
    assert [section][1..] == [];
    assert Run(Run(s, a), [section]) == Run(Next(Run(s, a), section), []);
  }

  // ---------- one at a time ----------

  /** What the table holds of a key while an attempt of that key is between its two sections. */
  predicate Awaits(attempts: Attempts, key: string, times: seq<nat>, now: nat) {
    if |times| % LOGIN_MAX_FAILURES == 0
    then key !in attempts && (times != [] ==> times[|times| - 1] + LOGIN_LOCK_SECONDS <= now)
    else key in attempts && attempts[key] == LoginAttempt(|times| % LOGIN_MAX_FAILURES, 0)
  }

  /** With at most one attempt of the key in flight, the table remembers its streak. */
  predicate Tracks(s: Server, key: string, clock: nat) {
    var times := StreakOf(s, key);
    && Spaced(times) && Earlier(times, clock)
    && (FlyingFor(s, key) == {} ==> Remembers(s.attempts, key, times))
    && forall id | id in FlyingFor(s, key) ::
         && s.flights[id].now <= clock && Earlier(times, s.flights[id].now)
         && if s.flights[id].passed then Awaits(s.attempts, key, times, s.flights[id].now)
            else Remembers(s.attempts, key, times)
  }

  lemma PassedAwaits(attempts: Attempts, key: string, times: seq<nat>, now: nat)
    requires Remembers(attempts, key, times) && !Limited(attempts, key, now)
    ensures Awaits(Forgotten(attempts, key, now), key, times, now)
  {
    LimitedExactly(attempts, key, times, now);
  }

  lemma RecordedRemembers(attempts: Attempts, key: string, times: seq<nat>, now: nat)
    requires Awaits(attempts, key, times, now) && Spaced(times) && Earlier(times, now)
    ensures Remembers(Failed(attempts, key, now), key, times + [now])
    ensures Spaced(times + [now]) && Earlier(times + [now], now)
  {
    FailureSpaced(times, now);
  }

  lemma OnlyFlight(s: Server, key: string, id: nat)
    requires |FlyingFor(s, key)| <= 1 && id in s.flights && s.flights[id].key == key
    ensures FlyingFor(s, key) == {id}
  {
    assert FlyingFor(s, key) == {id} + (FlyingFor(s, key) - {id});
  }

  /** Sections of other keys leave the key alone. */
  lemma OtherKeysTrack(s: Server, section: Section, key: string, clock: nat)
    requires Tracks(s, key, clock) && !section.Arrive?
    requires section.id in s.flights ==> s.flights[section.id].key != key
    ensures Tracks(Next(s, section), key, clock)
  {
    hide Spaced, Earlier;
    var t := Next(s, section);
    assert FlyingFor(t, key) == FlyingFor(s, key);
    assert StreakOf(t, key) == StreakOf(s, key);
    assert key in t.attempts <==> key in s.attempts;
  }

  lemma ArrivalAdds(s: Server, section: Section, key: string)
    requires section.Arrive? && section.id !in s.flights
    ensures FlyingFor(s, key) <= FlyingFor(Next(s, section), key) && section.id !in FlyingFor(s, key)
  {
    forall id | id in FlyingFor(s, key)
      ensures id in FlyingFor(Next(s, section), key)
    {
      assert Next(s, section).flights[id] == s.flights[id];
    }
  }

  lemma ArrivalTracks(s: Server, section: Section, key: string, clock: nat)
    requires Tracks(s, key, clock) && section.Arrive? && clock <= section.now
    requires |FlyingFor(Next(s, section), key)| <= 1
    ensures Tracks(Next(s, section), key, section.now)
  {
    hide Remembers, Awaits, Spaced;
    var t := Next(s, section);
    if section.id !in s.flights {
      if section.key == key {
        OnlyFlight(t, key, section.id);
        ArrivalAdds(s, section, key);
        assert FlyingFor(s, key) == {};
      } else {
        assert FlyingFor(t, key) == FlyingFor(s, key);
      }
    }
  }

  lemma OwnSectionTracks(s: Server, section: Section, key: string, clock: nat)
    requires Tracks(s, key, clock) && !section.Arrive? && |FlyingFor(s, key)| <= 1
    requires section.id in s.flights && s.flights[section.id].key == key
    ensures Tracks(Next(s, section), key, clock)
  {
    hide Remembers, Awaits, Spaced, Failed, Forgotten;
    var id, now, times := section.id, s.flights[section.id].now, StreakOf(s, key);
    OnlyFlight(s, key, id);
    var t := Next(s, section);
    assert id in FlyingFor(s, key);
    assert FlyingFor(t, key) <= {id};
    match section {
      case Check(_) =>
        if !s.flights[id].passed && !Limited(s.attempts, key, now) {
          PassedAwaits(s.attempts, key, times, now);
        }
      case Record(_) =>
        if s.flights[id].passed {
          RecordedRemembers(s.attempts, key, times, now);
          assert FlyingFor(t, key) == {};
        }
      case Clear(_) =>
        if s.flights[id].passed {
          NothingRemembered(s.attempts, key, clock);
          assert FlyingFor(t, key) == {};
        }
    }
  }

  lemma {:induction false} RunTracks(sections: seq<Section>, key: string) returns (clock: nat)
    requires ClockRuns(sections) && AtMostInFlight(sections, key, 1)
    ensures Tracks(Run(IDLE_SERVER, sections), key, clock)
    ensures forall i :: 0 <= i < |sections| && sections[i].Arrive? ==> sections[i].now <= clock
    ensures clock == 0 || exists i :: 0 <= i < |sections| && sections[i].Arrive? && sections[i].now == clock
    decreases |sections|
  {
    hide Next, Tracks;
    if sections == [] {
      clock := 0;
      IdleTracks(key);
    } else {
      var n := |sections| - 1;
      var front, last := sections[..n], sections[n];
      assert forall i :: 0 <= i <= n ==> front[..i] == sections[..i];
      assert sections[..n + 1] == sections == front + [last];
      var before := RunTracks(front, key);
      RunSnoc(IDLE_SERVER, front, last);
      clock := StepTracks(Run(IDLE_SERVER, front), last, key, before);
    }
  }

  lemma IdleTracks(key: string)
    ensures Tracks(IDLE_SERVER, key, 0)
  {
  }

  lemma StepTracks(s: Server, section: Section, key: string, clock: nat) returns (later: nat)
    requires Tracks(s, key, clock) && |FlyingFor(s, key)| <= 1 && |FlyingFor(Next(s, section), key)| <= 1
    requires section.Arrive? ==> clock <= section.now
    ensures Tracks(Next(s, section), key, later) && later == if section.Arrive? then section.now else clock
  {
    hide Next, Tracks;
    if section.Arrive? {
      later := section.now;
      ArrivalTracks(s, section, key, clock);
    } else {
      later := clock;
      if section.id in s.flights && s.flights[section.id].key == key {
        OwnSectionTracks(s, section, key, clock);
      } else {
        OtherKeysTrack(s, section, key, clock);
      }
    }
  }

  /** With at most one attempt of a key in flight the bound holds, however many of other keys there are. */
  lemma BoundedWithoutOverlap(sections: seq<Section>, key: string)
    requires ClockRuns(sections) && AtMostInFlight(sections, key, 1)
    ensures Bounded(sections, key)
  {
    hide Run, Spaced;
    var clock := RunTracks(sections, key);
    forall start: nat
      ensures CountInWindow(StreakOf(Run(IDLE_SERVER, sections), key), start) <= 5
    {
      SpacedBound(StreakOf(Run(IDLE_SERVER, sections), key), start);
    }
  }

  // ---------- several at a time ----------

  const KEY := "192.0.2.1:admin"

  function Zeros(n: nat): seq<nat> {
    seq(n, i => 0)
  }

  function Failure(id: nat, now: nat): seq<Section> {
    [Arrive(id, KEY, now), Check(id), Record(id)]
  }

  function Failures(n: nat, now: nat): seq<Section> {
    if n == 0 then [] else Failures(n - 1, now) + Failure(n - 1, now)
  }

  function Arrivals(n: nat): seq<Section> { seq(n, i requires 0 <= i < n => Arrive(i, KEY, 0)) }
  function Checks(n: nat): seq<Section> { seq(n, i requires 0 <= i < n => Check(i)) }
  function Records(n: nat): seq<Section> { seq(n, i requires 0 <= i < n => Record(i)) }

  /** Four failures one after the other, then `w` attempts that all pass the check before any records its failure. */
  function Overlap(w: nat): seq<Section> {
    Failures(4, 0) + (Arrivals(w) + (Checks(w) + Records(w)))
  }

  /** Attempts from `low` up, of which those below `passed` have passed the check. */
  function Flights(low: nat, high: nat, passed: nat): map<nat, Flight> {
    map i: nat | low <= i < high :: FlightAt(i, passed)
  }

  function FlightAt(i: nat, passed: nat): Flight {
    Flight(KEY, 0, i < passed)
  }

  /** Some failures of the key on record, none of the lock's five minutes over. */
  function Counted(n: nat, flights: map<nat, Flight>): Server {
    Server(if n == 0 then map[] else map[KEY := LoginAttempt(n, if n >= LOGIN_MAX_FAILURES then LOGIN_LOCK_SECONDS else 0)],
           flights, if n == 0 then map[] else map[KEY := Zeros(n)])
  }

  lemma OneMoreFailure(n: nat, flights: map<nat, Flight>, id: nat)
    requires n < U32_MAX && id in flights && flights[id] == Flight(KEY, 0, true)
    ensures Next(Counted(n, flights), Record(id)) == Counted(n + 1, flights - {id})
  {
    assert Zeros(n) + [0] == Zeros(n + 1);
  }

  lemma OneFailure(n: nat)
    requires n < 4
    ensures Run(Counted(n, map[]), Failure(n, 0)) == Counted(n + 1, map[])
    ensures ManyInFlight(Counted(n, map[]), Failure(n, 0), 1)
  {
    hide Next;
    var s := Counted(n, map[]);
    var flying, passed := map[n := Flight(KEY, 0, false)], map[n := Flight(KEY, 0, true)];
    FirstSections(n);
    OneMoreFailure(n, passed, n);
    assert passed - {n} == map[];
    var steps := Failure(n, 0);
    assert steps[1..] == [Check(n), Record(n)] && steps[1..][1..] == [Record(n)] && steps[1..][1..][1..] == [];
    assert Run(s, steps) == Run(s.(flights := flying), steps[1..]);
    assert Run(s.(flights := flying), steps[1..]) == Run(s.(flights := passed), steps[1..][1..]);
    assert Run(s.(flights := passed), steps[1..][1..]) == Run(Counted(n + 1, map[]), []);
    assert ManyInFlight(Counted(n + 1, map[]), [], 1);
    assert ManyInFlight(s.(flights := passed), steps[1..][1..], 1);
    assert ManyInFlight(s.(flights := flying), steps[1..], 1);
  }

  lemma FirstSections(n: nat)
    requires n < 4
    ensures var s := Counted(n, map[]);
            var flying := s.(flights := map[n := Flight(KEY, 0, false)]);
            && Next(s, Arrive(n, KEY, 0)) == flying
            && Next(flying, Check(n)) == s.(flights := map[n := Flight(KEY, 0, true)])
  {
  }

  /** No state of the run has more than `w` attempts in flight. */
  predicate ManyInFlight(s: Server, sections: seq<Section>, w: nat)
    decreases |sections|
  {
    |s.flights| <= w && (sections == [] || ManyInFlight(Next(s, sections[0]), sections[1..], w))
  }

  lemma {:induction false} ManyInFlightConcat(s: Server, a: seq<Section>, b: seq<Section>, w: nat, w': nat)
    requires ManyInFlight(s, a, w') && w' <= w && ManyInFlight(Run(s, a), b, w)
    ensures ManyInFlight(s, a + b, w)
    decreases |a|
  {
    hide Next;
    if a == [] {
      assert a + b == b;
    } else {
      assert (a + b)[1..] == a[1..] + b;
      ManyInFlightConcat(Next(s, a[0]), a[1..], b, w, w');
    }
  }

  lemma {:induction false} ManyInFlightAt(s: Server, sections: seq<Section>, w: nat, i: nat)
    requires ManyInFlight(s, sections, w) && i <= |sections|
    ensures |Run(s, sections[..i]).flights| <= w
    decreases i
  {
    hide Next;
    if i > 0 {
      assert sections[..i][0] == sections[0] && sections[..i][1..] == sections[1..][..i - 1];
      ManyInFlightAt(Next(s, sections[0]), sections[1..], w, i - 1);
    }
  }

  lemma FewFlights(sections: seq<Section>, key: string, w: nat)
    requires ManyInFlight(IDLE_SERVER, sections, w)
    ensures AtMostInFlight(sections, key, w)
  {
    hide Run, ManyInFlight;
    forall i | 0 <= i <= |sections|
      ensures |FlyingFor(Run(IDLE_SERVER, sections[..i]), key)| <= w
    {
      ManyInFlightAt(IDLE_SERVER, sections, w, i);
      FlyingAreFlights(Run(IDLE_SERVER, sections[..i]), key);
    }
  }

  lemma FlyingAreFlights(s: Server, key: string)
    ensures |FlyingFor(s, key)| <= |s.flights|
  {
    var rest := s.flights.Keys - FlyingFor(s, key);
    assert s.flights.Keys == FlyingFor(s, key) + rest;
    assert |s.flights.Keys| == |FlyingFor(s, key)| + |rest|;
  }

  lemma {:induction false} SomeFailures(n: nat)
    requires n <= 4
    ensures Run(IDLE_SERVER, Failures(n, 0)) == Counted(n, map[])
    ensures ManyInFlight(IDLE_SERVER, Failures(n, 0), 1)
  {
    hide Next, ManyInFlight;
    if n == 0 {
      NothingFlies();
    } else {
      SomeFailures(n - 1);
      OneFailure(n - 1);
      RunConcat(IDLE_SERVER, Failures(n - 1, 0), Failure(n - 1, 0));
      ManyInFlightConcat(IDLE_SERVER, Failures(n - 1, 0), Failure(n - 1, 0), 1, 1);
    }
  }

  lemma NothingFlies()
    ensures ManyInFlight(IDLE_SERVER, [], 1)
  {
  }

  lemma {:induction false} FlightsCount(low: nat, high: nat, passed: nat)
    requires low <= high
    ensures |Flights(low, high, passed)| == high - low
    decreases high - low
  {
    if low == high {
      assert Flights(low, high, passed) == map[];
    } else {
      FlightsCount(low + 1, high, passed);
      assert Flights(low, high, passed) == Flights(low + 1, high, passed)[low := Flight(KEY, 0, low < passed)];
    }
  }

  /** The last `w - k` arrivals, checks or records of an overlap, each from the state the ones before it lead to. */
  lemma {:induction false} ArrivalsRun(k: nat, w: nat)
    requires k <= w
    ensures Run(Counted(4, Flights(0, k, 0)), Arrivals(w)[k..]) == Counted(4, Flights(0, w, 0))
    ensures ManyInFlight(Counted(4, Flights(0, k, 0)), Arrivals(w)[k..], w)
    decreases w - k
  {
    FlightsCount(0, k, 0);
    if k < w {
      assert Arrivals(w)[k..][0] == Arrive(k, KEY, 0) && Arrivals(w)[k..][1..] == Arrivals(w)[k + 1..];
      assert Flights(0, k, 0)[k := Flight(KEY, 0, false)] == Flights(0, k + 1, 0);
      ArrivalsRun(k + 1, w);
    }
  }

  lemma {:induction false} ChecksRun(k: nat, w: nat)
    requires k <= w
    ensures Run(Counted(4, Flights(0, w, k)), Checks(w)[k..]) == Counted(4, Flights(0, w, w))
    ensures ManyInFlight(Counted(4, Flights(0, w, k)), Checks(w)[k..], w)
    decreases w - k
  {
    FlightsCount(0, w, k);
    if k < w {
      assert Checks(w)[k..][0] == Check(k) && Checks(w)[k..][1..] == Checks(w)[k + 1..];
      assert Flights(0, w, k)[k := Flight(KEY, 0, true)] == Flights(0, w, k + 1);
      ChecksRun(k + 1, w);
    }
  }

  lemma {:induction false} RecordsRun(k: nat, w: nat)
    requires k <= w && 4 + w <= U32_MAX
    ensures Run(Counted(4 + k, Flights(k, w, w)), Records(w)[k..]) == Counted(4 + w, map[])
    ensures ManyInFlight(Counted(4 + k, Flights(k, w, w)), Records(w)[k..], w)
    decreases w - k
  {
    hide Next, Zeros;
    FlightsCount(k, w, w);
    if k < w {
      assert Records(w)[k..][0] == Record(k) && Records(w)[k..][1..] == Records(w)[k + 1..];
      OneLessFlight(k, w);
      OneMoreFailure(4 + k, Flights(k, w, w), k);
      RecordsRun(k + 1, w);
    } else {
      assert Flights(k, w, w) == map[];
    }
  }

  lemma OneLessFlight(k: nat, w: nat)
    requires k < w
    ensures k in Flights(k, w, w) && Flights(k, w, w)[k] == Flight(KEY, 0, true)
    ensures Flights(k, w, w) - {k} == Flights(k + 1, w, w)
  {
  }

  lemma {:induction false} CountZeros(n: nat)
    ensures CountInWindow(Zeros(n), 0) == n
  {
    if n > 0 {
      assert Zeros(n)[..n - 1] == Zeros(n - 1);
      CountZeros(n - 1);
    }
  }

  lemma {:induction false} FailuresAreAtZero(n: nat)
    ensures forall i :: 0 <= i < |Failures(n, 0)| && Failures(n, 0)[i].Arrive? ==> Failures(n, 0)[i].now == 0
  {
    if n > 0 {
      FailuresAreAtZero(n - 1);
    }
  }

  /**
  For every `w` there is a run with at most `w` attempts in flight that records 4 + w failures of one key within the
  same second.
  */
  lemma OverlappingAttemptsAreNotBounded(w: nat)
    requires 1 <= w && 4 + w <= U32_MAX
    ensures ClockRuns(Overlap(w)) && AtMostInFlight(Overlap(w), KEY, w)
    ensures StreakOf(Run(IDLE_SERVER, Overlap(w)), KEY) == Zeros(4 + w)
    ensures CountInWindow(StreakOf(Run(IDLE_SERVER, Overlap(w)), KEY), 0) == 4 + w
  {
    hide Run, ManyInFlight, AtMostInFlight;
    var failures, arrivals, checks, records := Failures(4, 0), Arrivals(w), Checks(w), Records(w);
    SomeFailures(4);
    ArrivalsRun(0, w);
    ChecksRun(0, w);
    RecordsRun(0, w);
    assert arrivals[0..] == arrivals && checks[0..] == checks && records[0..] == records;
    assert Flights(0, 0, 0) == map[];
    RunConcat(IDLE_SERVER, failures, arrivals + (checks + records));
    RunConcat(Counted(4, map[]), arrivals, checks + records);
    RunConcat(Counted(4, Flights(0, w, 0)), checks, records);
    ManyInFlightConcat(Counted(4, Flights(0, w, 0)), checks, records, w, w);
    ManyInFlightConcat(Counted(4, map[]), arrivals, checks + records, w, w);
    ManyInFlightConcat(IDLE_SERVER, failures, arrivals + (checks + records), w, 1);
    FewFlights(Overlap(w), KEY, w);
    CountZeros(4 + w);
    FailuresAreAtZero(4);
  }

  /** For instance: after four failures two attempts overlap, and six fall within one second. */
  lemma TwoOverlappingAttemptsBreakTheBound()
    ensures Overlap(2)[12..] == [Arrive(0, KEY, 0), Arrive(1, KEY, 0), Check(0), Check(1), Record(0), Record(1)]
    ensures ClockRuns(Overlap(2)) && AtMostInFlight(Overlap(2), KEY, 2)
    ensures CountInWindow(StreakOf(Run(IDLE_SERVER, Overlap(2)), KEY), 0) == 6 && !Bounded(Overlap(2), KEY)
  {
    OverlapOfTwo();
    hide Run, AtMostInFlight, Overlap, ClockRuns, CountInWindow, StreakOf;
    OverlappingAttemptsAreNotBounded(2);
  }

  lemma OverlapOfTwo()
    ensures Overlap(2)[12..] == [Arrive(0, KEY, 0), Arrive(1, KEY, 0), Check(0), Check(1), Record(0), Record(1)]
  {
    hide Run, AtMostInFlight, ClockRuns;
    assert |Failures(4, 0)| == 12;
  }

  lemma {:induction false} FewerInFlight(sections: seq<Section>, key: string, w: nat, w': nat)
    requires AtMostInFlight(sections, key, w) && w <= w'
    ensures AtMostInFlight(sections, key, w')
  {
    hide Run;
  }

  /** Every run with at most `w` attempts of a key in flight is bounded, if and only if `w` is at most one. */
  lemma BoundHoldsExactlyWithoutOverlap(w: nat)
    ensures (forall sections, key :: ClockRuns(sections) && AtMostInFlight(sections, key, w) ==> Bounded(sections, key))
            <==> w <= 1
  {
    hide Run, AtMostInFlight, ClockRuns, Bounded;
    if w <= 1 {
      forall sections, key | ClockRuns(sections) && AtMostInFlight(sections, key, w)
        ensures Bounded(sections, key)
      {
        FewerInFlight(sections, key, w, 1);
        BoundedWithoutOverlap(sections, key);
      }
    } else {
      TwoOverlappingAttemptsBreakTheBound();
      FewerInFlight(Overlap(2), KEY, 2, w);
      assert !Bounded(Overlap(2), KEY);
    }
  }

  // ---------- a slow attempt ----------

  /** A failure is recorded at the time its attempt read, so it moves a lock back exactly if that is long ago. */
  lemma RecordMovesLockBackExactlyWhen(s: Server, id: nat)
    requires HasPassed(s, id) && s.flights[id].key in s.attempts
    ensures var key, now := s.flights[id].key, s.flights[id].now;
            var before, after := s.attempts[key], Next(s, Record(id)).attempts[key];
            after.lockedUntil < before.lockedUntil <==>
              before.failures + 1 >= 5 && now + 300 < before.lockedUntil
  {
  }

  /** It takes two attempts in flight: alone, an attempt that has passed the check finds no lock. */
  lemma AloneNothingIsLocked(sections: seq<Section>, key: string, id: nat)
    requires ClockRuns(sections) && AtMostInFlight(sections, key, 1)
    requires var s := Run(IDLE_SERVER, sections); HasPassed(s, id) && s.flights[id].key == key
    ensures var s := Run(IDLE_SERVER, sections); key in s.attempts ==> s.attempts[key].lockedUntil == 0
  {
    hide Run, Spaced, AtMostInFlight;
    var clock := RunTracks(sections, key);
    assert id in FlyingFor(Run(IDLE_SERVER, sections), key);
  }
}
