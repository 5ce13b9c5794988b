/** What whole runs of administrator operations keep: well-formed settings, session versions, one-use tokens. */
module AdminRuns {
  import opened Wrappers
  import opened Text
  import opened Settings
  import opened AdminNormalize
  import opened AdminReplace
  import opened AdminStore

  datatype Op =
    | Replace(next: AdminData, checks: Checks)
    | Purge(hosts: seq<string>)
    | ClearMarker(name: string)
    | EnsureDefault(password: string)
    | CreateToken(gid: string, uid: string, token: string)
    | ConsumeToken(base: map<string, HostGroup>, token: string, uid: string)
    | UpdateCredentials(change: Change, hashes: bool)
    | Restart

  /** An operation at a time; `written` says whether its write of the settings file succeeds. */
  datatype Event = Event(now: nat, op: Op, written: bool)

  /** The settings an operation writes, if it gets as far as writing. */
  function Proposed(d: AdminData, now: nat, op: Op): Option<AdminData> {
    match op
    case Replace(next, checks) =>
      var prepared := Prepare(next, d, now, checks);
      if prepared.Ok? then Some(prepared.value) else None
    case Purge(hosts) => if PurgeSet(hosts) == {} then None else Some(Purged(d, PurgeSet(hosts), now))
    case ClearMarker(name) => MarkerCleared(d, name)
    case EnsureDefault(password) => Some(WithDefaultKey(d, password, now))
    case CreateToken(gid, uid, token) => Some(WithToken(d, gid, uid, token, now))
    case ConsumeToken(base, token, uid) =>
      var consumed := Consumed(d, base, token, uid, now);
      if consumed.Some? then Some(consumed.value.0) else None
    case UpdateCredentials(change, hashes) =>
      var updated := CredentialsUpdated(d, change, hashes, now);
      if updated.Ok? then Some(updated.value) else None
    case Restart => None
  }

  function After(s: Store, e: Event): Store {
    if e.op.Restart? then s.(data := Loaded(s.file, e.now))
    else
      match Proposed(s.data, e.now, e.op)
      case None => s
      case Some(d) => s.Write(d, e.written)
  }

  function Run(s: Store, es: seq<Event>): Store
    decreases |es|
  {
    if es == [] then s else Run(After(s, es[0]), es[1..])
  }

  /** The clock does not run backwards. */
  predicate Timed(es: seq<Event>, start: nat) {
    (forall i :: 0 <= i < |es| ==> start <= es[i].now) && forall i, j :: 0 <= i < j < |es| ==> es[i].now <= es[j].now
  }

  // ---------- well-formed settings ----------

  predicate Sound(s: Store) {
    WellFormed(s.data) && Keyed(s.data.installTokens) && Keyed(s.file.installTokens)
  }

  lemma NormalizeIsSound(d: AdminData, now: nat)
    requires Keyed(d.installTokens)
    ensures WellFormed(Normalize(d, now)) && Keyed(Normalize(d, now).installTokens)
  {
    NormalizeIsWellFormed(d, now);
  }

  lemma ProposedIsSound(d: AdminData, now: nat, op: Op)
    requires WellFormed(d) && Keyed(d.installTokens) && Proposed(d, now, op).Some?
    ensures WellFormed(Proposed(d, now, op).value) && Keyed(Proposed(d, now, op).value.installTokens)
  {
    hide Prepare, WellFormed, Normalize, CredentialsApplied, EffectiveGroup, PurgeSet;
    match op
    case Replace(next, checks) => ReplacedIsWellFormed(next, d, now, checks);
    case Purge(hosts) => NormalizeIsSound(WithoutHosts(d, PurgeSet(hosts)), now);
    case ClearMarker(name) => MarkerClearedIsWellFormed(d, name);
    case EnsureDefault(password) =>
      NormalizeIsSound(d, now);
      DefaultKeyIsWellFormed(d, password, now);
    case CreateToken(gid, uid, token) =>
      TokensKeepWellFormed(d, WithToken(d, gid, uid, token, now).installTokens, d.sessionVersion);
    case ConsumeToken(base, token, uid) =>
      var consumed := Consumed(d, base, token, uid, now).value.0;
      TokensKeepWellFormed(d, consumed.installTokens, d.sessionVersion);
    case UpdateCredentials(change, hashes) =>
      CredentialsChangeOnlyThemselves(d, change, hashes);
      UpdatedIsWellFormed(CredentialsApplied(d, change, hashes).value, now);
    case Restart =>
  }

  lemma AfterIsSound(s: Store, e: Event)
    requires Sound(s)
    ensures Sound(After(s, e))
  {
    if e.op.Restart? {
      LoadedIsWellFormed(s.file, e.now);
    } else if Proposed(s.data, e.now, e.op).Some? {
      ProposedIsSound(s.data, e.now, e.op);
    }
  }

  /** Every operation, and every restart, keeps the settings well formed. */
  lemma {:induction false} RunKeepsSettingsWellFormed(s: Store, es: seq<Event>)
    requires Sound(s)
    ensures Sound(Run(s, es))
    decreases |es|
  {
    if es != [] {
      AfterIsSound(s, es[0]);
      RunKeepsSettingsWellFormed(After(s, es[0]), es[1..]);
    }
  }

  // ---------- session versions ----------

  /** A credential update that is accepted and written. */
  predicate Updates(s: Store, e: Event) {
    e.op.UpdateCredentials? && e.written && Proposed(s.data, e.now, e.op).Some?
  }

  function CountUpdates(s: Store, es: seq<Event>): nat
    decreases |es|
  {
    if es == [] then 0 else (if Updates(s, es[0]) then 1 else 0) + CountUpdates(After(s, es[0]), es[1..])
  }

  function Saturated(n: nat): nat {
    if n < U64_MAX then n else U64_MAX
  }

  lemma NormalizeKeeps(d: AdminData, now: nat)
    ensures var n := Normalize(d, now);
            && n.passwordHash == d.passwordHash && n.sessionVersion == d.sessionVersion
            && n.installTokens == UsableTokens(d.installTokens, now)
  {
  }

  lemma ProposedVersion(d: AdminData, now: nat, op: Op)
    requires Proposed(d, now, op).Some?
    ensures Proposed(d, now, op).value.sessionVersion ==
            if op.UpdateCredentials? then Bumped(d.sessionVersion) else d.sessionVersion
  {
    hide Normalize, Prepare, CredentialsApplied, EffectiveGroup, PurgeSet;
    match op
    case Replace(next, checks) =>
      PreparedIs(next, d, now, checks);
      NormalizeKeeps(MergeSensitive(WithTrimmedIdentities(next), d), now);
    case Purge(hosts) => NormalizeKeeps(WithoutHosts(d, PurgeSet(hosts)), now);
    case EnsureDefault(_) => NormalizeKeeps(d, now);
    case UpdateCredentials(change, hashes) =>
      CredentialsChangeOnlyThemselves(d, change, hashes);
      NormalizeKeeps(CredentialsApplied(d, change, hashes).value, now);
    case _ =>
  }

  lemma AfterVersion(s: Store, e: Event)
    requires s.data.sessionVersion == s.file.sessionVersion <= U64_MAX
    ensures After(s, e).data.sessionVersion == After(s, e).file.sessionVersion
    ensures After(s, e).data.sessionVersion == if Updates(s, e) then Bumped(s.data.sessionVersion) else s.data.sessionVersion
  {
    hide Proposed;
    if !e.op.Restart? && Proposed(s.data, e.now, e.op).Some? {
      ProposedVersion(s.data, e.now, e.op);
    }
  }

  /** The session version counts the credential updates, up to the largest 64-bit number. */
  lemma {:induction false} SessionVersionCountsUpdates(s: Store, es: seq<Event>)
    requires s.data.sessionVersion == s.file.sessionVersion <= U64_MAX
    ensures Run(s, es).data.sessionVersion == Saturated(s.data.sessionVersion + CountUpdates(s, es))
    decreases |es|
  {
    hide After, Updates;
    if es != [] {
      AfterVersion(s, es[0]);
      SessionVersionCountsUpdates(After(s, es[0]), es[1..]);
    }
  }

  lemma {:induction false} RunSplits(s: Store, es: seq<Event>, i: nat)
    requires i <= |es|
    ensures Run(s, es) == Run(Run(s, es[..i]), es[i..])
    ensures CountUpdates(s, es) == CountUpdates(s, es[..i]) + CountUpdates(Run(s, es[..i]), es[i..])
    decreases i
  {
    hide After, Updates;
    if i == 0 {
      assert es[..0] == [] && es[0..] == es;
    } else {
      assert es[..i][0] == es[0] && es[..i][1..] == es[1..][..i - 1] && es[1..][i - 1..] == es[i..];
      RunSplits(After(s, es[0]), es[1..], i - 1);
    }
  }

  lemma RunSteps(s: Store, es: seq<Event>, i: nat)
    requires i < |es|
    ensures Run(s, es[..i + 1]) == After(Run(s, es[..i]), es[i])
    ensures CountUpdates(s, es[..i + 1]) == CountUpdates(s, es[..i]) + if Updates(Run(s, es[..i]), es[i]) then 1 else 0
  {
    hide After, Updates;
    var front := es[..i + 1];
    RunSplits(s, front, i);
    assert front[..i] == es[..i] && front[i..] == [es[i]] && [es[i]][1..] == [];
    var mid := Run(s, es[..i]);
    assert Run(mid, [es[i]]) == Run(After(mid, es[i]), []);
    assert CountUpdates(After(mid, es[i]), []) == 0;
  }

  /** A session opened with the current version; the server accepts it while the version is the same. */
  predicate SessionAccepted(version: nat, d: AdminData) {
    version == d.sessionVersion
  }

  /**
  A credential update ends every session opened before it, for good, exactly when the version has not
  reached its limit.
  */
  lemma UpdateEndsEarlierSessions(s: Store, es: seq<Event>, i: nat)
    requires s.data.sessionVersion == s.file.sessionVersion <= U64_MAX
    requires i < |es| && Updates(Run(s, es[..i]), es[i])
    ensures var version := Run(s, es[..i]).data.sessionVersion;
            version < U64_MAX <==> !SessionAccepted(version, Run(s, es).data)
  {
    hide After, Updates, Run, CountUpdates;
    SessionVersionCountsUpdates(s, es[..i]);
    SessionVersionCountsUpdates(s, es);
    RunSteps(s, es, i);
    RunSplits(s, es, i + 1);
  }

  lemma AppliedPassword(d: AdminData, c: Change, hashes: bool)
    requires CredentialsApplied(d, c, hashes).Ok? && c.NextPassword().Some?
    ensures CredentialsApplied(d, c, hashes).value.passwordHash == Some(HashOf(c.NextPassword().value))
    ensures c.NextPassword().value != ""
  {
  }

  /** After a password change that password, and no other, is accepted. */
  lemma NewPasswordIsTheOnlyOne(s: Store, e: Event, base: Option<string>, password: string)
    requires Updates(s, e) && e.op.change.NextPassword().Some?
    ensures PasswordMatches(After(s, e).data, base, password) <==> password == e.op.change.NextPassword().value
  {
    hide CredentialsApplied, Normalize;
    AppliedPassword(s.data, e.op.change, e.op.hashes);
    NormalizeKeeps(CredentialsApplied(s.data, e.op.change, e.op.hashes).value, e.now);
  }

  /** After an update the user, the entry path and the password are the ones asked for, and those not named stay. */
  lemma CredentialsTakeEffect(s: Store, e: Event)
    requires Updates(s, e)
    ensures var c, data := e.op.change, After(s, e).data;
            && CurrentUser(data, c.baseUser) == c.NextUser(s.data)
            && data.adminPath == c.NextPath(s.data) && !PathError(data.adminPath)
            && (c.NextPassword().None? ==> data.passwordHash == s.data.passwordHash)
  {
    hide PathError, ValidUsername, PasswordMatches, PasswordError, NormalizePath, Normalize, Trim;
    var c := e.op.change;
    var applied := CredentialsApplied(s.data, c, e.op.hashes).value;
    var path := if c.path.Some? then c.path.value else s.data.adminPath;
    NormalizedPathIsTrimmed(path);
    ValidPathIsNormal(NormalizePath(path));
    NormalizeKeeps(applied, e.now);
    NormalizedCredentials(applied, e.now);
    UserIsTrimmed(s.data, c);
    assert After(s, e).data == NewSession(applied, e.now);
  }

  lemma NormalizedCredentials(d: AdminData, now: nat)
    ensures Normalize(d, now).adminPath == NormalizePath(d.adminPath) && Normalize(d, now).adminUser == TrimOption(d.adminUser)
  {
  }

  lemma UserIsTrimmed(d: AdminData, c: Change)
    ensures Trim(c.NextUser(d)) == c.NextUser(d) != "" && Trim(CurrentUser(d, c.baseUser)) == CurrentUser(d, c.baseUser) != ""
    ensures d.adminUser.Some? ==> Trim(Trim(d.adminUser.value)) == Trim(d.adminUser.value)
  {
    hide Trim;
    TrimFixed("admin");
    if d.adminUser.Some? {
      TrimIdempotent(d.adminUser.value);
    }
    if c.baseUser.Some? {
      TrimIdempotent(c.baseUser.value);
    }
    if c.user.Some? {
      TrimIdempotent(c.user.value);
    }
  }

  /** Without the current password nothing changes. */
  lemma WrongPasswordChangesNothing(s: Store, e: Event)
    requires e.op.UpdateCredentials? && !PasswordMatches(s.data, e.op.change.basePassword, e.op.change.current)
    ensures After(s, e) == s
  {
  }

  // ---------- install tokens ----------

  predicate Issues(e: Event) {
    e.op.CreateToken? && e.written
  }

  predicate Consumes(s: Store, e: Event) {
    e.op.ConsumeToken? && e.written && Consumed(s.data, e.op.base, e.op.token, e.op.uid, e.now).Some?
  }

  /** The reference: tokens issued and not used yet, whatever the settings have been through. */
  type Ledger = map<Digest, InstallToken>

  function Noted(l: Ledger, s: Store, e: Event): Ledger {
    if Issues(e) then l[TokenHash(e.op.token) := Issued(e.op.gid, e.op.uid, e.op.token, e.now)]
    else if Consumes(s, e) then l - {TokenHash(e.op.token)}
    else l
  }

  function Outstanding(l: Ledger, s: Store, es: seq<Event>): Ledger
    decreases |es|
  {
    if es == [] then l else Outstanding(Noted(l, s, es[0]), After(s, es[0]), es[1..])
  }

  /** Memory and file hold the outstanding tokens that can still be used. */
  predicate Agrees(l: Ledger, s: Store, now: nat) {
    UsableTokens(s.data.installTokens, now) == UsableTokens(l, now) == UsableTokens(s.file.installTokens, now)
  }

  lemma UsableLater(m: map<Digest, InstallToken>, n: map<Digest, InstallToken>, now: nat, later: nat)
    requires UsableTokens(m, now) == UsableTokens(n, now) && now <= later
    ensures UsableTokens(m, later) == UsableTokens(n, later)
    ensures UsableTokens(UsableTokens(m, now), later) == UsableTokens(n, later)
    ensures UsableTokens(LiveTokens(m, now), later) == UsableTokens(n, later)
  {
    hide Blank;
    assert UsableTokens(m, later) == UsableTokens(UsableTokens(m, now), later);
    assert UsableTokens(n, later) == UsableTokens(UsableTokens(n, now), later);
    assert UsableTokens(LiveTokens(m, now), later) == UsableTokens(UsableTokens(m, now), later);
  }

  lemma UsableOfLive(m: map<Digest, InstallToken>, now: nat)
    ensures UsableTokens(LiveTokens(m, now), now) == UsableTokens(m, now)
  {
    hide Blank;
  }

  lemma UsableInsert(m: map<Digest, InstallToken>, now: nat, hash: Digest, item: InstallToken)
    ensures UsableTokens(m[hash := item], now) == (UsableTokens(m, now) - {hash}) + UsableTokens(map[hash := item], now)
  {
    hide Blank, LiveToken;
  }

  lemma UsableAfterIssue(m: map<Digest, InstallToken>, l: Ledger, now: nat, hash: Digest, item: InstallToken)
    requires UsableTokens(m, now) == UsableTokens(l, now)
    ensures UsableTokens(LiveTokens(m, now)[hash := item], now) == UsableTokens(l[hash := item], now)
  {
    hide UsableTokens, LiveTokens;
    UsableOfLive(m, now);
    UsableInsert(LiveTokens(m, now), now, hash, item);
    UsableInsert(l, now, hash, item);
  }

  lemma UsableAfterUse(m: map<Digest, InstallToken>, l: Ledger, now: nat, hash: Digest)
    requires UsableTokens(m, now) == UsableTokens(l, now)
    ensures UsableTokens(LiveTokens(m, now) - {hash}, now) == UsableTokens(l - {hash}, now)
  {
    hide Blank, LiveToken;
    assert UsableTokens(LiveTokens(m, now) - {hash}, now) == UsableTokens(m, now) - {hash};
    assert UsableTokens(l - {hash}, now) == UsableTokens(l, now) - {hash};
  }

  lemma NormalizedTokens(d: AdminData, now: nat)
    ensures UsableTokens(Normalize(d, now).installTokens, now) == UsableTokens(d.installTokens, now)
  {
    hide UsableTokens, Normalize;
    NormalizeKeeps(d, now);
    UsableLater(d.installTokens, d.installTokens, now, now);
  }

  lemma ReplacedTokens(next: AdminData, d: AdminData, now: nat, checks: Checks)
    requires Prepare(next, d, now, checks).Ok?
    ensures UsableTokens(Prepare(next, d, now, checks).value.installTokens, now) == UsableTokens(d.installTokens, now)
  {
    hide UsableTokens, Normalize, Prepare;
    PreparedIs(next, d, now, checks);
    NormalizedTokens(MergeSensitive(WithTrimmedIdentities(next), d), now);
  }

  lemma UpdatedTokens(d: AdminData, c: Change, hashes: bool, now: nat)
    requires CredentialsUpdated(d, c, hashes, now).Ok?
    ensures UsableTokens(CredentialsUpdated(d, c, hashes, now).value.installTokens, now) == UsableTokens(d.installTokens, now)
  {
    hide UsableTokens, Normalize, CredentialsApplied;
    CredentialsChangeOnlyThemselves(d, c, hashes);
    NormalizedTokens(CredentialsApplied(d, c, hashes).value, now);
  }

  /** No operation but issuing and using changes which tokens can be used. */
  lemma ProposedTokens(d: AdminData, now: nat, op: Op)
    requires Proposed(d, now, op).Some? && !op.CreateToken? && !op.ConsumeToken?
    ensures UsableTokens(Proposed(d, now, op).value.installTokens, now) == UsableTokens(d.installTokens, now)
  {
    hide Normalize, Prepare, CredentialsUpdated, PurgeSet, UsableTokens, Consumed, WithToken, NotIn;
    match op
    case Replace(next, checks) => ReplacedTokens(next, d, now, checks);
    case Purge(hosts) => NormalizedTokens(WithoutHosts(d, PurgeSet(hosts)), now);
    case EnsureDefault(_) => NormalizedTokens(d, now);
    case UpdateCredentials(change, hashes) => UpdatedTokens(d, change, hashes, now);
    case _ =>
  }

  lemma LoadedTokens(file: AdminData, now: nat)
    ensures UsableTokens(Loaded(file, now).installTokens, now) == UsableTokens(file.installTokens, now)
  {
    UsableLater(file.installTokens, file.installTokens, now, now);
  }

  lemma IssueAgrees(l: Ledger, d: AdminData, now: nat, op: Op)
    requires op.CreateToken? && UsableTokens(d.installTokens, now) == UsableTokens(l, now)
    ensures Proposed(d, now, op).Some?
    ensures UsableTokens(Proposed(d, now, op).value.installTokens, now) ==
            UsableTokens(l[TokenHash(op.token) := Issued(op.gid, op.uid, op.token, now)], now)
  {
    UsableAfterIssue(d.installTokens, l, now, TokenHash(op.token), Issued(op.gid, op.uid, op.token, now));
  }

  lemma UseAgrees(l: Ledger, d: AdminData, now: nat, op: Op)
    requires op.ConsumeToken? && UsableTokens(d.installTokens, now) == UsableTokens(l, now)
    ensures Proposed(d, now, op).Some? <==> Consumed(d, op.base, op.token, op.uid, now).Some?
    ensures Proposed(d, now, op).Some? ==>
              UsableTokens(Proposed(d, now, op).value.installTokens, now) == UsableTokens(l - {TokenHash(op.token)}, now)
  {
    UsableAfterUse(d.installTokens, l, now, TokenHash(op.token));
  }

  lemma AfterAgrees(l: Ledger, s: Store, e: Event, now: nat)
    requires Agrees(l, s, now) && now <= e.now
    ensures Agrees(Noted(l, s, e), After(s, e), e.now)
  {
    hide Proposed, Consumed, Issued, UsableTokens, Loaded;
    UsableLater(s.data.installTokens, l, now, e.now);
    UsableLater(s.file.installTokens, l, now, e.now);
    if e.op.Restart? {
      LoadedTokens(s.file, e.now);
    } else if e.op.CreateToken? {
      IssueAgrees(l, s.data, e.now, e.op);
    } else if e.op.ConsumeToken? {
      UseAgrees(l, s.data, e.now, e.op);
    } else if Proposed(s.data, e.now, e.op).Some? {
      ProposedTokens(s.data, e.now, e.op);
    }
  }

  lemma {:induction false} RunAgrees(l: Ledger, s: Store, es: seq<Event>, start: nat) returns (now: nat)
    requires Agrees(l, s, start) && Timed(es, start)
    ensures Agrees(Outstanding(l, s, es), Run(s, es), now)
    ensures now == if es == [] then start else es[|es| - 1].now
    decreases |es|
  {
    hide After, Noted, UsableTokens;
    if es == [] {
      now := start;
    } else {
      AfterAgrees(l, s, es[0], start);
      now := RunAgrees(Noted(l, s, es[0]), After(s, es[0]), es[1..], es[0].now);
    }
  }

  /** The conditions on which a token is accepted, in terms of the outstanding tokens alone. */
  predicate Acceptable(l: Ledger, d: AdminData, e: Event)
    requires e.op.ConsumeToken?
  {
    var hash := TokenHash(e.op.token);
    && Trim(e.op.token) != "" && Trim(e.op.uid) != ""
    && hash in l && l[hash].uid == Trim(e.op.uid) && e.now <= l[hash].expiresAt
    && EffectiveGroup(d, e.op.base, l[hash].gid).Some?
  }

  lemma GroupHasName(d: AdminData, base: map<string, HostGroup>, gid: string)
    requires WellFormed(d)
    ensures EffectiveGroup(d, base, gid).Some? ==> !Blank(gid)
  {
  }

  lemma AcceptedWhenOutstanding(l: Ledger, s: Store, e: Event, now: nat)
    requires Agrees(l, s, now) && now <= e.now && Sound(s) && Keyed(l) && e.op.ConsumeToken?
    ensures Consumes(s, e) <==> e.written && Acceptable(l, s.data, e)
  {
    hide EffectiveGroup, WellFormed, Trim;
    UsableLater(s.data.installTokens, l, now, e.now);
    var hash := TokenHash(e.op.token);
    TrimIdempotent(e.op.uid);
    var stored := s.data.installTokens;
    if hash in l {
      GroupHasName(s.data, e.op.base, l[hash].gid);
    }
    if hash in stored {
      GroupHasName(s.data, e.op.base, stored[hash].gid);
    }
    assert hash in UsableTokens(stored, e.now) <==> hash in UsableTokens(l, e.now);
    assert hash in UsableTokens(l, e.now) ==> UsableTokens(stored, e.now)[hash] == UsableTokens(l, e.now)[hash];
  }

  lemma {:induction false} OutstandingKeyed(l: Ledger, s: Store, es: seq<Event>)
    requires Keyed(l)
    ensures Keyed(Outstanding(l, s, es))
    decreases |es|
  {
    if es != [] {
      OutstandingKeyed(Noted(l, s, es[0]), After(s, es[0]), es[1..]);
    }
  }

  /** A start at which memory, file and ledger hold the same tokens. */
  predicate Started(l: Ledger, s: Store, start: nat) {
    Sound(s) && Keyed(l) && Agrees(l, s, start)
  }

  /**
  A token is accepted exactly when it is outstanding, unexpired, presented by its own uid and for a group that
  exists: no replacement, purge, restart or failed write loses a token or brings one back.
  */
  lemma TokenAcceptedExactlyWhenOutstanding(l: Ledger, s: Store, es: seq<Event>, start: nat, i: nat)
    requires Started(l, s, start) && Timed(es, start) && i < |es| && es[i].op.ConsumeToken?
    ensures var before := es[..i];
            Consumes(Run(s, before), es[i]) <==>
              es[i].written && Acceptable(Outstanding(l, s, before), Run(s, before).data, es[i])
  {
    hide After, Noted, UsableTokens, Consumes, Acceptable;
    var before := es[..i];
    assert forall j :: 0 <= j < i ==> before[j] == es[j];
    var now := RunAgrees(l, s, before, start);
    RunKeepsSettingsWellFormed(s, before);
    OutstandingKeyed(l, s, before);
    AcceptedWhenOutstanding(Outstanding(l, s, before), Run(s, before), es[i], now);
  }

  lemma {:induction false} OutstandingSteps(l: Ledger, s: Store, es: seq<Event>, i: nat)
    requires i < |es|
    ensures Outstanding(l, s, es[..i + 1]) == Noted(Outstanding(l, s, es[..i]), Run(s, es[..i]), es[i])
    decreases i
  {
    hide After, Noted;
    var front := es[..i + 1];
    assert front[0] == es[0];
    if i == 0 {
      assert front[1..] == [] && es[..0] == [];
      assert Outstanding(Noted(l, s, es[0]), After(s, es[0]), []) == Noted(l, s, es[0]);
    } else {
      assert front[1..] == es[1..][..i] && es[..i][0] == es[0] && es[..i][1..] == es[1..][..i - 1];
      OutstandingSteps(Noted(l, s, es[0]), After(s, es[0]), es[1..], i - 1);
    }
  }

  /** Where an outstanding token comes from: the start, or an issue with nothing of its hash in between. */
  lemma {:induction false} OutstandingWasIssued(l: Ledger, s: Store, es: seq<Event>, j: nat, hash: Digest)
    requires j <= |es| && hash in Outstanding(l, s, es[..j])
    ensures || (hash in l && l[hash] == Outstanding(l, s, es[..j])[hash])
            || (exists i | 0 <= i < j ::
                  && Issues(es[i]) && TokenHash(es[i].op.token) == hash
                  && Outstanding(l, s, es[..j])[hash] == Issued(es[i].op.gid, es[i].op.uid, es[i].op.token, es[i].now))
    decreases j
  {
    hide After, Consumes, Issued;
    if j == 0 {
      assert es[..0] == [];
    } else {
      OutstandingSteps(l, s, es, j - 1);
      if !(Issues(es[j - 1]) && TokenHash(es[j - 1].op.token) == hash) {
        OutstandingWasIssued(l, s, es, j - 1, hash);
      }
    }
  }

  /** An accepted token was issued earlier, to the same uid, at most the time to live before. */
  lemma AcceptedTokenWasIssued(l: Ledger, s: Store, es: seq<Event>, start: nat, j: nat)
    requires Started(l, s, start) && Timed(es, start) && j < |es|
    requires Consumes(Run(s, es[..j]), es[j]) && TokenHash(es[j].op.token) !in l
    ensures exists i | 0 <= i < j ::
              && Issues(es[i]) && TokenHash(es[i].op.token) == TokenHash(es[j].op.token)
              && Trim(es[i].op.uid) == Trim(es[j].op.uid)
              && es[j].now <= es[i].now + INSTALL_TOKEN_TTL_SECONDS
  {
    hide Run, Consumed, Outstanding, UsableTokens, WellFormed;
    TokenAcceptedExactlyWhenOutstanding(l, s, es, start, j);
    OutstandingWasIssued(l, s, es, j, TokenHash(es[j].op.token));
  }

  lemma {:induction false} GoneUntilIssued(l: Ledger, s: Store, es: seq<Event>, i: nat, j: nat, hash: Digest)
    requires i <= j <= |es| && hash !in Outstanding(l, s, es[..i])
    requires forall k :: i <= k < j && Issues(es[k]) ==> TokenHash(es[k].op.token) != hash
    ensures hash !in Outstanding(l, s, es[..j])
    decreases j
  {
    hide Run, Consumed, Issued, Outstanding;
    if i < j {
      GoneUntilIssued(l, s, es, i, j - 1, hash);
      OutstandingSteps(l, s, es, j - 1);
    }
  }

  lemma {:induction false} StaysOutstanding(l: Ledger, s: Store, es: seq<Event>, i: nat, j: nat, hash: Digest)
    requires i <= j <= |es| && hash in Outstanding(l, s, es[..i])
    requires forall k :: i <= k < j && Issues(es[k]) ==> TokenHash(es[k].op.token) != hash
    requires forall k :: i <= k < j && Consumes(Run(s, es[..k]), es[k]) ==> TokenHash(es[k].op.token) != hash
    ensures hash in Outstanding(l, s, es[..j]) && Outstanding(l, s, es[..j])[hash] == Outstanding(l, s, es[..i])[hash]
    decreases j
  {
    hide Run, Consumed, Issued, Outstanding;
    if i < j {
      StaysOutstanding(l, s, es, i, j - 1, hash);
      OutstandingSteps(l, s, es, j - 1);
    }
  }

  /** Whatever happens in between, an issued token not used yet is accepted from its uid in time, if its group exists. */
  lemma IssuedTokenIsAccepted(l: Ledger, s: Store, es: seq<Event>, start: nat, i: nat, j: nat)
    requires Started(l, s, start) && Timed(es, start) && i < j < |es|
    requires Issues(es[i]) && es[j].op.ConsumeToken? && es[j].written
    requires Trim(es[j].op.token) == Trim(es[i].op.token) != "" && Trim(es[j].op.uid) == Trim(es[i].op.uid) != ""
    requires es[j].now <= es[i].now + INSTALL_TOKEN_TTL_SECONDS
    requires EffectiveGroup(Run(s, es[..j]).data, es[j].op.base, Trim(es[i].op.gid)).Some?
    requires forall k :: i < k < j && Issues(es[k]) ==> TokenHash(es[k].op.token) != TokenHash(es[i].op.token)
    requires forall k :: i < k < j && Consumes(Run(s, es[..k]), es[k]) ==> TokenHash(es[k].op.token) != TokenHash(es[i].op.token)
    ensures Consumes(Run(s, es[..j]), es[j])
  {
    hide Run, Consumed, Outstanding, UsableTokens, WellFormed, EffectiveGroup;
    var hash := TokenHash(es[i].op.token);
    OutstandingSteps(l, s, es, i);
    StaysOutstanding(l, s, es, i + 1, j, hash);
    TokenAcceptedExactlyWhenOutstanding(l, s, es, start, j);
  }

  /** A token is accepted at most once: between two acceptances it must have been issued anew. */
  lemma TokenAcceptedAtMostOnce(l: Ledger, s: Store, es: seq<Event>, start: nat, i: nat, j: nat)
    requires Started(l, s, start) && Timed(es, start) && i < j < |es|
    requires Consumes(Run(s, es[..i]), es[i]) && Consumes(Run(s, es[..j]), es[j])
    requires TokenHash(es[i].op.token) == TokenHash(es[j].op.token)
    ensures exists k | i < k < j :: Issues(es[k]) && TokenHash(es[k].op.token) == TokenHash(es[j].op.token)
  {
    hide Run, Consumed, Issued, Outstanding, UsableTokens, WellFormed, EffectiveGroup;
    var hash := TokenHash(es[j].op.token);
    OutstandingSteps(l, s, es, i);
    TokenAcceptedExactlyWhenOutstanding(l, s, es, start, j);
    if forall k :: i < k < j && Issues(es[k]) ==> TokenHash(es[k].op.token) != hash {
      GoneUntilIssued(l, s, es, i + 1, j, hash);
    }
  }

  /** A server that starts on an empty settings file is such a start, with nothing outstanding. */
  lemma FreshServerIsStarted(now: nat)
    ensures Started(map[], Store(Loaded(EMPTY_DATA, now), EMPTY_DATA), now)
  {
    hide Normalize, PathError, WellFormed;
    LoadedIsWellFormed(EMPTY_DATA, now);
    NormalizeKeeps(EMPTY_DATA, now);
  }

  // ---------- purges, markers and the default key ----------

  /** A report clears the marker of its host, and no other, exactly when there is one. */
  lemma MarkerClearedExactlyWhenMarked(d: AdminData, name: string)
    requires WellFormed(d)
    ensures MarkerCleared(d, name).Some? <==> Trim(name) in d.deletedHosts
    ensures MarkerCleared(d, name).Some? ==>
              && Names(MarkerCleared(d, name).value.deletedHosts) == Names(d.deletedHosts) - {Trim(name)}
              && MarkerCleared(d, name).value.(deletedHosts := d.deletedHosts) == d
  {
    hide Trim;
    var kept := NotIn({Trim(name)}, d.deletedHosts);
    if Trim(name) in d.deletedHosts {
      assert |kept| == |d.deletedHosts| ==> kept == d.deletedHosts;
    }
  }

  /** A purge takes the named hosts out of the settled settings and, but for expired tokens, nothing else. */
  lemma PurgeRemovesExactlyTheHosts(d: AdminData, hosts: seq<string>, read: nat, now: nat)
    requires Normalize(d, read) == d
    ensures Purged(d, PurgeSet(hosts), now) ==
            WithoutHosts(d, PurgeSet(hosts)).(installTokens := UsableTokens(d.installTokens, now))
  {
    var names := PurgeSet(hosts);
    var kept := NotIn(names, d.deletedHosts);
    SettledNames(d.deletedHosts, names);
    assert Names(kept) <= Names(d.deletedHosts);
    SettledHosts(d.hosts, Names(d.deletedHosts), Names(kept), names);
    SettledGroups(d.serverGroups, Names(d.deletedHosts));
    SettledGroupsWithout(d.serverGroups, names);
    AvoidedGroups(d.serverGroups, Names(d.deletedHosts), names);
    SettledRules(d.alertRules, Names(d.deletedHosts));
    SettledRulesWithout(d.alertRules, names);
    AvoidedRules(d.alertRules, Names(d.deletedHosts), names);
  }

  lemma NormalizedKeys(d: AdminData, now: nat)
    ensures var n := Normalize(d, now);
            && Ascending(n.deletedAccessKeys) && AllTrimmed(n.deletedAccessKeys)
            && forall gid :: gid in n.accessKeys ==> Trim(n.accessKeys[gid].password) == n.accessKeys[gid].password
  {
    hide Trim, Blank;
    NormalizedIs(d.deletedAccessKeys);
    forall gid | gid in Normalize(d, now).accessKeys
      ensures Trim(NormalizeKey(d.accessKeys[gid]).password) == NormalizeKey(d.accessKeys[gid]).password
    {
      TrimIdempotent(d.accessKeys[gid].password);
    }
  }

  lemma DefaultKeyIsThere(d: AdminData, password: string, now: nat)
    requires Trim(password) == password
    ensures var ensured := WithDefaultKey(d, password, now);
            && DEFAULT_ACCESS_KEY_ID in ensured.accessKeys && DEFAULT_ACCESS_KEY_ID !in ensured.deletedAccessKeys
            && Ascending(ensured.deletedAccessKeys) && AllTrimmed(ensured.deletedAccessKeys)
            && Trim(ensured.accessKeys[DEFAULT_ACCESS_KEY_ID].password) == ensured.accessKeys[DEFAULT_ACCESS_KEY_ID].password
  {
    hide Trim, Normalize;
    NormalizedKeys(d, now);
    NotInKeepsAscending({DEFAULT_ACCESS_KEY_ID}, Normalize(d, now).deletedAccessKeys);
  }

  /** The default key works after it was ensured, and ensuring it again, at any later point, keeps its password. */
  lemma DefaultKeyIsStable(d: AdminData, first: string, second: string, now: nat, later: nat)
    requires Trim(first) == first
    ensures var ensured := WithDefaultKey(d, first, now);
            var again := WithDefaultKey(ensured, second, later);
            && DEFAULT_ACCESS_KEY_ID in ensured.accessKeys && DEFAULT_ACCESS_KEY_ID !in ensured.deletedAccessKeys
            && DEFAULT_ACCESS_KEY_ID in again.accessKeys && DEFAULT_ACCESS_KEY_ID !in again.deletedAccessKeys
            && again.accessKeys[DEFAULT_ACCESS_KEY_ID].password == ensured.accessKeys[DEFAULT_ACCESS_KEY_ID].password
  {
    DefaultKeyIsThere(d, first, now);
    KeyStays(WithDefaultKey(d, first, now), second, later);
  }

  lemma KeyStays(d: AdminData, second: string, later: nat)
    requires DEFAULT_ACCESS_KEY_ID in d.accessKeys && DEFAULT_ACCESS_KEY_ID !in d.deletedAccessKeys
    requires Ascending(d.deletedAccessKeys) && AllTrimmed(d.deletedAccessKeys)
    requires Trim(d.accessKeys[DEFAULT_ACCESS_KEY_ID].password) == d.accessKeys[DEFAULT_ACCESS_KEY_ID].password
    ensures var again := WithDefaultKey(d, second, later);
            && DEFAULT_ACCESS_KEY_ID in again.accessKeys && DEFAULT_ACCESS_KEY_ID !in again.deletedAccessKeys
            && again.accessKeys[DEFAULT_ACCESS_KEY_ID].password == d.accessKeys[DEFAULT_ACCESS_KEY_ID].password
  {
    hide NormalizedStrings;
    AscendingIsNormalized(d.deletedAccessKeys);
    TrimFixed(DEFAULT_ACCESS_KEY_ID);
    assert !Blank(DEFAULT_ACCESS_KEY_ID);
  }
}
