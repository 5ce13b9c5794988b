/** The administrator's settings store: one copy in memory, one in the settings file, and the operations on them. */
module AdminStore {
  import opened Wrappers
  import opened Text
  import opened Settings
  import opened AdminNormalize
  import opened AdminReplace

  const U64_MAX: nat := 0xFFFF_FFFF_FFFF_FFFF
  const DEFAULT_ACCESS_KEY_ID := "default"
  const MIN_ADMIN_PASSWORD_LEN: nat := 12
  const MAX_ADMIN_PASSWORD_LEN: nat := 256
  const MAX_ADMIN_USERNAME_LEN: nat := 64
  const INSTALL_TOKEN_TTL_SECONDS: nat := 900

  /** What start-up makes of the settings file; a missing or unreadable file reads as empty settings. */
  function Loaded(file: AdminData, now: nat): AdminData {
    var n := Normalize(file, now);
    if PathError(n.adminPath) then n.(adminPath := DEFAULT_ADMIN_PATH) else n
  }

  /** Memory and file; a write that fails changes neither. */
  datatype Store = Store(data: AdminData, file: AdminData)
  {
    function Write(d: AdminData, written: bool): Store {
      if written then Store(d, d) else this
    }
  }

  // ---------- deleted hosts ----------

  function PurgeSet(hosts: seq<string>): set<string> {
    Names(TrimAll(hosts))
  }

  function WithoutHosts(d: AdminData, names: set<string>): AdminData {
    d.(deletedHosts := NotIn(names, d.deletedHosts),
       hosts := Less(d.hosts, names),
       serverGroups := GroupsWithout(names, d.serverGroups),
       alertRules := RulesWithout(names, d.alertRules))
  }

  function Purged(d: AdminData, names: set<string>, now: nat): AdminData {
    Normalize(WithoutHosts(d, names), now)
  }

  /** The settings without the marker, if there was one. */
  function MarkerCleared(d: AdminData, name: string): Option<AdminData> {
    var kept := NotIn({Trim(name)}, d.deletedHosts);
    if Trim(name) == "" || |kept| == |d.deletedHosts| then None else Some(d.(deletedHosts := kept))
  }

  // ---------- access keys ----------

  function DefaultKey(password: string): AccessKey {
    AccessKey(DEFAULT_ACCESS_KEY_ID, password, "", "", Some(true), "", "", NO_BILLING, Some(true), None)
  }

  /** The default key is made if it is missing, and made anew if it was deleted. */
  function WithDefaultKey(d: AdminData, password: string, now: nat): AdminData {
    var n := Normalize(d, now);
    if DEFAULT_ACCESS_KEY_ID in n.deletedAccessKeys then
      n.(deletedAccessKeys := NotIn({DEFAULT_ACCESS_KEY_ID}, n.deletedAccessKeys),
         accessKeys := n.accessKeys[DEFAULT_ACCESS_KEY_ID := DefaultKey(password)])
    else if DEFAULT_ACCESS_KEY_ID in n.accessKeys then n
    else n.(accessKeys := n.accessKeys[DEFAULT_ACCESS_KEY_ID := DefaultKey(password)])
  }

  function OverrideText(value: string, base: string): string {
    if Blank(value) then base else value
  }

  function ToHostGroup(key: AccessKey, gid: string, base: map<string, HostGroup>): Option<HostGroup> {
    var source := if Blank(key.sourceGid) then gid else Trim(key.sourceGid);
    var group := if source in base then base[source] else HostGroup(gid, "", "", "", true, 0, 0, "", "", true);
    var result := HostGroup(
      gid,
      OverrideText(key.password, group.password),
      OverrideText(key.location, group.location),
      OverrideText(key.kind, group.kind),
      if key.notify.Some? then key.notify.value else group.notify,
      group.pos,
      if key.weight.Some? then key.weight.value else group.weight,
      OverrideText(key.labels, group.labels),
      OverrideText(key.expire, group.expire),
      if key.expireNotify.Some? then key.expireNotify.value else group.expireNotify);
    if result.password == "" then None else Some(result)
  }

  /** The group an access key stands for. */
  function EffectiveGroup(d: AdminData, base: map<string, HostGroup>, gid: string): Option<HostGroup> {
    if gid in d.deletedAccessKeys || gid !in d.accessKeys then None else ToHostGroup(d.accessKeys[gid], gid, base)
  }

  // ---------- install tokens ----------

  function TokenHash(token: string): Digest {
    DigestOf(Trim(token))
  }

  function Issued(gid: string, uid: string, token: string, now: nat): InstallToken {
    InstallToken(Trim(gid), Trim(uid), TokenHash(token), now + INSTALL_TOKEN_TTL_SECONDS)
  }

  function WithToken(d: AdminData, gid: string, uid: string, token: string, now: nat): AdminData {
    d.(installTokens := LiveTokens(d.installTokens, now)[TokenHash(token) := Issued(gid, uid, token, now)])
  }

  /** Every token is filed under its own hash. */
  predicate Keyed(tokens: map<Digest, InstallToken>) {
    forall k :: k in tokens ==> tokens[k].tokenHash == k
  }

  /** The settings without the token, and the group it admits to; only `uid` may use its token, and only in time. */
  function Consumed(d: AdminData, base: map<string, HostGroup>, token: string, uid: string, now: nat)
    : Option<(AdminData, HostGroup)>
  {
    var tokens := LiveTokens(d.installTokens, now);
    var hash := TokenHash(token);
    if Trim(token) == "" || Trim(uid) == "" || hash !in tokens || tokens[hash].uid != Trim(uid) then None
    else
      match EffectiveGroup(d, base, tokens[hash].gid)
      case None => None
      case Some(group) => Some((d.(installTokens := tokens - {hash}), group))
  }

  /** The live token filed under that key is the one shown, and made out to that uid. */
  predicate Admits(d: AdminData, token: string, uid: string, now: nat, key: Digest) {
    var tokens := LiveTokens(d.installTokens, now);
    && Trim(token) != "" && Trim(uid) != ""
    && key in tokens && tokens[key].tokenHash == TokenHash(token) && tokens[key].uid == Trim(uid)
  }

  function ConsumedAt(d: AdminData, base: map<string, HostGroup>, key: Digest, now: nat): Option<(AdminData, HostGroup)>
    requires key in LiveTokens(d.installTokens, now)
  {
    var tokens := LiveTokens(d.installTokens, now);
    match EffectiveGroup(d, base, tokens[key].gid)
    case None => None
    case Some(group) => Some((d.(installTokens := tokens - {key}), group))
  }

  /** In a keyed map at most one token is admitted, the one filed under the hash. */
  lemma KeyedIsConsumed(d: AdminData, base: map<string, HostGroup>, token: string, uid: string, now: nat, key: Digest)
    requires Keyed(d.installTokens)
    ensures Admits(d, token, uid, now, key) ==>
              key == TokenHash(token) && Consumed(d, base, token, uid, now) == ConsumedAt(d, base, key, now)
    ensures Consumed(d, base, token, uid, now).Some? ==> Admits(d, token, uid, now, TokenHash(token))
  {
    hide EffectiveGroup, Trim;
  }

  // ---------- the group an accepted token admits to ----------

  /** The configured group that an access key builds on: that of the key it was copied from, else its own. */
  function BaseGroup(key: AccessKey, gid: string, base: map<string, HostGroup>): Option<HostGroup> {
    var source := if Trim(key.sourceGid) != "" then Trim(key.sourceGid) else gid;
    if source in base then Some(base[source]) else None
  }

  /** A field is the key's own where that is not blank, else the configured one. */
  predicate OwnOrBase(field: string, own: string, configured: string) {
    field == if Trim(own) != "" then own else configured
  }

  /** The group of a live access key, field by field. */
  predicate IsGroupOf(group: HostGroup, key: AccessKey, gid: string, base: Option<HostGroup>) {
    && group.gid == gid
    && OwnOrBase(group.password, key.password, if base.Some? then base.value.password else "")
    && OwnOrBase(group.location, key.location, if base.Some? then base.value.location else "")
    && OwnOrBase(group.kind, key.kind, if base.Some? then base.value.kind else "")
    && OwnOrBase(group.labels, key.labels, if base.Some? then base.value.labels else "")
    && OwnOrBase(group.expire, key.expire, if base.Some? then base.value.expire else "")
    && group.notify == (if key.notify.Some? then key.notify.value else base.None? || base.value.notify)
    && group.expireNotify == (if key.expireNotify.Some? then key.expireNotify.value else base.None? || base.value.expireNotify)
    && group.weight == (if key.weight.Some? then key.weight.value else if base.Some? then base.value.weight else 0)
    && group.pos == if base.Some? then base.value.pos else 0
  }

  /** Neither the key nor the configured group has a password. */
  predicate HasNoPassword(key: AccessKey, base: Option<HostGroup>) {
    Trim(key.password) == "" && (base.None? || base.value.password == "")
  }

  lemma EffectiveGroupIs(d: AdminData, base: map<string, HostGroup>, gid: string)
    ensures var group := EffectiveGroup(d, base, gid);
            && (group.None? <==> gid in d.deletedAccessKeys || gid !in d.accessKeys
                                 || HasNoPassword(d.accessKeys[gid], BaseGroup(d.accessKeys[gid], gid, base)))
            && (group.Some? ==> IsGroupOf(group.value, d.accessKeys[gid], gid, BaseGroup(d.accessKeys[gid], gid, base)))
  {
    hide Trim;
    NoPassword();
  }

  lemma NoPassword()
    ensures Trim("") == ""
  {
  }

  /**
  An admitted token is refused exactly if the access key of its gid is gone or neither that key nor the configured
  group has a password; else the group returned has the fields of the key over those of the configured group.
  */
  lemma AdmittedTokenGivesGroup(
    d: AdminData, base: map<string, HostGroup>, token: string, uid: string, now: nat, key: Digest)
    requires Admits(d, token, uid, now, key)
    ensures var gid := d.installTokens[key].gid;
            var answer := ConsumedAt(d, base, key, now);
            && (answer.None? <==> gid in d.deletedAccessKeys || gid !in d.accessKeys
                                  || HasNoPassword(d.accessKeys[gid], BaseGroup(d.accessKeys[gid], gid, base)))
            && (answer.Some? ==> IsGroupOf(answer.value.1, d.accessKeys[gid], gid, BaseGroup(d.accessKeys[gid], gid, base)))
  {
    hide IsGroupOf, EffectiveGroup, HasNoPassword, BaseGroup, Trim;
    EffectiveGroupIs(d, base, d.installTokens[key].gid);
  }

  // ---------- credentials ----------

  datatype UpdateError =
    | InvalidUsername
    | InvalidAdminPath
    | WrongCurrentPassword
    | NewPasswordTooShort
    | NewPasswordTooLong
    | NewPasswordUnchanged
    | NothingChanged
    | HashFailed
    | SaveFailed

  predicate PasswordMatches(d: AdminData, base: Option<string>, password: string) {
    if password == "" then false
    else if d.passwordHash.Some? && !d.passwordHash.value.BlankHash? then d.passwordHash.value == HashOf(password)
    else base == Some(password)
  }

  function CurrentUser(d: AdminData, base: Option<string>): string {
    if d.adminUser.Some? && !Blank(d.adminUser.value) then Trim(d.adminUser.value)
    else if base.Some? && !Blank(base.value) then Trim(base.value)
    else "admin"
  }

  function Utf8Length(s: string): nat {
    if s == "" then 0
    else (if s[0] < '\U{80}' then 1 else if s[0] < '\U{800}' then 2 else if s[0] < '\U{10000}' then 3 else 4) + Utf8Length(s[1..])
  }

  predicate IsUserChar(c: char) {
    IsAsciiAlphanumeric(c) || c == '_' || c == '-' || c == '.' || c == '@'
  }

  predicate ValidUsername(name: string) {
    var user := Trim(name);
    user != "" && Utf8Length(user) <= MAX_ADMIN_USERNAME_LEN && forall c :: c in user ==> IsUserChar(c)
  }

  function PasswordError(current: string, next: string): Option<UpdateError> {
    if |next| < MIN_ADMIN_PASSWORD_LEN then Some(NewPasswordTooShort)
    else if Utf8Length(next) > MAX_ADMIN_PASSWORD_LEN then Some(NewPasswordTooLong)
    else if next == current then Some(NewPasswordUnchanged)
    else None
  }

  /** A request to change the credentials; a blank user or password means no change. */
  datatype Change = Change(
    baseUser: Option<string>, basePassword: Option<string>, current: string, user: Option<string>,
    password: Option<string>, path: Option<string>)
  {
    function NextUser(d: AdminData): string {
      if user.Some? && !Blank(user.value) then Trim(user.value) else CurrentUser(d, baseUser)
    }

    function NextPassword(): Option<string> {
      TrimOption(password)
    }

    function NextPath(d: AdminData): string {
      NormalizePath(if path.Some? then path.value else d.adminPath)
    }
  }

  function Bumped(version: nat): nat {
    if version < U64_MAX then version + 1 else version
  }

  /** The settings with the new credentials; `hashes` says whether hashing succeeded. */
  function CredentialsApplied(d: AdminData, c: Change, hashes: bool): Result<AdminData, UpdateError> {
    var next := c.NextPassword();
    if !PasswordMatches(d, c.basePassword, c.current) then Err(WrongCurrentPassword)
    else if !ValidUsername(c.NextUser(d)) then Err(InvalidUsername)
    else if PathError(c.NextPath(d)) then Err(InvalidAdminPath)
    else if next.Some? && PasswordError(c.current, next.value).Some? then Err(PasswordError(c.current, next.value).value)
    else if next.Some? && !hashes then Err(HashFailed)
    else if next.None? && c.NextUser(d) == CurrentUser(d, c.baseUser) && c.NextPath(d) == NormalizePath(d.adminPath) then
      Err(NothingChanged)
    else
      Ok(d.(passwordHash := if next.Some? then Some(HashOf(next.value)) else d.passwordHash,
            adminUser := if c.NextUser(d) != CurrentUser(d, c.baseUser) then Some(c.NextUser(d)) else d.adminUser,
            adminPath := if c.NextPath(d) != NormalizePath(d.adminPath) then c.NextPath(d) else d.adminPath))
  }

  function NewSession(d: AdminData, now: nat): AdminData {
    var n := Normalize(d, now);
    n.(sessionVersion := Bumped(n.sessionVersion))
  }

  function CredentialsUpdated(d: AdminData, c: Change, hashes: bool, now: nat): Result<AdminData, UpdateError> {
    match CredentialsApplied(d, c, hashes)
    case Err(e) => Err(e)
    case Ok(applied) => Ok(NewSession(applied, now))
  }

  // ---------- the store in place ----------

  method RetainInGroups(groups: seq<ServerGroup>, names: set<string>) returns (r: seq<ServerGroup>)
    ensures r == GroupsWithout(names, groups)
  {
    r := groups;
    for i := 0 to |groups|
      invariant |r| == |groups| && r[i..] == groups[i..]
      invariant forall k :: 0 <= k < i ==> r[k] == GroupWithout(names, groups[k])
    {
      r := r[i := groups[i].(servers := NotIn(names, groups[i].servers))];
    }
  }

  method RetainInRules(rules: seq<AlertRule>, names: set<string>) returns (r: seq<AlertRule>)
    ensures r == RulesWithout(names, rules)
  {
    r := rules;
    for i := 0 to |rules|
      invariant |r| == |rules| && r[i..] == rules[i..]
      invariant forall k :: 0 <= k < i ==> r[k] == RuleWithout(names, rules[k])
    {
      r := r[i := rules[i].(servers := NotIn(names, rules[i].servers))];
    }
  }

  /** Some token with that hash and uid, if there is one. */
  method FindToken(tokens: map<Digest, InstallToken>, hash: Digest, uid: string) returns (key: Option<Digest>)
    ensures key.Some? ==> key.value in tokens && tokens[key.value].tokenHash == hash && tokens[key.value].uid == uid
    ensures key.None? ==> forall k :: k in tokens ==> tokens[k].tokenHash != hash || tokens[k].uid != uid
  {
    if k :| k in tokens && tokens[k].tokenHash == hash && tokens[k].uid == uid {
      key := Some(k);
    } else {
      key := None;
    }
  }

  /** What the store and the caller have after a token was looked up. */
  predicate Answers(
    before: Store, after: Store, group: Option<HostGroup>, next: Option<(AdminData, HostGroup)>, written: bool)
  {
    && after == (if next.Some? then before.Write(next.value.0, written) else before)
    && group == if next.Some? && written then Some(next.value.1) else None
  }

  class AdminState {
    var data: AdminData
    var file: AdminData

    ghost predicate Valid()
      reads this
    {
      WellFormed(data)
    }

    ghost function Contents(): Store
      reads this
    {
      Store(data, file)
    }

    constructor (contents: AdminData, now: nat)
      ensures Valid() && Contents() == Store(Loaded(contents, now), contents)
    {
      hide Normalize, WellFormed, PathError;
      var loaded := Normalize(contents, now);
      LoadedIsWellFormed(contents, now);
      if PathError(loaded.adminPath) {
        loaded := loaded.(adminPath := DEFAULT_ADMIN_PATH);
      }
      data, file := loaded, contents;
    }

    /** The file is written before the copy in memory is replaced. */
    method WriteData(next: AdminData, written: bool)
      modifies this
      ensures Contents() == old(Contents()).Write(next, written)
    {
      if written {
        file := next;
        data := next;
      }
    }

    method Replace(next: AdminData, now: nat, checks: Checks, written: bool) returns (r: Result<AdminData, ReplaceError>)
      requires Valid()
      modifies this
      ensures Valid()
      ensures var prepared := Prepare(next, old(data), now, checks);
              && Contents() == (if prepared.Ok? then old(Contents()).Write(prepared.value, written) else old(Contents()))
              && r == if prepared.Ok? && !written then Err(WriteFailed) else prepared
    {
      r := Prepare(next, data, now, checks);
      if r.Ok? {
        ReplacedIsWellFormed(next, data, now, checks);
        WriteData(r.value, written);
        if !written {
          r := Err(WriteFailed);
        }
      }
    }

    method PurgeDeletedHosts(hosts: seq<string>, now: nat, written: bool) returns (ok: bool)
      requires Valid()
      modifies this
      ensures Valid()
      ensures var names := PurgeSet(hosts);
              && Contents() == (if names == {} then old(Contents()) else old(Contents()).Write(Purged(old(data), names, now), written))
              && ok == (names == {} || written)
    {
      var names := PurgeSet(hosts);
      if names == {} {
        return true;
      }
      var next := data;
      next := next.(deletedHosts := NotIn(names, next.deletedHosts), hosts := Less(next.hosts, names));
      var groups := RetainInGroups(next.serverGroups, names);
      var rules := RetainInRules(next.alertRules, names);
      next := next.(serverGroups := groups, alertRules := rules);
      NormalizeIsWellFormed(next, now);
      WriteData(Normalize(next, now), written);
      ok := written;
    }

    method ClearDeletedHostMarker(name: string, written: bool) returns (cleared: Option<bool>)
      requires Valid()
      modifies this
      ensures Valid()
      ensures var next := MarkerCleared(old(data), name);
              && Contents() == (if next.Some? then old(Contents()).Write(next.value, written) else old(Contents()))
              && cleared == if next.None? then Some(false) else if written then Some(true) else None
    {
      var trimmed := Trim(name);
      if trimmed == "" {
        return Some(false);
      }
      var before := |data.deletedHosts|;
      var next := data.(deletedHosts := NotIn({trimmed}, data.deletedHosts));
      if before == |next.deletedHosts| {
        return Some(false);
      }
      MarkerClearedIsWellFormed(data, name);
      WriteData(next, written);
      cleared := if written then Some(true) else None;
    }

    /** `password` is the fresh random password of a new key. */
    method EnsureDefaultAccessKey(password: string, now: nat, written: bool) returns (group: Option<HostGroup>)
      requires Valid()
      modifies this
      ensures Valid()
      ensures var next := WithDefaultKey(old(data), password, now);
              && Contents() == old(Contents()).Write(next, written)
              && group == if written then EffectiveGroup(next, map[], DEFAULT_ACCESS_KEY_ID) else None
    {
      var next := Normalize(data, now);
      DefaultKeyIsWellFormed(data, password, now);
      if DEFAULT_ACCESS_KEY_ID !in next.deletedAccessKeys {
        if DEFAULT_ACCESS_KEY_ID !in next.accessKeys {
          next := next.(accessKeys := next.accessKeys[DEFAULT_ACCESS_KEY_ID := DefaultKey(password)]);
        }
      } else {
        next := next.(deletedAccessKeys := NotIn({DEFAULT_ACCESS_KEY_ID}, next.deletedAccessKeys));
        next := next.(accessKeys := next.accessKeys[DEFAULT_ACCESS_KEY_ID := DefaultKey(password)]);
      }
      WriteData(next, written);
      group := if written then EffectiveGroup(next, map[], DEFAULT_ACCESS_KEY_ID) else None;
    }

    /** `token` is the fresh random token that is handed out. */
    method CreateInstallToken(gid: string, uid: string, token: string, now: nat, written: bool) returns (expiresAt: Option<nat>)
      requires Valid()
      modifies this
      ensures Valid()
      ensures Contents() == old(Contents()).Write(WithToken(old(data), gid, uid, token, now), written)
      ensures expiresAt == if written then Some(now + INSTALL_TOKEN_TTL_SECONDS) else None
    {
      var item := InstallToken(Trim(gid), Trim(uid), TokenHash(token), now + INSTALL_TOKEN_TTL_SECONDS);
      var next := data.(installTokens := LiveTokens(data.installTokens, now));
      next := next.(installTokens := next.installTokens[item.tokenHash := item]);
      TokensKeepWellFormed(data, next.installTokens, data.sessionVersion);
      WriteData(next, written);
      expiresAt := if written then Some(item.expiresAt) else None;
    }

    method ConsumeInstallToken(base: map<string, HostGroup>, token: string, uid: string, now: nat, written: bool)
      returns (group: Option<HostGroup>)
      requires Valid()
      modifies this
      ensures Valid()
      ensures if exists key :: Admits(old(data), token, uid, now, key)
              then exists key :: Admits(old(data), token, uid, now, key)
                                 && Answers(old(Contents()), Contents(), group, ConsumedAt(old(data), base, key, now), written)
              else Answers(old(Contents()), Contents(), group, None, written)
      ensures Keyed(old(data).installTokens) ==>
                Answers(old(Contents()), Contents(), group, Consumed(old(data), base, token, uid, now), written)
    {
      hide ToHostGroup, WellFormed, EffectiveGroup, Trim, Keyed, Consumed;
      group := None;
      ghost var before := data;
      if Keyed(before.installTokens) {
        KeyedIsConsumed(before, base, token, uid, now, TokenHash(token));
      }
      if Trim(token) == "" || Trim(uid) == "" {
        return;
      }
      var next := data.(installTokens := LiveTokens(data.installTokens, now));
      var key := FindToken(next.installTokens, TokenHash(token), Trim(uid));
      if key.Some? {
        assert Admits(before, token, uid, now, key.value);
        if Keyed(before.installTokens) {
          KeyedIsConsumed(before, base, token, uid, now, key.value);
        }
        var found := EffectiveGroup(data, base, next.installTokens[key.value].gid);
        if found.Some? {
          next := next.(installTokens := next.installTokens - {key.value});
          TokensKeepWellFormed(data, next.installTokens, data.sessionVersion);
          WriteData(next, written);
          group := if written then found else None;
        }
      }
    }

    method UpdateAdminCredentials(c: Change, hashes: bool, now: nat, written: bool) returns (r: Result<(), UpdateError>)
      requires Valid()
      modifies this
      ensures Valid()
      ensures var next := CredentialsUpdated(old(data), c, hashes, now);
              && Contents() == (if next.Ok? then old(Contents()).Write(next.value, written) else old(Contents()))
              && r == match next
                      case Err(e) => Err(e)
                      case Ok(_) => if written then Ok(()) else Err(SaveFailed)
    {
      var applied := CredentialsApplied(data, c, hashes);
      if applied.Err? {
        return Err(applied.error);
      }
      CredentialsChangeOnlyThemselves(data, c, hashes);
      UpdatedIsWellFormed(applied.value, now);
      var next := Normalize(applied.value, now);
      next := next.(sessionVersion := Bumped(next.sessionVersion));
      WriteData(next, written);
      r := if written then Ok(()) else Err(SaveFailed);
    }
  }

  // ---------- what every operation keeps ----------

  lemma ReplacedIsWellFormed(next: AdminData, stored: AdminData, now: nat, checks: Checks)
    requires Prepare(next, stored, now, checks).Ok?
    ensures var saved := Prepare(next, stored, now, checks).value;
            WellFormed(saved) && (Keyed(stored.installTokens) ==> Keyed(saved.installTokens))
  {
    PreparedIs(next, stored, now, checks);
    NormalizeIsWellFormed(MergeSensitive(WithTrimmedIdentities(next), stored), now);
  }

  lemma LoadedIsWellFormed(file: AdminData, now: nat)
    ensures WellFormed(Loaded(file, now)) && (Keyed(file.installTokens) ==> Keyed(Loaded(file, now).installTokens))
  {
    NormalizeIsWellFormed(file, now);
  }

  lemma FewerMarkersKeepWellFormed(d: AdminData, kept: seq<string>)
    requires WellFormed(d) && Ascending(kept) && forall x :: x in kept ==> x in d.deletedHosts
    ensures WellFormed(d.(deletedHosts := kept))
  {
    assert Names(kept) <= Names(d.deletedHosts);
  }

  lemma MarkerClearedIsWellFormed(d: AdminData, name: string)
    requires WellFormed(d) && MarkerCleared(d, name).Some?
    ensures WellFormed(MarkerCleared(d, name).value)
  {
    NotInKeepsAscending({Trim(name)}, d.deletedHosts);
    FewerMarkersKeepWellFormed(d, NotIn({Trim(name)}, d.deletedHosts));
  }

  lemma NewKeyKeepsWellFormed(d: AdminData, kept: seq<string>, gid: string, key: AccessKey)
    requires WellFormed(d) && Ascending(kept) && !Blank(gid) && gid !in kept
    requires forall x :: x in kept ==> x in d.deletedAccessKeys
    ensures WellFormed(d.(deletedAccessKeys := kept, accessKeys := d.accessKeys[gid := key]))
  {
    assert Names(kept) <= Names(d.deletedAccessKeys);
  }

  lemma DefaultKeyIsWellFormed(d: AdminData, password: string, now: nat)
    ensures WellFormed(WithDefaultKey(d, password, now))
  {
    hide Normalize, WellFormed;
    NormalizeIsWellFormed(d, now);
    DefaultKeyFits(Normalize(d, now), password);
  }

  lemma DefaultKeyFits(n: AdminData, password: string)
    requires WellFormed(n)
    ensures var kept := NotIn({DEFAULT_ACCESS_KEY_ID}, n.deletedAccessKeys);
            WellFormed(n.(deletedAccessKeys := kept,
                          accessKeys := n.accessKeys[DEFAULT_ACCESS_KEY_ID := DefaultKey(password)]))
    ensures DEFAULT_ACCESS_KEY_ID !in n.deletedAccessKeys ==>
              WellFormed(n.(accessKeys := n.accessKeys[DEFAULT_ACCESS_KEY_ID := DefaultKey(password)]))
  {
    hide Blank;
    var kept := NotIn({DEFAULT_ACCESS_KEY_ID}, n.deletedAccessKeys);
    NotInKeepsAscending({DEFAULT_ACCESS_KEY_ID}, n.deletedAccessKeys);
    DefaultKeyHasName();
    NewKeyKeepsWellFormed(n, kept, DEFAULT_ACCESS_KEY_ID, DefaultKey(password));
    if DEFAULT_ACCESS_KEY_ID !in n.deletedAccessKeys {
      assert kept == n.deletedAccessKeys;
    }
  }

  lemma DefaultKeyHasName()
    ensures !Blank(DEFAULT_ACCESS_KEY_ID)
  {
    TrimFixed(DEFAULT_ACCESS_KEY_ID);
  }

  /** Tokens and the session version have no part in it. */
  lemma TokensKeepWellFormed(d: AdminData, tokens: map<Digest, InstallToken>, version: nat)
    requires WellFormed(d)
    ensures WellFormed(d.(installTokens := tokens)) && WellFormed(d.(sessionVersion := version))
  {
  }

  lemma CredentialsChangeOnlyThemselves(d: AdminData, c: Change, hashes: bool)
    requires CredentialsApplied(d, c, hashes).Ok?
    ensures var applied := CredentialsApplied(d, c, hashes).value;
            d.(adminUser := applied.adminUser, passwordHash := applied.passwordHash, adminPath := applied.adminPath) == applied
  {
    hide PathError, ValidUsername, PasswordMatches, PasswordError, NormalizePath, CurrentUser;
  }

  lemma UpdatedIsWellFormed(applied: AdminData, now: nat)
    ensures WellFormed(NewSession(applied, now))
    ensures Keyed(applied.installTokens) ==> Keyed(NewSession(applied, now).installTokens)
  {
    NormalizeIsWellFormed(applied, now);
    TokensKeepWellFormed(Normalize(applied, now), map[], Bumped(applied.sessionVersion));
  }
}
