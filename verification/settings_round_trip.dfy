/**
Saving part of the settings from the browser: read the public copy, override some keys, send it all back.
Nothing but the overridden keys changes, and no secret is lost.
*/
module SettingsRoundTrip {
  import opened Wrappers
  import opened Text
  import opened Settings
  import opened AdminNormalize
  import opened AdminReplace

  /** The keys a save overrides; a key left out is sent back as it was read. */
  datatype Overrides = Overrides(
    hosts: Option<map<string, NodeOverride>>,
    groups: Option<map<string, NodeOverride>>,
    deletedHosts: Option<seq<string>>,
    serverGroups: Option<seq<ServerGroup>>,
    accessKeys: Option<map<string, AccessKey>>,
    deletedAccessKeys: Option<seq<string>>,
    notificationGroups: Option<seq<NotificationGroup>>,
    alertRules: Option<seq<AlertRule>>,
    adminPath: Option<string>,
    accessBaseUrl: Option<string>,
    agentBaseUrl: Option<string>,
    expireNotify: Option<Option<ExpireNotifyConfig>>,
    tgbot: Option<Option<Tgbot>>,
    bark: Option<Option<Bark>>,
    wechat: Option<Option<Wechat>>,
    email: Option<Option<Email>>,
    webhook: Option<Option<Webhook>>,
    log: Option<Option<Log>>)

  function Or<T>(override: Option<T>, current: T): T {
    if override.Some? then override.value else current
  }

  /** `settingsPayloadFromSettings`: every editable key, and nothing else. */
  function Payload(settings: AdminData, o: Overrides): AdminData {
    EMPTY_DATA.(
      hosts := Or(o.hosts, settings.hosts),
      groups := Or(o.groups, settings.groups),
      deletedHosts := Or(o.deletedHosts, settings.deletedHosts),
      serverGroups := Or(o.serverGroups, settings.serverGroups),
      accessKeys := Or(o.accessKeys, settings.accessKeys),
      deletedAccessKeys := Or(o.deletedAccessKeys, settings.deletedAccessKeys),
      notificationGroups := Or(o.notificationGroups, settings.notificationGroups),
      alertRules := Or(o.alertRules, settings.alertRules),
      adminPath := Or(o.adminPath, if settings.adminPath == "" then DEFAULT_ADMIN_PATH else settings.adminPath),
      accessBaseUrl := Or(o.accessBaseUrl, settings.accessBaseUrl),
      agentBaseUrl := Or(o.agentBaseUrl, settings.agentBaseUrl),
      expireNotify := Or(o.expireNotify, settings.expireNotify),
      tgbot := Or(o.tgbot, settings.tgbot),
      bark := Or(o.bark, settings.bark),
      wechat := Or(o.wechat, settings.wechat),
      email := Or(o.email, settings.email),
      webhook := Or(o.webhook, settings.webhook),
      log := Or(o.log, settings.log))
  }

  function ReadTgbot(t: Tgbot): Tgbot { t.(botToken := ReadBack(t.botToken), chatId := ReadBack(t.chatId)) }
  function ReadBark(b: Bark): Bark { b.(deviceKey := ReadBack(b.deviceKey)) }
  function ReadWechat(w: Wechat): Wechat { w.(corpSecret := ReadBack(w.corpSecret)) }
  function ReadEmail(e: Email): Email { e.(password := ReadBack(e.password)) }
  function ReadHeader(h: Header): Header { h.(value := ReadBack(h.value)) }
  function ReadReceiver(r: Receiver): Receiver {
    r.(url := ReadBack(r.url), password := ReadBack(r.password), headers := MapAll(ReadHeader, r.headers))
  }
  function ReadWebhook(w: Webhook): Webhook { w.(receivers := MapAll(ReadReceiver, w.receivers)) }

  /** What the server reads from a request: the `configured` marks are not read. */
  function Received(d: AdminData): AdminData {
    d.(tgbot := OptionMap(ReadTgbot, d.tgbot),
       bark := OptionMap(ReadBark, d.bark),
       wechat := OptionMap(ReadWechat, d.wechat),
       email := OptionMap(ReadEmail, d.email),
       webhook := OptionMap(ReadWebhook, d.webhook))
  }

  /** One scoped save, with nothing else writing between the read and the write. */
  function ScopedSave(stored: AdminData, o: Overrides, now: nat, checks: Checks): Result<AdminData, ReplaceError> {
    Prepare(Received(Payload(Public(stored), o)), stored, now, checks)
  }

  /** Stored settings carry no public marks. */
  predicate Unmarked(d: AdminData) {
    OptionMap(ReadTgbot, d.tgbot) == d.tgbot && OptionMap(ReadBark, d.bark) == d.bark
    && OptionMap(ReadWechat, d.wechat) == d.wechat && OptionMap(ReadEmail, d.email) == d.email
    && OptionMap(ReadWebhook, d.webhook) == d.webhook
  }

  /** Valid settings that normalising leaves alone. */
  predicate Settled(d: AdminData, now: nat, checks: Checks) {
    && Normalize(d, now) == d && Unmarked(d) && !PathError(d.adminPath) && ValidData(d, checks)
    && NormalizeBaseUrl(d.accessBaseUrl) == d.accessBaseUrl && NormalizeBaseUrl(d.agentBaseUrl) == d.agentBaseUrl
  }

  // ---------- each masked part comes back whole ----------

  lemma TgbotComesBack(t: Tgbot)
    requires NormalizeTgbot(t) == t && ReadTgbot(t) == t
    ensures MergeTgbot(ReadTgbot(MaskTgbot(t)), t) == t
  {
    SecretComesBack(t.botToken);
    SecretComesBack(t.chatId);
  }

  lemma BarkComesBack(b: Bark)
    requires StoredSecret(b.deviceKey)
    ensures MergeBark(ReadBark(MaskBark(b)), b) == b
  {
    SecretComesBack(b.deviceKey);
  }

  /** In headers of distinct names, trimmed, a name in any letter case finds its own. */
  lemma {:induction false} HeaderFindsNamesake(headers: seq<Header>, k: nat, name: string)
    requires k < |headers| && DistinctIds(HeaderKey, headers) && Lower(headers[k].name) == Lower(name)
    requires forall j :: 0 <= j < |headers| ==> Trim(headers[j].name) == headers[j].name
    ensures FindHeader(headers, name) == Some(headers[k])
    decreases k
  {
    hide Lower, Trim;
    assert Trim(headers[0].name) == headers[0].name;
    if k > 0 {
      assert HeaderKey(headers[0]) != HeaderKey(headers[k]);
      DistinctRest(HeaderKey, headers);
      HeaderFindsNamesake(headers[1..], k - 1, name);
    }
  }

  lemma DistinctRest<T>(id: T -> string, xs: seq<T>)
    requires xs != [] && DistinctIds(id, xs)
    ensures DistinctIds(id, xs[1..])
  {
    forall i, j | 0 <= i < j < |xs| - 1
      ensures id(xs[1..][i]) != id(xs[1..][j])
    {
      assert xs[1..][i] == xs[i + 1] && xs[1..][j] == xs[j + 1];
    }
  }

  lemma {:induction false} ReceiverFindsItself(receivers: seq<Receiver>, i: nat)
    requires i < |receivers| && DistinctIds(ReceiverId, receivers)
    requires forall j :: 0 <= j < |receivers| ==> Trim(receivers[j].id) == receivers[j].id
    ensures FindReceiver(receivers, receivers[i].id) == Some(receivers[i])
    decreases i
  {
    hide Trim;
    assert Trim(receivers[0].id) == receivers[0].id;
    if i > 0 {
      assert ReceiverId(receivers[0]) != ReceiverId(receivers[i]);
      DistinctRest(ReceiverId, receivers);
      ReceiverFindsItself(receivers[1..], i - 1);
    }
  }

  /** What the server sees of one stored receiver or header after it went out masked and came back. */
  function Returned(r: Receiver): Receiver {
    TrimReceiverId(ReadReceiver(MaskReceiver(r)))
  }

  function ReturnedHeader(h: Header): Header {
    TrimHeaderName(ReadHeader(MaskHeader(h)))
  }

  lemma HeadersComeBack(headers: seq<Header>)
    requires DistinctIds(HeaderKey, headers) && MapAll(NormalizeHeader, headers) == headers && MapAll(ReadHeader, headers) == headers
    ensures MapAll(h => MergeHeader(h, headers), MapAll(ReturnedHeader, headers)) == headers
  {
    forall i | 0 <= i < |headers|
      ensures MergeHeader(ReturnedHeader(headers[i]), headers) == headers[i]
    {
      assert NormalizeHeader(headers[i]) == headers[i] && ReadHeader(headers[i]) == headers[i];
      assert forall j :: 0 <= j < |headers| ==> NormalizeHeader(headers[j]) == headers[j];
      HeaderFindsNamesake(headers, i, headers[i].name);
      SecretComesBack(headers[i].value);
    }
  }

  lemma ReceiverComesBack(receivers: seq<Receiver>, i: nat)
    requires i < |receivers| && DistinctIds(ReceiverId, receivers)
    requires MapAll(NormalizeReceiver, receivers) == receivers && MapAll(ReadReceiver, receivers) == receivers
    requires DistinctIds(HeaderKey, receivers[i].headers)
    ensures MergeReceiver(Returned(receivers[i]), receivers) == receivers[i]
  {
    var r := receivers[i];
    assert NormalizeReceiver(r) == r && ReadReceiver(r) == r;
    assert forall j :: 0 <= j < |receivers| ==> NormalizeReceiver(receivers[j]) == receivers[j];
    ReceiverFindsItself(receivers, i);
    HeadersComeBack(r.headers);
    assert Returned(r).headers == MapAll(ReturnedHeader, r.headers);
  }

  lemma WebhookComesBack(w: Webhook, checks: Checks)
    requires NormalizeWebhook(w) == w && ReadWebhook(w) == w && ValidIdentities(w, checks)
    ensures MergeWebhook(TrimIdentities(ReadWebhook(MaskWebhook(w))), w) == w
  {
    var returned := TrimIdentities(ReadWebhook(MaskWebhook(w)));
    assert returned.receivers == MapAll(Returned, w.receivers);
    forall i | 0 <= i < |w.receivers|
      ensures MergeReceiver(returned.receivers[i], w.receivers) == w.receivers[i]
    {
      ReceiverComesBack(w.receivers, i);
    }
    assert MergeWebhook(returned, w).receivers == w.receivers;
  }

  lemma IdentitiesComeBack(w: Webhook, checks: Checks)
    requires NormalizeWebhook(w) == w && ValidIdentities(w, checks)
    ensures ValidIdentities(TrimIdentities(ReadWebhook(MaskWebhook(w))), checks)
  {
    var returned := TrimIdentities(ReadWebhook(MaskWebhook(w)));
    forall i | 0 <= i < |w.receivers|
      ensures returned.receivers[i].id == w.receivers[i].id
      ensures |returned.receivers[i].headers| == |w.receivers[i].headers|
      ensures forall j :: 0 <= j < |w.receivers[i].headers| ==>
                returned.receivers[i].headers[j].name == w.receivers[i].headers[j].name
    {
      assert NormalizeReceiver(w.receivers[i]) == w.receivers[i];
      forall j | 0 <= j < |w.receivers[i].headers|
        ensures Trim(w.receivers[i].headers[j].name) == w.receivers[i].headers[j].name
      {
        assert NormalizeHeader(w.receivers[i].headers[j]) == w.receivers[i].headers[j];
      }
    }
  }

  lemma KeysComeBack(keys: map<string, AccessKey>)
    ensures MergeKeys(MapValues(WithoutPassword, keys), keys) == keys
  {
  }

  // ---------- the round trip ----------

  /** What the server has after merging a scoped save, before normalising it. */
  function MergedSave(stored: AdminData, o: Overrides): AdminData {
    var d := Received(Payload(Public(stored), o));
    MergeSensitive(WithTrimmedIdentities(d), stored)
  }

  lemma WechatComesBack(w: Wechat)
    requires StoredSecret(w.corpSecret)
    ensures MergeWechat(ReadWechat(MaskWechat(w)), w) == w
  {
    SecretComesBack(w.corpSecret);
  }

  lemma EmailComesBack(e: Email)
    requires StoredSecret(e.password)
    ensures MergeEmail(ReadEmail(MaskEmail(e)), e) == e
  {
    SecretComesBack(e.password);
  }

  lemma NotificationComesBack(tgbot: Option<Tgbot>, bark: Option<Bark>, wechat: Option<Wechat>, email: Option<Email>)
    requires tgbot.Some? ==> NormalizeTgbot(tgbot.value) == tgbot.value == ReadTgbot(tgbot.value)
    requires bark.Some? ==> StoredSecret(bark.value.deviceKey)
    requires wechat.Some? ==> StoredSecret(wechat.value.corpSecret)
    requires email.Some? ==> StoredSecret(email.value.password)
    ensures Merged(MergeTgbot, OptionMap(ReadTgbot, OptionMap(MaskTgbot, tgbot)), tgbot) == tgbot
    ensures Merged(MergeBark, OptionMap(ReadBark, OptionMap(MaskBark, bark)), bark) == bark
    ensures Merged(MergeWechat, OptionMap(ReadWechat, OptionMap(MaskWechat, wechat)), wechat) == wechat
    ensures Merged(MergeEmail, OptionMap(ReadEmail, OptionMap(MaskEmail, email)), email) == email
  {
    if tgbot.Some? { TgbotComesBack(tgbot.value); }
    if bark.Some? { BarkComesBack(bark.value); }
    if wechat.Some? { WechatComesBack(wechat.value); }
    if email.Some? { EmailComesBack(email.value); }
  }

  lemma StoredWebhookComesBack(stored: AdminData, read: nat, checks: Checks)
    requires Settled(stored, read, checks)
    ensures Merged(MergeWebhook, OptionMap(TrimIdentities, OptionMap(ReadWebhook, OptionMap(MaskWebhook, stored.webhook))), stored.webhook)
            == stored.webhook
  {
    if stored.webhook.Some? {
      assert Some(NormalizeWebhook(stored.webhook.value)) == stored.webhook;
      WebhookComesBack(stored.webhook.value, checks);
    }
  }

  /** The parts without secrets that are not overridden are back as stored. */
  predicate PlainComesBack(stored: AdminData, o: Overrides, d: AdminData) {
    && d.adminUser == stored.adminUser && d.passwordHash == stored.passwordHash && d.sessionVersion == stored.sessionVersion
    && d.installTokens == stored.installTokens
    && (o.deletedHosts.None? ==> d.deletedHosts == stored.deletedHosts)
    && (o.deletedAccessKeys.None? ==> d.deletedAccessKeys == stored.deletedAccessKeys)
    && (o.hosts.None? ==> d.hosts == stored.hosts)
    && (o.groups.None? ==> d.groups == stored.groups)
    && (o.serverGroups.None? ==> d.serverGroups == stored.serverGroups)
    && (o.alertRules.None? ==> d.alertRules == stored.alertRules)
    && (o.notificationGroups.None? ==> d.notificationGroups == stored.notificationGroups)
    && (o.adminPath.None? ==> d.adminPath == stored.adminPath)
    && (o.accessBaseUrl.None? ==> d.accessBaseUrl == stored.accessBaseUrl)
    && (o.agentBaseUrl.None? ==> d.agentBaseUrl == stored.agentBaseUrl)
    && (o.expireNotify.None? ==> d.expireNotify == stored.expireNotify)
    && (o.log.None? ==> d.log == stored.log)
  }

  /** So are the parts with secrets. */
  predicate SecretsComeBack(stored: AdminData, o: Overrides, d: AdminData) {
    && (o.accessKeys.None? ==> d.accessKeys == stored.accessKeys)
    && (o.tgbot.None? ==> d.tgbot == stored.tgbot)
    && (o.bark.None? ==> d.bark == stored.bark)
    && (o.wechat.None? ==> d.wechat == stored.wechat)
    && (o.email.None? ==> d.email == stored.email)
    && (o.webhook.None? ==> d.webhook == stored.webhook)
  }

  predicate ComesBack(stored: AdminData, o: Overrides, d: AdminData) {
    PlainComesBack(stored, o, d) && SecretsComeBack(stored, o, d)
  }

  /** What the merge makes of the parts with secrets that no override names. */
  predicate SecretsMerged(stored: AdminData, o: Overrides, d: AdminData) {
    && (o.accessKeys.None? ==> d.accessKeys == MergeKeys(MapValues(WithoutPassword, stored.accessKeys), stored.accessKeys))
    && (o.tgbot.None? ==> d.tgbot == Merged(MergeTgbot, OptionMap(ReadTgbot, OptionMap(MaskTgbot, stored.tgbot)), stored.tgbot))
    && (o.bark.None? ==> d.bark == Merged(MergeBark, OptionMap(ReadBark, OptionMap(MaskBark, stored.bark)), stored.bark))
    && (o.wechat.None? ==>
          d.wechat == Merged(MergeWechat, OptionMap(ReadWechat, OptionMap(MaskWechat, stored.wechat)), stored.wechat))
    && (o.email.None? ==> d.email == Merged(MergeEmail, OptionMap(ReadEmail, OptionMap(MaskEmail, stored.email)), stored.email))
    && (o.webhook.None? ==>
          d.webhook == Merged(MergeWebhook,
            OptionMap(TrimIdentities, OptionMap(ReadWebhook, OptionMap(MaskWebhook, stored.webhook))), stored.webhook))
  }

  lemma SaveMergesSecrets(stored: AdminData, o: Overrides)
    ensures SecretsMerged(stored, o, MergedSave(stored, o))
  {
  }

  lemma MergedSecretsComeBack(stored: AdminData, o: Overrides, d: AdminData, read: nat, checks: Checks)
    requires Settled(stored, read, checks) && SecretsMerged(stored, o, d)
    ensures SecretsComeBack(stored, o, d)
  {
    SettledParts(stored, read, checks);
    StoredWebhookComesBack(stored, read, checks);
    NotificationComesBack(stored.tgbot, stored.bark, stored.wechat, stored.email);
    KeysComeBack(stored.accessKeys);
  }

  lemma MergedPlainComesBack(stored: AdminData, o: Overrides)
    requires stored.adminPath != "" && !PathError(stored.adminPath)
    ensures PlainComesBack(stored, o, MergedSave(stored, o))
  {
  }

  lemma MergedSaveComesBack(stored: AdminData, o: Overrides, read: nat, checks: Checks)
    requires Settled(stored, read, checks)
    ensures ComesBack(stored, o, MergedSave(stored, o))
  {
    SettledPathIsNotEmpty(stored, read);
    MergedPlainComesBack(stored, o);
    SaveMergesSecrets(stored, o);
    MergedSecretsComeBack(stored, o, MergedSave(stored, o), read, checks);
  }

  lemma SettledPathIsNotEmpty(stored: AdminData, read: nat)
    requires Normalize(stored, read) == stored
    ensures stored.adminPath != ""
  {
    assert NormalizePath(stored.adminPath) == stored.adminPath;
  }

  /** The keys the override does not name are unchanged, but for what newly deleted hosts and keys take away. */
  predicate OnlyScopeChanged(stored: AdminData, o: Overrides, saved: AdminData, now: nat) {
    var deletedHosts, deletedKeys := Names(saved.deletedHosts), Names(saved.deletedAccessKeys);
    && saved.adminUser == stored.adminUser && saved.passwordHash == stored.passwordHash
    && saved.sessionVersion == stored.sessionVersion
    && saved.installTokens == UsableTokens(stored.installTokens, now)
    && (o.deletedHosts.None? ==> saved.deletedHosts == stored.deletedHosts)
    && (o.deletedAccessKeys.None? ==> saved.deletedAccessKeys == stored.deletedAccessKeys)
    && (o.hosts.None? ==> saved.hosts == Less(stored.hosts, deletedHosts))
    && (o.groups.None? ==> saved.groups == Less(stored.groups, deletedKeys))
    && (o.accessKeys.None? ==> saved.accessKeys == Less(stored.accessKeys, deletedKeys))
    && (o.serverGroups.None? ==> saved.serverGroups == GroupsWithout(deletedHosts, stored.serverGroups))
    && (o.alertRules.None? ==> saved.alertRules == RulesWithout(deletedHosts, stored.alertRules))
    && (o.notificationGroups.None? ==> saved.notificationGroups == stored.notificationGroups)
    && (o.adminPath.None? ==> saved.adminPath == stored.adminPath)
    && (o.accessBaseUrl.None? ==> saved.accessBaseUrl == stored.accessBaseUrl)
    && (o.agentBaseUrl.None? ==> saved.agentBaseUrl == stored.agentBaseUrl)
    && (o.expireNotify.None? ==> saved.expireNotify == stored.expireNotify)
    && (o.tgbot.None? ==> saved.tgbot == stored.tgbot)
    && (o.bark.None? ==> saved.bark == stored.bark)
    && (o.wechat.None? ==> saved.wechat == stored.wechat)
    && (o.email.None? ==> saved.email == stored.email)
    && (o.webhook.None? ==> saved.webhook == stored.webhook)
    && (o.log.None? ==> saved.log == stored.log)
  }

  /** Normalising leaves the settled parts alone, whatever it does to the others. */
  lemma NormalizeKeepsSettled(stored: AdminData, d: AdminData, read: nat, now: nat)
    requires Normalize(stored, read) == stored
    ensures var n := Normalize(d, now);
            var deletedHosts, deletedKeys := Names(n.deletedHosts), Names(n.deletedAccessKeys);
            && (d.hosts == stored.hosts ==> n.hosts == Less(stored.hosts, deletedHosts))
            && (d.groups == stored.groups ==> n.groups == Less(stored.groups, deletedKeys))
            && (d.accessKeys == stored.accessKeys ==> n.accessKeys == Less(stored.accessKeys, deletedKeys))
            && (d.serverGroups == stored.serverGroups ==> n.serverGroups == GroupsWithout(deletedHosts, stored.serverGroups))
            && (d.alertRules == stored.alertRules ==> n.alertRules == RulesWithout(deletedHosts, stored.alertRules))
  {
    var n := Normalize(d, now);
    SettledEntries(NormalizeNode, Names(stored.deletedHosts), stored.hosts, Names(n.deletedHosts));
    SettledEntries(NormalizeNode, Names(stored.deletedAccessKeys), stored.groups, Names(n.deletedAccessKeys));
    SettledEntries(NormalizeKey, Names(stored.deletedAccessKeys), stored.accessKeys, Names(n.deletedAccessKeys));
    SettledGroups(stored.serverGroups, Names(stored.deletedHosts));
    SettledRules(stored.alertRules, Names(stored.deletedHosts));
  }

  /** What a replacement stores, from the merged data. */
  function Finished(d: AdminData, now: nat): AdminData {
    TrimBaseUrls(Normalize(d, now))
  }

  lemma FinishedKeepsWhatCameBack(stored: AdminData, o: Overrides, d: AdminData, read: nat, now: nat, checks: Checks)
    requires Settled(stored, read, checks) && ComesBack(stored, o, d)
    ensures OnlyScopeChanged(stored, o, Finished(d, now), now)
  {
    NormalizeKeepsSettled(stored, d, read, now);
    assert Normalize(stored, read) == stored;
  }

  lemma SavedIsFinished(stored: AdminData, o: Overrides, now: nat, checks: Checks)
    requires ScopedSave(stored, o, now, checks).Ok?
    ensures ScopedSave(stored, o, now, checks).value == Finished(MergedSave(stored, o), now)
  {
    PreparedIs(Received(Payload(Public(stored), o)), stored, now, checks);
  }

  /**
  Frame: for settled stored data, a scoped save that the server accepts changes only the keys it overrides.
  Secrets that went out masked come back whole; credentials and the session version are untouched; expired
  install tokens are dropped.
  */
  lemma ScopedSaveChangesOnlyItsScope(stored: AdminData, o: Overrides, read: nat, now: nat, checks: Checks)
    requires Settled(stored, read, checks) && ScopedSave(stored, o, now, checks).Ok?
    ensures OnlyScopeChanged(stored, o, ScopedSave(stored, o, now, checks).value, now)
  {
    SavedIsFinished(stored, o, now, checks);
    MergedSaveComesBack(stored, o, read, checks);
    FinishedKeepsWhatCameBack(stored, o, MergedSave(stored, o), read, now, checks);
  }

  /** What the override names is stored as it was sent, normalised. */
  predicate ScopeIsStored(stored: AdminData, o: Overrides, saved: AdminData) {
    var deletedHosts, deletedKeys := Names(saved.deletedHosts), Names(saved.deletedAccessKeys);
    && (o.deletedHosts.Some? ==> saved.deletedHosts == NormalizedStrings(o.deletedHosts.value))
    && (o.deletedAccessKeys.Some? ==> saved.deletedAccessKeys == NormalizedStrings(o.deletedAccessKeys.value))
    && (o.hosts.Some? ==> saved.hosts == Entries(NormalizeNode, deletedHosts, o.hosts.value))
    && (o.groups.Some? ==> saved.groups == Entries(NormalizeNode, deletedKeys, o.groups.value))
    && (o.accessKeys.Some? ==>
          saved.accessKeys == Entries(NormalizeKey, deletedKeys, MergeKeys(o.accessKeys.value, stored.accessKeys)))
    && (o.serverGroups.Some? ==> saved.serverGroups == GroupsWithout(deletedHosts, Groups(o.serverGroups.value)))
    && (o.alertRules.Some? ==> saved.alertRules == RulesWithout(deletedHosts, Rules(o.alertRules.value)))
    && (o.notificationGroups.Some? ==> saved.notificationGroups == NotificationGroups(o.notificationGroups.value))
    && (o.adminPath.Some? ==> saved.adminPath == NormalizePath(o.adminPath.value))
    && (o.accessBaseUrl.Some? ==> saved.accessBaseUrl == NormalizeBaseUrl(o.accessBaseUrl.value))
    && (o.agentBaseUrl.Some? ==> saved.agentBaseUrl == NormalizeBaseUrl(o.agentBaseUrl.value))
    && (o.expireNotify.Some? ==> saved.expireNotify == o.expireNotify.value)
    && (o.log.Some? ==> saved.log == o.log.value)
    && NotifiersAreStored(o, saved)
  }

  /** A receiver is stored as it was sent, trimmed; its secrets are the business of `ReceiverEditHonoured`. */
  predicate ReceiverIsStored(next: Receiver, saved: Receiver) {
    && saved == NormalizeReceiver(next).(url := saved.url, password := saved.password, headers := saved.headers)
    && |saved.headers| == |next.headers|
    && forall j :: 0 <= j < |next.headers| ==> saved.headers[j].name == Trim(next.headers[j].name)
  }

  predicate WebhookIsStored(next: Webhook, saved: Webhook) {
    && saved == next.(receivers := saved.receivers) && |saved.receivers| == |next.receivers|
    && forall i :: 0 <= i < |next.receivers| ==> ReceiverIsStored(next.receivers[i], saved.receivers[i])
  }

  predicate TgbotIsStored(next: Tgbot, saved: Tgbot) {
    saved == next.(botToken := saved.botToken, chatId := saved.chatId)
  }

  predicate BarkIsStored(next: Bark, saved: Bark) {
    saved == next.(server := NormalizeBark(next).server, deviceKey := saved.deviceKey)
  }

  predicate WechatIsStored(next: Wechat, saved: Wechat) {
    saved == next.(corpId := Trim(next.corpId), agentId := Trim(next.agentId), title := Trim(next.title),
                   corpSecret := saved.corpSecret)
  }

  predicate EmailIsStored(next: Email, saved: Email) {
    saved == next.(server := Trim(next.server), username := Trim(next.username), to := Trim(next.to),
                   subject := Trim(next.subject), title := Trim(next.title), password := saved.password)
  }

  /** Every field of an overridden notifier that is not a secret. */
  predicate NotifiersAreStored(o: Overrides, saved: AdminData) {
    && (o.tgbot.Some? ==> (saved.tgbot.Some? <==> o.tgbot.value.Some?))
    && (o.bark.Some? ==> (saved.bark.Some? <==> o.bark.value.Some?))
    && (o.wechat.Some? ==> (saved.wechat.Some? <==> o.wechat.value.Some?))
    && (o.email.Some? ==> (saved.email.Some? <==> o.email.value.Some?))
    && (o.webhook.Some? ==> (saved.webhook.Some? <==> o.webhook.value.Some?))
    && (o.tgbot.Some? && o.tgbot.value.Some? ==> TgbotIsStored(o.tgbot.value.value, saved.tgbot.value))
    && (o.bark.Some? && o.bark.value.Some? ==> BarkIsStored(o.bark.value.value, saved.bark.value))
    && (o.wechat.Some? && o.wechat.value.Some? ==> WechatIsStored(o.wechat.value.value, saved.wechat.value))
    && (o.email.Some? && o.email.value.Some? ==> EmailIsStored(o.email.value.value, saved.email.value))
    && (o.webhook.Some? && o.webhook.value.Some? ==> WebhookIsStored(o.webhook.value.value, saved.webhook.value))
  }

  /** The other half: an accepted scoped save stores everything it overrides, and resets the notifiers it nulls. */
  lemma ScopedSaveStoresItsScope(stored: AdminData, o: Overrides, now: nat, checks: Checks)
    requires ScopedSave(stored, o, now, checks).Ok?
    ensures ScopeIsStored(stored, o, ScopedSave(stored, o, now, checks).value)
  {
    hide ScopedSave, ScopeIsStored;
    SavedIsFinished(stored, o, now, checks);
    FinishedStoresScope(stored, o, now);
  }

  lemma FinishedStoresScope(stored: AdminData, o: Overrides, now: nat)
    ensures ScopeIsStored(stored, o, Finished(MergedSave(stored, o), now))
  {
    hide NormalizedStrings, Groups, Rules, NotificationGroups, NormalizePath, NormalizeBaseUrl, MergeKeys, PathError,
         NotifiersAreStored;
    FinishedStoresNotifiers(stored, o, now);
  }

  lemma FinishedStoresNotifiers(stored: AdminData, o: Overrides, now: nat)
    ensures NotifiersAreStored(o, Finished(MergedSave(stored, o), now))
  {
    hide Finished, MergedSave, WebhookIsStored, TgbotIsStored, BarkIsStored, WechatIsStored, EmailIsStored;
    var d := MergedSave(stored, o);
    MergedOverrides(stored, o);
    FinishedParts(d, now);
    FinishedWebhook(d, now);
    if o.tgbot.Some? { StoredTgbotIs(o.tgbot.value, stored.tgbot); }
    if o.bark.Some? { StoredBarkIs(o.bark.value, stored.bark); }
    if o.wechat.Some? { StoredWechatIs(o.wechat.value, stored.wechat); }
    if o.email.Some? { StoredEmailIs(o.email.value, stored.email); }
    if o.webhook.Some? { StoredWebhookIs(o.webhook.value, stored.webhook); }
  }

  lemma StoredTgbotIs(next: Option<Tgbot>, prev: Option<Tgbot>)
    ensures var saved := OptionMap(NormalizeTgbot, Merged(MergeTgbot, OptionMap(ReadTgbot, next), prev));
            && (saved.Some? <==> next.Some?)
            && (next.Some? ==> TgbotIsStored(next.value, saved.value))
  {
  }

  lemma StoredBarkIs(next: Option<Bark>, prev: Option<Bark>)
    ensures var saved := OptionMap(NormalizeBark, Merged(MergeBark, OptionMap(ReadBark, next), prev));
            && (saved.Some? <==> next.Some?)
            && (next.Some? ==> BarkIsStored(next.value, saved.value))
  {
    hide SplitBarkServer, NormalizeSecret, MergeSecret;
  }

  lemma StoredWechatIs(next: Option<Wechat>, prev: Option<Wechat>)
    ensures var saved := OptionMap(NormalizeWechat, Merged(MergeWechat, OptionMap(ReadWechat, next), prev));
            && (saved.Some? <==> next.Some?)
            && (next.Some? ==> WechatIsStored(next.value, saved.value))
  {
    hide Trim, NormalizeSecret, MergeSecret;
  }

  lemma StoredEmailIs(next: Option<Email>, prev: Option<Email>)
    ensures var saved := OptionMap(NormalizeEmail, Merged(MergeEmail, OptionMap(ReadEmail, next), prev));
            && (saved.Some? <==> next.Some?)
            && (next.Some? ==> EmailIsStored(next.value, saved.value))
  {
    hide Trim, NormalizeSecret, MergeSecret;
  }

  lemma StoredReceiverIs(next: Receiver, prev: seq<Receiver>)
    ensures ReceiverIsStored(next, NormalizeReceiver(MergeReceiver(TrimReceiverId(ReadReceiver(next)), prev)))
  {
    hide Trim, NormalizeSecret, MergeSecret, FindReceiver, FindHeader;
    TrimIdempotent(next.id);
    var merged := MergeReceiver(TrimReceiverId(ReadReceiver(next)), prev);
    assert |merged.headers| == |next.headers|;
    forall j | 0 <= j < |next.headers|
      ensures Trim(merged.headers[j].name) == Trim(next.headers[j].name)
    {
      TrimIdempotent(next.headers[j].name);
    }
  }

  lemma StoredWebhookIs(next: Option<Webhook>, prev: Option<Webhook>)
    ensures var saved :=
              OptionMap(NormalizeWebhook, Merged(MergeWebhook, OptionMap(TrimIdentities, OptionMap(ReadWebhook, next)), prev));
            && (saved.Some? <==> next.Some?)
            && (next.Some? ==> WebhookIsStored(next.value, saved.value))
  {
    hide ReceiverIsStored, NormalizeReceiver, MergeReceiver, TrimReceiverId, ReadReceiver;
    if next.Some? {
      var receivers := if prev.Some? then prev.value.receivers else [];
      forall i | 0 <= i < |next.value.receivers|
        ensures ReceiverIsStored(
                  next.value.receivers[i],
                  NormalizeReceiver(MergeReceiver(TrimReceiverId(ReadReceiver(next.value.receivers[i])), receivers)))
      {
        StoredReceiverIs(next.value.receivers[i], receivers);
      }
      if prev.None? {
        NothingToMerge(MapAll(TrimReceiverId, MapAll(ReadReceiver, next.value.receivers)));
      }
    }
  }

  lemma NothingToMerge(next: seq<Receiver>)
    ensures MapAll(r => MergeReceiver(r, []), next) == next
  {
  }

  const NO_OVERRIDES := Overrides(
    None, None, None, None, None, None, None, None, None, None, None, None, None, None, None, None, None, None)

  /** Round trip: reading the settings out masked and sending them back unedited stores what was stored. */
  lemma UnchangedSaveStoresTheSame(stored: AdminData, read: nat, now: nat, checks: Checks)
    requires Settled(stored, read, checks)
    ensures ScopedSave(stored, NO_OVERRIDES, now, checks) ==
            Ok(stored.(installTokens := UsableTokens(stored.installTokens, now)))
  {
    var o := NO_OVERRIDES;
    var d := MergedSave(stored, o);
    MergedSaveComesBack(stored, o, read, checks);
    NothingIsLess(stored, read);
    NormalizeKeepsSettled(stored, d, read, now);
    if stored.webhook.Some? {
      assert Some(NormalizeWebhook(stored.webhook.value)) == stored.webhook;
      IdentitiesComeBack(stored.webhook.value, checks);
    }
    var saved := Normalize(d, now);
    assert saved == stored.(installTokens := UsableTokens(stored.installTokens, now));
  }

  lemma NothingIsLess(stored: AdminData, read: nat)
    requires Normalize(stored, read) == stored
    ensures Less(stored.hosts, Names(stored.deletedHosts)) == stored.hosts
    ensures Less(stored.groups, Names(stored.deletedAccessKeys)) == stored.groups
    ensures Less(stored.accessKeys, Names(stored.deletedAccessKeys)) == stored.accessKeys
    ensures GroupsWithout(Names(stored.deletedHosts), stored.serverGroups) == stored.serverGroups
    ensures RulesWithout(Names(stored.deletedHosts), stored.alertRules) == stored.alertRules
  {
    NormalizeKeepsSettled(stored, stored, read, read);
  }

  lemma DefaultPathIsAccepted()
    ensures NormalizePath("") == DEFAULT_ADMIN_PATH == NormalizePath(DEFAULT_ADMIN_PATH) && !PathError(DEFAULT_ADMIN_PATH)
  {
    var path := DEFAULT_ADMIN_PATH;
    assert path == ['/', 'a', 'd', 'm', 'i', 'n'] && path[|path| - 1] == 'n';
    TrimFixed(path);
    assert path[1..] == "admin" && |path[1..]| == 5;
    assert forall i :: 1 <= i < |path| ==> IsPathChar(path[i]);
    assert "admin"[0] == 'a' && "api"[0] == 'a' && |"api"| == 3;
  }

  /** Empty settings, as a fresh installation loads them, are settled. */
  lemma FreshSettingsAreSettled(now: nat, checks: Checks)
    ensures Settled(EMPTY_DATA.(adminPath := DEFAULT_ADMIN_PATH), now, checks)
    ensures Normalize(EMPTY_DATA, now) == EMPTY_DATA.(adminPath := DEFAULT_ADMIN_PATH)
  {
    hide NormalizePath, PathError;
    DefaultPathIsAccepted();
    assert Groups([]) == [] && Rules([]) == [] && NotificationGroups([]) == [] && NormalizedStrings([]) == [];
  }

  // ---------- what the public copy hides ----------

  predicate ReceiverHoldsNoSecrets(r: Receiver) {
    r.url.value == "" && r.password.value == "" && forall j :: 0 <= j < |r.headers| ==> r.headers[j].value.value == ""
  }

  predicate HoldsNoSecrets(d: AdminData) {
    && d.passwordHash.None? && d.installTokens == map[]
    && (forall gid :: gid in d.accessKeys ==> d.accessKeys[gid].password == "")
    && (d.tgbot.Some? ==> d.tgbot.value.botToken.value == "" && d.tgbot.value.chatId.value == "")
    && (d.bark.Some? ==> d.bark.value.deviceKey.value == "")
    && (d.wechat.Some? ==> d.wechat.value.corpSecret.value == "")
    && (d.email.Some? ==> d.email.value.password.value == "")
    && (d.webhook.Some? ==>
          forall i :: 0 <= i < |d.webhook.value.receivers| ==> ReceiverHoldsNoSecrets(d.webhook.value.receivers[i]))
  }

  lemma MaskedReceiverHoldsNoSecrets(r: Receiver)
    ensures ReceiverHoldsNoSecrets(MaskReceiver(r))
  {
  }

  /** The browser never sees a secret, so what comes back comes from the server's own copy. */
  lemma PublicHoldsNoSecrets(d: AdminData)
    ensures HoldsNoSecrets(Public(d))
  {
    hide ReceiverHoldsNoSecrets, MaskReceiver, PathError, IsConfigured;
    if d.webhook.Some? {
      var receivers := d.webhook.value.receivers;
      forall i | 0 <= i < |receivers|
        ensures ReceiverHoldsNoSecrets(MaskReceiver(receivers[i]))
      {
        MaskedReceiverHoldsNoSecrets(receivers[i]);
      }
    }
  }

  // ---------- edited secrets ----------

  /** A secret field edited in the browser: cleared on request, kept if left untyped, otherwise replaced. */
  predicate EditHonoured(next: Secret, prev: Secret, saved: Secret) {
    if next.clear then saved.clear && saved.value == ""
    else if Untyped(next.value) then saved.value == prev.value && saved.clear == prev.clear
    else saved.value == next.value && !saved.clear
  }

  lemma EditedSecret(next: Secret, prev: Secret)
    requires StoredSecret(prev)
    ensures EditHonoured(next, prev, NormalizeSecret(MergeSecret(ReadBack(next), prev)))
  {
  }

  /** The parts of the merged data that an override names. */
  lemma MergedOverrides(stored: AdminData, o: Overrides)
    ensures var d := MergedSave(stored, o);
            && (o.tgbot.Some? ==> d.tgbot == Merged(MergeTgbot, OptionMap(ReadTgbot, o.tgbot.value), stored.tgbot))
            && (o.bark.Some? ==> d.bark == Merged(MergeBark, OptionMap(ReadBark, o.bark.value), stored.bark))
            && (o.wechat.Some? ==> d.wechat == Merged(MergeWechat, OptionMap(ReadWechat, o.wechat.value), stored.wechat))
            && (o.email.Some? ==> d.email == Merged(MergeEmail, OptionMap(ReadEmail, o.email.value), stored.email))
            && (o.webhook.Some? ==>
                  d.webhook == Merged(MergeWebhook, OptionMap(TrimIdentities, OptionMap(ReadWebhook, o.webhook.value)), stored.webhook))
  {
  }

  predicate TgbotEditHonoured(next: Tgbot, prev: Tgbot, saved: Tgbot) {
    EditHonoured(next.botToken, prev.botToken, saved.botToken) && EditHonoured(next.chatId, prev.chatId, saved.chatId)
  }

  /** Bark may also take its key from the server URL, but only if no key is stored or typed. */
  predicate BarkEditHonoured(next: Bark, prev: Bark, saved: Bark) {
    EditHonoured(next.deviceKey, prev.deviceKey, saved.deviceKey)
    || (Untyped(next.deviceKey.value) && !next.deviceKey.clear && prev.deviceKey.value == "" && !prev.deviceKey.clear)
  }

  lemma TgbotEdit(next: Tgbot, prev: Tgbot)
    requires NormalizeTgbot(prev) == prev && ReadTgbot(prev) == prev
    ensures TgbotEditHonoured(next, prev, NormalizeTgbot(MergeTgbot(ReadTgbot(next), prev)))
  {
    EditedSecret(next.botToken, prev.botToken);
    EditedSecret(next.chatId, prev.chatId);
  }

  lemma {:induction false} SplitOncePrefixShorter(s: string, sep: char)
    ensures SplitOnce(s, sep).Some? ==> |SplitOnce(s, sep).value.0| < |s|
  {
    if s != "" && s[0] != sep {
      SplitOncePrefixShorter(s[1..], sep);
    }
  }

  lemma SplitBarkServerShorter(server: string)
    ensures SplitBarkServer(server).Some? ==> |SplitBarkServer(server).value.0| < |server|
  {
    var value := TrimSlashes(Trim(server));
    if HTTPS <= value {
      SplitOncePrefixShorter(value[|HTTPS|..], '/');
    } else if HTTP <= value {
      SplitOncePrefixShorter(value[|HTTP|..], '/');
    }
  }

  /** A normalised Bark server has no key left in its URL. */
  lemma StoredBarkKey(b: Bark)
    requires NormalizeBark(b) == b && ReadBark(b) == b
    ensures StoredSecret(b.deviceKey)
  {
    SplitBarkServerShorter(TrimSlashes(Trim(b.server)));
  }

  lemma BarkEdit(next: Bark, prev: Bark)
    requires StoredSecret(prev.deviceKey)
    ensures BarkEditHonoured(next, prev, NormalizeBark(MergeBark(ReadBark(next), prev)))
  {
    EditedSecret(next.deviceKey, prev.deviceKey);
  }

  lemma WechatEdit(next: Wechat, prev: Wechat)
    requires StoredSecret(prev.corpSecret)
    ensures EditHonoured(next.corpSecret, prev.corpSecret, NormalizeWechat(MergeWechat(ReadWechat(next), prev)).corpSecret)
  {
    EditedSecret(next.corpSecret, prev.corpSecret);
  }

  lemma EmailEdit(next: Email, prev: Email)
    requires StoredSecret(prev.password)
    ensures EditHonoured(next.password, prev.password, NormalizeEmail(MergeEmail(ReadEmail(next), prev)).password)
  {
    EditedSecret(next.password, prev.password);
  }

  /** The edits of one save, each honoured in what is stored. */
  predicate EditsHonoured(stored: AdminData, o: Overrides, saved: AdminData) {
    && (o.tgbot.Some? && o.tgbot.value.Some? && stored.tgbot.Some? ==>
          saved.tgbot.Some? && TgbotEditHonoured(o.tgbot.value.value, stored.tgbot.value, saved.tgbot.value))
    && (o.bark.Some? && o.bark.value.Some? && stored.bark.Some? ==>
          saved.bark.Some? && BarkEditHonoured(o.bark.value.value, stored.bark.value, saved.bark.value))
    && (o.wechat.Some? && o.wechat.value.Some? && stored.wechat.Some? ==>
          && saved.wechat.Some?
          && EditHonoured(o.wechat.value.value.corpSecret, stored.wechat.value.corpSecret, saved.wechat.value.corpSecret))
    && (o.email.Some? && o.email.value.Some? && stored.email.Some? ==>
          && saved.email.Some?
          && EditHonoured(o.email.value.value.password, stored.email.value.password, saved.email.value.password))
  }

  /** Overriding a notification setting loses none of its stored secrets unless the edit says so. */
  lemma OverriddenSecretsAreKept(stored: AdminData, o: Overrides, read: nat, now: nat, checks: Checks)
    requires Settled(stored, read, checks) && ScopedSave(stored, o, now, checks).Ok?
    ensures EditsHonoured(stored, o, ScopedSave(stored, o, now, checks).value)
  {
    SavedIsFinished(stored, o, now, checks);
    MergedOverrides(stored, o);
    FinishedParts(MergedSave(stored, o), now);
    SettledParts(stored, read, checks);
    if o.tgbot.Some? && o.tgbot.value.Some? && stored.tgbot.Some? { TgbotEdits(o.tgbot.value, stored.tgbot); }
    if o.bark.Some? && o.bark.value.Some? && stored.bark.Some? { BarkEdits(o.bark.value, stored.bark); }
    if o.wechat.Some? && o.wechat.value.Some? && stored.wechat.Some? { WechatEdits(o.wechat.value, stored.wechat); }
    if o.email.Some? && o.email.value.Some? && stored.email.Some? { EmailEdits(o.email.value, stored.email); }
  }

  lemma TgbotEdits(next: Option<Tgbot>, prev: Option<Tgbot>)
    requires next.Some? && prev.Some? && NormalizeTgbot(prev.value) == prev.value == ReadTgbot(prev.value)
    ensures var saved := OptionMap(NormalizeTgbot, Merged(MergeTgbot, OptionMap(ReadTgbot, next), prev));
            saved.Some? && TgbotEditHonoured(next.value, prev.value, saved.value)
  {
    TgbotEdit(next.value, prev.value);
  }

  lemma BarkEdits(next: Option<Bark>, prev: Option<Bark>)
    requires next.Some? && prev.Some? && StoredSecret(prev.value.deviceKey)
    ensures var saved := OptionMap(NormalizeBark, Merged(MergeBark, OptionMap(ReadBark, next), prev));
            saved.Some? && BarkEditHonoured(next.value, prev.value, saved.value)
  {
    BarkEdit(next.value, prev.value);
  }

  lemma WechatEdits(next: Option<Wechat>, prev: Option<Wechat>)
    requires next.Some? && prev.Some? && StoredSecret(prev.value.corpSecret)
    ensures var saved := OptionMap(NormalizeWechat, Merged(MergeWechat, OptionMap(ReadWechat, next), prev));
            saved.Some? && EditHonoured(next.value.corpSecret, prev.value.corpSecret, saved.value.corpSecret)
  {
    WechatEdit(next.value, prev.value);
  }

  lemma EmailEdits(next: Option<Email>, prev: Option<Email>)
    requires next.Some? && prev.Some? && StoredSecret(prev.value.password)
    ensures var saved := OptionMap(NormalizeEmail, Merged(MergeEmail, OptionMap(ReadEmail, next), prev));
            saved.Some? && EditHonoured(next.value.password, prev.value.password, saved.value.password)
  {
    EmailEdit(next.value, prev.value);
  }

  lemma FinishedParts(d: AdminData, now: nat)
    ensures Finished(d, now).tgbot == OptionMap(NormalizeTgbot, d.tgbot)
    ensures Finished(d, now).bark == OptionMap(NormalizeBark, d.bark)
    ensures Finished(d, now).wechat == OptionMap(NormalizeWechat, d.wechat)
    ensures Finished(d, now).email == OptionMap(NormalizeEmail, d.email)
  {
  }

  lemma SettledParts(stored: AdminData, read: nat, checks: Checks)
    requires Settled(stored, read, checks)
    ensures stored.tgbot.Some? ==> NormalizeTgbot(stored.tgbot.value) == stored.tgbot.value == ReadTgbot(stored.tgbot.value)
    ensures stored.bark.Some? ==> StoredSecret(stored.bark.value.deviceKey)
    ensures stored.wechat.Some? ==> StoredSecret(stored.wechat.value.corpSecret)
    ensures stored.email.Some? ==> StoredSecret(stored.email.value.password)
    ensures stored.webhook.Some? ==>
              && NormalizeWebhook(stored.webhook.value) == stored.webhook.value == ReadWebhook(stored.webhook.value)
              && ValidIdentities(stored.webhook.value, checks)
  {
    assert Normalize(stored, read) == stored;
    if stored.bark.Some? {
      assert NormalizeBark(stored.bark.value) == stored.bark.value == ReadBark(stored.bark.value);
      StoredBarkKey(stored.bark.value);
    }
    if stored.wechat.Some? {
      assert NormalizeWechat(stored.wechat.value) == stored.wechat.value == ReadWechat(stored.wechat.value);
    }
    if stored.email.Some? {
      assert NormalizeEmail(stored.email.value) == stored.email.value == ReadEmail(stored.email.value);
    }
  }

  // ---------- edited webhook receivers ----------

  /** Receivers keep the secrets of the stored receiver with their id, headers those of the stored header of that name. */
  predicate ReceiverEditHonoured(next: Receiver, prev: Receiver, saved: Receiver) {
    && EditHonoured(next.url.(value := if Untyped(next.url.value) then next.url.value else Trim(next.url.value)), prev.url, saved.url)
    && EditHonoured(next.password, prev.password, saved.password)
    && |saved.headers| == |next.headers|
    && forall j, k | 0 <= j < |next.headers| && 0 <= k < |prev.headers| ::
         Lower(Trim(next.headers[j].name)) == Lower(prev.headers[k].name) ==>
           EditHonoured(next.headers[j].value, prev.headers[k].value, saved.headers[j].value)
  }

  lemma HeaderEdit(next: Header, prev: seq<Header>, k: nat)
    requires k < |prev| && DistinctIds(HeaderKey, prev) && Lower(Trim(next.name)) == Lower(prev[k].name)
    requires MapAll(NormalizeHeader, prev) == prev && MapAll(ReadHeader, prev) == prev
    ensures EditHonoured(next.value, prev[k].value, NormalizeHeader(MergeHeader(TrimHeaderName(ReadHeader(next)), prev)).value)
  {
    forall j | 0 <= j < |prev|
      ensures Trim(prev[j].name) == prev[j].name && StoredSecret(prev[j].value)
    {
      assert NormalizeHeader(prev[j]) == prev[j] && ReadHeader(prev[j]) == prev[j];
    }
    HeaderFindsNamesake(prev, k, Trim(next.name));
    EditedSecret(next.value, prev[k].value);
  }

  lemma StoredReceiver(r: Receiver)
    requires NormalizeReceiver(r) == r && ReadReceiver(r) == r
    ensures StoredSecret(r.url) && StoredSecret(r.password) && Trim(r.id) == r.id && Trim(r.url.value) == r.url.value
    ensures MapAll(NormalizeHeader, r.headers) == r.headers && MapAll(ReadHeader, r.headers) == r.headers
  {
    TrimIdempotent(r.url.value);
  }

  lemma ReceiverEdit(next: Receiver, receivers: seq<Receiver>, i: nat)
    requires i < |receivers| && DistinctIds(ReceiverId, receivers) && Trim(next.id) == receivers[i].id
    requires MapAll(NormalizeReceiver, receivers) == receivers && MapAll(ReadReceiver, receivers) == receivers
    requires DistinctIds(HeaderKey, receivers[i].headers)
    ensures ReceiverEditHonoured(next, receivers[i], NormalizeReceiver(MergeReceiver(TrimReceiverId(ReadReceiver(next)), receivers)))
  {
    var prev := receivers[i];
    forall j | 0 <= j < |receivers|
      ensures NormalizeReceiver(receivers[j]) == receivers[j] && ReadReceiver(receivers[j]) == receivers[j]
    {
      assert MapAll(NormalizeReceiver, receivers)[j] == receivers[j];
      assert MapAll(ReadReceiver, receivers)[j] == receivers[j];
    }
    StoredReceiver(prev);
    ReceiverFindsItself(receivers, i);
    var sent := TrimReceiverId(ReadReceiver(next));
    var merged := MergeReceiver(sent, receivers);
    var saved := NormalizeReceiver(merged);
    EditedSecret(next.password, prev.password);
    UrlEdit(next.url, prev.url);
    forall j, k | 0 <= j < |next.headers| && 0 <= k < |prev.headers|
      && Lower(Trim(next.headers[j].name)) == Lower(prev.headers[k].name)
      ensures EditHonoured(next.headers[j].value, prev.headers[k].value, saved.headers[j].value)
    {
      HeaderEdit(next.headers[j], prev.headers, k);
      assert sent.headers[j] == TrimHeaderName(ReadHeader(next.headers[j]));
      assert saved.headers[j] == NormalizeHeader(MergeHeader(sent.headers[j], prev.headers));
    }
  }

  lemma UrlEdit(next: Secret, prev: Secret)
    requires StoredSecret(prev) && Trim(prev.value) == prev.value
    ensures var merged := MergeSecret(ReadBack(next), prev);
            EditHonoured(next.(value := if Untyped(next.value) then next.value else Trim(next.value)), prev,
                         NormalizeSecret(merged.(value := Trim(merged.value))))
  {
    TrimIdempotent(next.value);
  }

  /** Overriding the webhook keeps every secret of a stored receiver whose id is still there. */
  lemma OverriddenWebhookSecretsAreKept(
    stored: AdminData, o: Overrides, read: nat, now: nat, checks: Checks, i: nat, k: nat)
    requires Settled(stored, read, checks) && ScopedSave(stored, o, now, checks).Ok?
    requires o.webhook.Some? && o.webhook.value.Some? && stored.webhook.Some?
    requires i < |o.webhook.value.value.receivers| && k < |stored.webhook.value.receivers|
    requires Trim(o.webhook.value.value.receivers[i].id) == stored.webhook.value.receivers[k].id
    ensures var saved := ScopedSave(stored, o, now, checks).value;
            && saved.webhook.Some? && |saved.webhook.value.receivers| == |o.webhook.value.value.receivers|
            && ReceiverEditHonoured(
                 o.webhook.value.value.receivers[i], stored.webhook.value.receivers[k], saved.webhook.value.receivers[i])
  {
    SavedIsFinished(stored, o, now, checks);
    MergedOverrides(stored, o);
    SettledParts(stored, read, checks);
    WebhookEdit(o.webhook.value.value, stored.webhook.value, checks, i, k);
    FinishedWebhook(MergedSave(stored, o), now);
  }

  lemma FinishedWebhook(d: AdminData, now: nat)
    ensures Finished(d, now).webhook == OptionMap(NormalizeWebhook, d.webhook)
  {
  }

  lemma WebhookEdit(next: Webhook, prev: Webhook, checks: Checks, i: nat, k: nat)
    requires NormalizeWebhook(prev) == prev == ReadWebhook(prev) && ValidIdentities(prev, checks)
    requires i < |next.receivers| && k < |prev.receivers| && Trim(next.receivers[i].id) == prev.receivers[k].id
    ensures var saved := NormalizeWebhook(MergeWebhook(TrimIdentities(ReadWebhook(next)), prev));
            && |saved.receivers| == |next.receivers|
            && ReceiverEditHonoured(next.receivers[i], prev.receivers[k], saved.receivers[i])
  {
    ReceiverEdit(next.receivers[i], prev.receivers, k);
    var sent := TrimIdentities(ReadWebhook(next));
    assert sent.receivers[i] == TrimReceiverId(ReadReceiver(next.receivers[i]));
    var merged := MergeWebhook(sent, prev);
    assert merged.receivers[i] == MergeReceiver(sent.receivers[i], prev.receivers);
  }
}
