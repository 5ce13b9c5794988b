/**
Two pages save at once.  The transaction queue is per page, so one page may read, then the other may save, and
then the first posts what it has read: exactly which parts of the other's save are left.
*/
module StaleSaves {
  import opened Wrappers
  import opened Text
  import opened Settings
  import opened AdminNormalize
  import opened AdminReplace
  import opened SettingsRoundTrip
  import opened SettingsKeys
  import opened SettledSettings

  /** The answer to a post made from settings `read`, while the server has come to hold `meanwhile`. */
  function StaleSave(read: AdminData, o: Overrides, meanwhile: AdminData, now: nat, checks: Checks): Result<AdminData, ReplaceError> {
    Prepare(Received(Payload(Public(read), o)), meanwhile, now, checks)
  }

  /** The merged data of that post, before it is normalised. */
  function StaleMerge(read: AdminData, o: Overrides, meanwhile: AdminData): AdminData {
    MergeSensitive(WithTrimmedIdentities(Received(Payload(Public(read), o))), meanwhile)
  }

  lemma StaleIsFinished(read: AdminData, o: Overrides, meanwhile: AdminData, now: nat, checks: Checks)
    requires StaleSave(read, o, meanwhile, now, checks).Ok?
    ensures StaleSave(read, o, meanwhile, now, checks).value == Finished(StaleMerge(read, o, meanwhile), now)
  {
    hide Prepare, Normalize, MergeSensitive, Public, Payload, Received;
    PreparedIs(Received(Payload(Public(read), o)), meanwhile, now, checks);
  }

  // ---------- keys without secrets ----------

  predicate IsPlain(key: Key) {
    && !key.AccessKeysKey? && !key.TgbotKey? && !key.BarkKey? && !key.WechatKey? && !key.EmailKey? && !key.WebhookKey?
  }

  /** Merging secrets touches no plain key, whatever it merges with. */
  lemma MergeLeavesPlainKeys(d: AdminData, a: AdminData, b: AdminData, now: nat, key: Key)
    requires IsPlain(key)
    ensures SameAt(Finished(MergeSensitive(d, a), now), Finished(MergeSensitive(d, b), now), key)
  {
  }

  /** The post puts back every plain key out of its own scope as it was when it was read. */
  lemma StaleSaveRevertsPlainKeys(
    read: AdminData, o: Overrides, meanwhile: AdminData, readAt: nat, now: nat, checks: Checks, key: Key)
    requires Settled(read, readAt, checks) && IsPlain(key) && !InScope(o, key)
    requires StaleSave(read, o, meanwhile, now, checks).Ok?
    ensures SameAt(StaleSave(read, o, meanwhile, now, checks).value, read, key)
  {
    hide Prepare, Finished, MergeSensitive, Normalize, ValidData, Unmarked, PathError, IsPlain, ComesBack, InScope, SameAt,
         OnlyScopeChanged, Public, Payload, Received;
    StaleIsFinished(read, o, meanwhile, now, checks);
    MergeLeavesPlainKeys(WithTrimmedIdentities(Received(Payload(Public(read), o))), meanwhile, read, now, key);
    MergedSaveComesBack(read, o, readAt, checks);
    FinishedKeepsWhatCameBack(read, o, MergedSave(read, o), readAt, now, checks);
    KeptIsSame(read, o, Finished(MergedSave(read, o), now), readAt, now, key);
    SameAtTransitive(StaleSave(read, o, meanwhile, now, checks).value, Finished(MergedSave(read, o), now), read, key);
  }

  // ---------- secrets ----------

  const NO_SECRET := Secret("", false, false)

  /** What is stored for a secret nobody typed: the other page's, unless it was to be cleared when it was read. */
  function StaleSecret(read: Secret, meanwhile: Option<Secret>): Secret {
    if read.clear || meanwhile.None? then Secret("", read.clear, false) else meanwhile.value
  }

  lemma SentSecret(read: Secret, meanwhile: Secret)
    requires StoredSecret(meanwhile)
    ensures NormalizeSecret(MergeSecret(ReadBack(MaskSecret(read)), meanwhile)) == StaleSecret(read, Some(meanwhile))
    ensures NormalizeSecret(ReadBack(MaskSecret(read))) == StaleSecret(read, None)
  {
  }

  /** The other page's secret is left unless the first page had read the request to clear its own. */
  predicate SecretSurvives(read: Secret, meanwhile: Secret) {
    read.clear ==> meanwhile.clear
  }

  lemma StaleSecretExactlyWhen(read: Secret, meanwhile: Secret)
    requires StoredSecret(meanwhile)
    ensures StaleSecret(read, Some(meanwhile)) == meanwhile <==> SecretSurvives(read, meanwhile)
  {
  }

  // ---------- the Telegram, Bark, WeChat and mail settings ----------

  /** The fields without secrets are those that were read; the secrets are mostly the other page's. */
  function StaleTgbot(read: Tgbot, meanwhile: Option<Tgbot>): Tgbot {
    read.(botToken := StaleSecret(read.botToken, OptionMap((t: Tgbot) => t.botToken, meanwhile)),
          chatId := StaleSecret(read.chatId, OptionMap((t: Tgbot) => t.chatId, meanwhile)))
  }

  function StaleBark(read: Bark, meanwhile: Option<Bark>): Bark {
    read.(deviceKey := StaleSecret(read.deviceKey, OptionMap((b: Bark) => b.deviceKey, meanwhile)))
  }

  function StaleWechat(read: Wechat, meanwhile: Option<Wechat>): Wechat {
    read.(corpSecret := StaleSecret(read.corpSecret, OptionMap((w: Wechat) => w.corpSecret, meanwhile)))
  }

  function StaleEmail(read: Email, meanwhile: Option<Email>): Email {
    read.(password := StaleSecret(read.password, OptionMap((e: Email) => e.password, meanwhile)))
  }

  predicate TgbotSurvives(read: Tgbot, meanwhile: Tgbot) {
    && read == meanwhile.(botToken := read.botToken, chatId := read.chatId)
    && SecretSurvives(read.botToken, meanwhile.botToken) && SecretSurvives(read.chatId, meanwhile.chatId)
  }

  predicate BarkSurvives(read: Bark, meanwhile: Bark) {
    read == meanwhile.(deviceKey := read.deviceKey) && SecretSurvives(read.deviceKey, meanwhile.deviceKey)
  }

  predicate WechatSurvives(read: Wechat, meanwhile: Wechat) {
    read == meanwhile.(corpSecret := read.corpSecret) && SecretSurvives(read.corpSecret, meanwhile.corpSecret)
  }

  predicate EmailSurvives(read: Email, meanwhile: Email) {
    read == meanwhile.(password := read.password) && SecretSurvives(read.password, meanwhile.password)
  }

  lemma StaleTgbotIs(read: Tgbot, meanwhile: Option<Tgbot>)
    requires meanwhile.Some? ==> NormalizeTgbot(meanwhile.value) == meanwhile.value == ReadTgbot(meanwhile.value)
    ensures OptionMap(NormalizeTgbot, Merged(MergeTgbot, Some(ReadTgbot(MaskTgbot(read))), meanwhile))
            == Some(StaleTgbot(read, meanwhile))
  {
    hide NormalizeSecret, MergeSecret, MaskSecret, ReadBack, SecretSurvives, StaleSecret;
    if meanwhile.Some? {
      var m := meanwhile.value;
      StoredTgbotSecrets(m);
      SentSecret(read.botToken, m.botToken);
      SentSecret(read.chatId, m.chatId);
    } else {
      EmptyIsStored();
      SentSecret(read.botToken, NO_SECRET);
      SentSecret(read.chatId, NO_SECRET);
    }
  }

  lemma EmptyIsStored()
    ensures StoredSecret(NO_SECRET)
  {
  }

  lemma StoredTgbotSecrets(t: Tgbot)
    requires NormalizeTgbot(t) == t == ReadTgbot(t)
    ensures StoredSecret(t.botToken) && StoredSecret(t.chatId)
  {
    hide NormalizeSecret;
  }

  lemma StaleBarkIs(read: Bark, meanwhile: Option<Bark>)
    requires NormalizeBark(read) == read
    requires meanwhile.Some? ==> StoredSecret(meanwhile.value.deviceKey)
    ensures OptionMap(NormalizeBark, Merged(MergeBark, Some(ReadBark(MaskBark(read))), meanwhile))
            == Some(StaleBark(read, meanwhile))
  {
    hide NormalizeSecret, MergeSecret, MaskSecret, ReadBack, SecretSurvives, StaleSecret, StoredSecret, SplitBarkServer, NormalizeBark;
    SettledServer(read);
    if meanwhile.Some? {
      SentSecret(read.deviceKey, meanwhile.value.deviceKey);
      SameServer(read, MergeSecret(ReadBack(MaskSecret(read.deviceKey)), meanwhile.value.deviceKey));
    } else {
      EmptyIsStored();
      SentSecret(read.deviceKey, NO_SECRET);
      SameServer(read, ReadBack(MaskSecret(read.deviceKey)));
    }
  }

  lemma SettledServer(b: Bark)
    requires NormalizeBark(b) == b
    ensures TrimSlashes(Trim(b.server)) == b.server && SplitBarkServer(b.server).None?
  {
    SplitBarkServerShorter(TrimSlashes(Trim(b.server)));
  }

  lemma SameServer(b: Bark, key: Secret)
    requires TrimSlashes(Trim(b.server)) == b.server && SplitBarkServer(b.server).None?
    ensures NormalizeBark(b.(deviceKey := key)) == b.(deviceKey := NormalizeSecret(key))
  {
    hide NormalizeSecret;
  }

  lemma StaleWechatIs(read: Wechat, meanwhile: Option<Wechat>)
    requires NormalizeWechat(read) == read
    requires meanwhile.Some? ==> StoredSecret(meanwhile.value.corpSecret)
    ensures OptionMap(NormalizeWechat, Merged(MergeWechat, Some(ReadWechat(MaskWechat(read))), meanwhile))
            == Some(StaleWechat(read, meanwhile))
  {
    hide NormalizeSecret, MergeSecret, MaskSecret, ReadBack, SecretSurvives, StaleSecret, StoredSecret, Trim;
    if meanwhile.Some? {
      SentSecret(read.corpSecret, meanwhile.value.corpSecret);
    } else {
      EmptyIsStored();
      SentSecret(read.corpSecret, NO_SECRET);
    }
  }

  lemma StaleEmailIs(read: Email, meanwhile: Option<Email>)
    requires NormalizeEmail(read) == read
    requires meanwhile.Some? ==> StoredSecret(meanwhile.value.password)
    ensures OptionMap(NormalizeEmail, Merged(MergeEmail, Some(ReadEmail(MaskEmail(read))), meanwhile))
            == Some(StaleEmail(read, meanwhile))
  {
    hide NormalizeSecret, MergeSecret, MaskSecret, ReadBack, SecretSurvives, StaleSecret, StoredSecret, Trim;
    if meanwhile.Some? {
      SentSecret(read.password, meanwhile.value.password);
    } else {
      EmptyIsStored();
      SentSecret(read.password, NO_SECRET);
    }
  }

  lemma TgbotSurvivesExactlyWhen(read: Tgbot, meanwhile: Tgbot)
    requires NormalizeTgbot(meanwhile) == meanwhile == ReadTgbot(meanwhile)
    ensures StaleTgbot(read, Some(meanwhile)) == meanwhile <==> TgbotSurvives(read, meanwhile)
  {
    StoredTgbotSecrets(meanwhile);
    StaleSecretExactlyWhen(read.botToken, meanwhile.botToken);
    StaleSecretExactlyWhen(read.chatId, meanwhile.chatId);
  }

  lemma BarkSurvivesExactlyWhen(read: Bark, meanwhile: Bark)
    requires StoredSecret(meanwhile.deviceKey)
    ensures StaleBark(read, Some(meanwhile)) == meanwhile <==> BarkSurvives(read, meanwhile)
  {
    StaleSecretExactlyWhen(read.deviceKey, meanwhile.deviceKey);
  }

  lemma WechatSurvivesExactlyWhen(read: Wechat, meanwhile: Wechat)
    requires StoredSecret(meanwhile.corpSecret)
    ensures StaleWechat(read, Some(meanwhile)) == meanwhile <==> WechatSurvives(read, meanwhile)
  {
    StaleSecretExactlyWhen(read.corpSecret, meanwhile.corpSecret);
  }

  lemma EmailSurvivesExactlyWhen(read: Email, meanwhile: Email)
    requires StoredSecret(meanwhile.password)
    ensures StaleEmail(read, Some(meanwhile)) == meanwhile <==> EmailSurvives(read, meanwhile)
  {
    StaleSecretExactlyWhen(read.password, meanwhile.password);
  }

  // ---------- the webhook ----------

  function StaleHeader(read: Header, meanwhile: seq<Header>): Header {
    read.(value := StaleSecret(read.value, OptionMap((h: Header) => h.value, FindHeader(meanwhile, read.name))))
  }

  /** The other page's receiver of that id, if there is one, lends its secrets. */
  function StaleReceiver(read: Receiver, meanwhile: seq<Receiver>): Receiver {
    var found := FindReceiver(meanwhile, read.id);
    var headers := if found.Some? then found.value.headers else [];
    read.(url := StaleSecret(read.url, OptionMap((r: Receiver) => r.url, found)),
          password := StaleSecret(read.password, OptionMap((r: Receiver) => r.password, found)),
          headers := MapAll(h => StaleHeader(h, headers), read.headers))
  }

  function StaleReceivers(read: seq<Receiver>, meanwhile: seq<Receiver>): seq<Receiver> {
    MapAll(r => StaleReceiver(r, meanwhile), read)
  }

  function StaleWebhook(read: Webhook, meanwhile: Option<Webhook>): Webhook {
    read.(receivers := StaleReceivers(read.receivers, if meanwhile.Some? then meanwhile.value.receivers else []))
  }

  predicate HeaderSurvives(read: Header, meanwhile: Header) {
    read.name == meanwhile.name && SecretSurvives(read.value, meanwhile.value)
  }

  predicate ReceiverSurvives(read: Receiver, meanwhile: Receiver) {
    && read == meanwhile.(url := read.url, password := read.password, headers := read.headers)
    && SecretSurvives(read.url, meanwhile.url) && SecretSurvives(read.password, meanwhile.password)
    && |read.headers| == |meanwhile.headers|
    && forall j :: 0 <= j < |read.headers| ==> HeaderSurvives(read.headers[j], meanwhile.headers[j])
  }

  predicate WebhookSurvives(read: Webhook, meanwhile: Webhook) {
    && read == meanwhile.(receivers := read.receivers) && |read.receivers| == |meanwhile.receivers|
    && forall i :: 0 <= i < |read.receivers| ==> ReceiverSurvives(read.receivers[i], meanwhile.receivers[i])
  }

  predicate StoredHeaders(headers: seq<Header>) {
    forall j :: 0 <= j < |headers| ==> Trim(headers[j].name) == headers[j].name && StoredSecret(headers[j].value)
  }

  predicate StoredUrl(s: Secret) {
    StoredSecret(s) && Trim(s.value) == s.value
  }

  /** Receivers as the server stores them. */
  predicate StoredReceivers(receivers: seq<Receiver>) {
    forall i :: 0 <= i < |receivers| ==>
      && Trim(receivers[i].id) == receivers[i].id && StoredUrl(receivers[i].url) && StoredSecret(receivers[i].password)
      && StoredHeaders(receivers[i].headers) && DistinctIds(HeaderKey, receivers[i].headers)
  }

  lemma SettledReceivers(w: Webhook, checks: Checks)
    requires NormalizeWebhook(w) == w == ReadWebhook(w) && ValidIdentities(w, checks)
    ensures StoredReceivers(w.receivers) && DistinctIds(ReceiverId, w.receivers)
  {
    hide NormalizeReceiver, ReadReceiver;
    forall i | 0 <= i < |w.receivers|
      ensures Trim(w.receivers[i].id) == w.receivers[i].id && StoredUrl(w.receivers[i].url)
      ensures StoredSecret(w.receivers[i].password) && StoredHeaders(w.receivers[i].headers)
    {
      assert NormalizeReceiver(w.receivers[i]) == w.receivers[i] == ReadReceiver(w.receivers[i]);
      StoredReceiver(w.receivers[i]);
      SettledHeaders(w.receivers[i].headers);
    }
  }

  lemma SettledHeaders(headers: seq<Header>)
    requires MapAll(NormalizeHeader, headers) == headers && MapAll(ReadHeader, headers) == headers
    ensures StoredHeaders(headers)
  {
    hide NormalizeSecret, Trim;
    forall j | 0 <= j < |headers|
      ensures NormalizeHeader(headers[j]) == headers[j] == ReadHeader(headers[j])
    {
    }
  }

  lemma {:induction false} FoundHeader(headers: seq<Header>, name: string)
    ensures var h := FindHeader(headers, name); h.Some? ==> h.value in headers
  {
    if headers != [] {
      FoundHeader(headers[1..], name);
    }
  }

  lemma {:induction false} FoundReceiver(receivers: seq<Receiver>, id: string)
    ensures var r := FindReceiver(receivers, id); r.Some? ==> r.value in receivers
  {
    if receivers != [] {
      FoundReceiver(receivers[1..], id);
    }
  }

  lemma SentHeader(read: Header, meanwhile: seq<Header>)
    requires Trim(read.name) == read.name && StoredHeaders(meanwhile)
    ensures NormalizeHeader(MergeHeader(ReturnedHeader(read), meanwhile)) == StaleHeader(read, meanwhile)
  {
    hide NormalizeSecret, MergeSecret, MaskSecret, ReadBack, StaleSecret, StoredSecret, Trim, FindHeader;
    FoundHeader(meanwhile, read.name);
    var found := FindHeader(meanwhile, read.name);
    if found.Some? {
      SentSecret(read.value, found.value.value);
    } else {
      EmptyIsStored();
      SentSecret(read.value, NO_SECRET);
    }
  }

  lemma SentUrl(read: Secret, meanwhile: Secret)
    requires StoredUrl(meanwhile)
    ensures var merged := MergeSecret(ReadBack(MaskSecret(read)), meanwhile);
            NormalizeSecret(merged.(value := Trim(merged.value))) == StaleSecret(read, Some(meanwhile))
    ensures var sent := ReadBack(MaskSecret(read)); NormalizeSecret(sent.(value := Trim(sent.value))) == StaleSecret(read, None)
  {
  }

  lemma SentHeaders(read: seq<Header>, meanwhile: seq<Header>)
    requires StoredHeaders(read) && StoredHeaders(meanwhile)
    ensures MapAll(NormalizeHeader, MapAll(h => MergeHeader(h, meanwhile), MapAll(ReturnedHeader, read)))
            == MapAll(h => StaleHeader(h, meanwhile), read)
  {
    hide NormalizeHeader, MergeHeader, ReturnedHeader, StaleHeader, StoredSecret;
    forall j | 0 <= j < |read|
      ensures NormalizeHeader(MergeHeader(ReturnedHeader(read[j]), meanwhile)) == StaleHeader(read[j], meanwhile)
    {
      SentHeader(read[j], meanwhile);
    }
  }

  lemma ReturnedHeaders(r: Receiver)
    ensures Returned(r).headers == MapAll(ReturnedHeader, r.headers)
  {
  }

  lemma SentReceiver(read: Receiver, meanwhile: seq<Receiver>)
    requires StoredReceivers(meanwhile) && StoredHeaders(read.headers) && NormalizeReceiver(read) == read
    ensures NormalizeReceiver(MergeReceiver(Returned(read), meanwhile)) == StaleReceiver(read, meanwhile)
  {
    hide NormalizeSecret, MergeSecret, MaskSecret, ReadBack, StaleSecret, StoredSecret, Trim, FindReceiver, StoredUrl, StoredHeaders,
         NormalizeHeader, MergeHeader, StaleHeader, MaskHeader, ReadHeader, TrimHeaderName;
    ReturnedHeaders(read);
    FoundReceiver(meanwhile, read.id);
    var found := FindReceiver(meanwhile, read.id);
    if found.Some? {
      SentUrl(read.url, found.value.url);
      SentSecret(read.password, found.value.password);
      SentHeaders(read.headers, found.value.headers);
    } else {
      EmptyUrlIsStored();
      SentUrl(read.url, NO_SECRET);
      SentSecret(read.password, NO_SECRET);
      SentHeaders(read.headers, []);
      NoHeadersToMerge(MapAll(ReturnedHeader, read.headers));
    }
  }

  lemma EmptyUrlIsStored()
    ensures StoredUrl(NO_SECRET) && StoredSecret(NO_SECRET) && StoredHeaders([])
  {
  }

  lemma NoHeadersToMerge(headers: seq<Header>)
    ensures MapAll(h => MergeHeader(h, []), headers) == headers
  {
  }

  lemma SentReceivers(read: seq<Receiver>, meanwhile: seq<Receiver>)
    requires StoredReceivers(meanwhile) && StoredReceivers(read) && MapAll(NormalizeReceiver, read) == read
    ensures MapAll(NormalizeReceiver, MapAll(r => MergeReceiver(r, meanwhile), MapAll(Returned, read))) == StaleReceivers(read, meanwhile)
  {
    hide NormalizeReceiver, MergeReceiver, Returned, StaleReceiver, StoredHeaders, StoredSecret, StoredUrl;
    forall i | 0 <= i < |read|
      ensures NormalizeReceiver(MergeReceiver(Returned(read[i]), meanwhile)) == StaleReceiver(read[i], meanwhile)
    {
      assert NormalizeReceiver(read[i]) == read[i];
      SentReceiver(read[i], meanwhile);
    }
  }

  lemma ReturnedReceivers(w: Webhook)
    ensures TrimIdentities(ReadWebhook(MaskWebhook(w))) == w.(receivers := MapAll(Returned, w.receivers))
  {
    hide MaskReceiver, ReadReceiver, TrimReceiverId;
  }

  lemma StaleWebhookIs(read: Webhook, meanwhile: Option<Webhook>)
    requires NormalizeWebhook(read) == read && StoredReceivers(read.receivers)
    requires meanwhile.Some? ==> StoredReceivers(meanwhile.value.receivers)
    ensures OptionMap(NormalizeWebhook, Merged(MergeWebhook, Some(TrimIdentities(ReadWebhook(MaskWebhook(read)))), meanwhile))
            == Some(StaleWebhook(read, meanwhile))
  {
    hide NormalizeReceiver, MergeReceiver, Returned, StaleReceivers, StoredReceivers, TrimIdentities, ReadWebhook, MaskWebhook;
    ReturnedReceivers(read);
    var receivers := if meanwhile.Some? then meanwhile.value.receivers else [];
    if meanwhile.None? {
      NoReceiversStored();
      NothingToMerge(MapAll(Returned, read.receivers));
    }
    SentReceivers(read.receivers, receivers);
  }

  lemma NoReceiversStored()
    ensures StoredReceivers([])
  {
  }

  lemma HeaderSurvivesExactlyWhen(read: Header, meanwhile: seq<Header>, j: nat)
    requires j < |meanwhile| && StoredHeaders(meanwhile) && DistinctIds(HeaderKey, meanwhile)
    ensures StaleHeader(read, meanwhile) == meanwhile[j] <==> HeaderSurvives(read, meanwhile[j])
  {
    hide NormalizeSecret, SecretSurvives, StaleSecret, Trim, FindHeader;
    if read.name == meanwhile[j].name {
      HeaderFindsNamesake(meanwhile, j, read.name);
      StaleSecretExactlyWhen(read.value, meanwhile[j].value);
    }
  }

  lemma ReceiverSurvivesExactlyWhen(read: Receiver, meanwhile: seq<Receiver>, i: nat)
    requires i < |meanwhile| && StoredReceivers(meanwhile) && DistinctIds(ReceiverId, meanwhile)
    ensures StaleReceiver(read, meanwhile) == meanwhile[i] <==> ReceiverSurvives(read, meanwhile[i])
  {
    hide SecretSurvives, StaleSecret, Trim, FindReceiver, StaleHeader, StoredHeaders, StoredSecret, HeaderSurvives;
    var m := meanwhile[i];
    if read.id == m.id {
      ReceiverFindsItself(meanwhile, i);
      StaleSecretExactlyWhen(read.url, m.url);
      StaleSecretExactlyWhen(read.password, m.password);
      if |read.headers| == |m.headers| {
        forall j | 0 <= j < |read.headers|
          ensures StaleHeader(read.headers[j], m.headers) == m.headers[j] <==> HeaderSurvives(read.headers[j], m.headers[j])
        {
          HeaderSurvivesExactlyWhen(read.headers[j], m.headers, j);
        }
      }
    }
  }

  lemma WebhookSurvivesExactlyWhen(read: Webhook, meanwhile: Webhook)
    requires StoredReceivers(meanwhile.receivers) && DistinctIds(ReceiverId, meanwhile.receivers)
    ensures StaleWebhook(read, Some(meanwhile)) == meanwhile <==> WebhookSurvives(read, meanwhile)
  {
    hide StaleReceiver, ReceiverSurvives, StoredReceivers;
    if |read.receivers| == |meanwhile.receivers| {
      forall i | 0 <= i < |read.receivers|
        ensures StaleReceiver(read.receivers[i], meanwhile.receivers) == meanwhile.receivers[i]
                <==> ReceiverSurvives(read.receivers[i], meanwhile.receivers[i])
      {
        ReceiverSurvivesExactlyWhen(read.receivers[i], meanwhile.receivers, i);
      }
    }
  }

  // ---------- access keys ----------

  /** The password comes from the other page's key, else from the key this one was copied from. */
  function StaleKey(gid: string, read: AccessKey, meanwhile: map<string, AccessKey>): AccessKey {
    read.(password :=
            if gid in meanwhile then meanwhile[gid].password
            else if read.sourceGid != "" && read.sourceGid in meanwhile then meanwhile[read.sourceGid].password
            else "")
  }

  function StaleKeys(read: map<string, AccessKey>, meanwhile: map<string, AccessKey>): map<string, AccessKey> {
    map gid | gid in read :: StaleKey(gid, read[gid], meanwhile)
  }

  /** The keys are the same but for their passwords. */
  predicate KeysSurvive(read: map<string, AccessKey>, meanwhile: map<string, AccessKey>) {
    MapValues(WithoutPassword, read) == MapValues(WithoutPassword, meanwhile)
  }

  lemma SentKey(gid: string, read: AccessKey, meanwhile: map<string, AccessKey>)
    requires NormalizeKey(read) == read
    requires forall k :: k in meanwhile ==> NormalizeKey(meanwhile[k]) == meanwhile[k]
    ensures NormalizeKey(MergeKey(gid, WithoutPassword(read), meanwhile)) == StaleKey(gid, read, meanwhile)
  {
    hide NormalizeBilling;
    TrimFixed("");
    if gid in meanwhile {
      assert NormalizeKey(meanwhile[gid]) == meanwhile[gid];
    } else if read.sourceGid in meanwhile {
      assert NormalizeKey(meanwhile[read.sourceGid]) == meanwhile[read.sourceGid];
    }
  }

  lemma SettledKeys(names: set<string>, keys: map<string, AccessKey>)
    requires Entries(NormalizeKey, names, keys) == keys
    ensures forall k :: k in keys ==> NormalizeKey(keys[k]) == keys[k] && !Blank(k) && k !in names
  {
    hide NormalizeKey, Blank;
    forall k | k in keys
      ensures NormalizeKey(keys[k]) == keys[k] && !Blank(k) && k !in names
    {
      assert k in Entries(NormalizeKey, names, keys);
    }
  }

  lemma StaleKeysAre(names: set<string>, read: map<string, AccessKey>, meanwhile: map<string, AccessKey>, names': set<string>)
    requires Entries(NormalizeKey, names, read) == read && Entries(NormalizeKey, names', meanwhile) == meanwhile
    ensures Entries(NormalizeKey, names, MergeKeys(MapValues(WithoutPassword, read), meanwhile)) == StaleKeys(read, meanwhile)
  {
    hide NormalizeKey, MergeKey, WithoutPassword, StaleKey, Blank;
    SettledKeys(names, read);
    SettledKeys(names', meanwhile);
    forall gid | gid in read
      ensures NormalizeKey(MergeKey(gid, WithoutPassword(read[gid]), meanwhile)) == StaleKey(gid, read[gid], meanwhile)
    {
      SentKey(gid, read[gid], meanwhile);
    }
  }

  lemma KeysSurviveExactlyWhen(read: map<string, AccessKey>, meanwhile: map<string, AccessKey>)
    ensures StaleKeys(read, meanwhile) == meanwhile <==> KeysSurvive(read, meanwhile)
  {
    if StaleKeys(read, meanwhile) == meanwhile {
      forall gid | gid in read
        ensures gid in meanwhile && WithoutPassword(read[gid]) == WithoutPassword(meanwhile[gid])
      {
        assert gid in StaleKeys(read, meanwhile);
      }
      assert meanwhile.Keys == StaleKeys(read, meanwhile).Keys == read.Keys;
    }
    if KeysSurvive(read, meanwhile) {
      assert read.Keys == MapValues(WithoutPassword, read).Keys == MapValues(WithoutPassword, meanwhile).Keys == meanwhile.Keys;
      forall gid | gid in read
        ensures StaleKey(gid, read[gid], meanwhile) == meanwhile[gid]
      {
        assert MapValues(WithoutPassword, read)[gid] == MapValues(WithoutPassword, meanwhile)[gid];
      }
    }
  }

  // ---------- the stale save ----------

  function StaleOption<T>(stale: (T, Option<T>) -> T, read: Option<T>, meanwhile: Option<T>): Option<T> {
    if read.Some? then Some(stale(read.value, meanwhile)) else None
  }

  predicate SurvivesOption<T>(survives: (T, T) -> bool, read: Option<T>, meanwhile: Option<T>) {
    && (read.Some? <==> meanwhile.Some?) && (read.Some? && meanwhile.Some? ==> survives(read.value, meanwhile.value))
  }

  lemma StaleTgbotOption(read: Option<Tgbot>, meanwhile: Option<Tgbot>)
    requires meanwhile.Some? ==> NormalizeTgbot(meanwhile.value) == meanwhile.value == ReadTgbot(meanwhile.value)
    ensures OptionMap(NormalizeTgbot, Merged(MergeTgbot, OptionMap(ReadTgbot, OptionMap(MaskTgbot, read)), meanwhile))
            == StaleOption(StaleTgbot, read, meanwhile)
  {
    if read.Some? {
      hide NormalizeTgbot, MergeTgbot, ReadTgbot, MaskTgbot, StaleTgbot, StoredSecret;
      StaleTgbotIs(read.value, meanwhile);
    }
  }

  lemma StaleBarkOption(read: Option<Bark>, meanwhile: Option<Bark>)
    requires (read.Some? ==> NormalizeBark(read.value) == read.value) && (meanwhile.Some? ==> StoredSecret(meanwhile.value.deviceKey))
    ensures OptionMap(NormalizeBark, Merged(MergeBark, OptionMap(ReadBark, OptionMap(MaskBark, read)), meanwhile))
            == StaleOption(StaleBark, read, meanwhile)
  {
    if read.Some? {
      hide NormalizeBark, MergeBark, ReadBark, MaskBark, StaleBark, StoredSecret;
      StaleBarkIs(read.value, meanwhile);
    }
  }

  lemma StaleWechatOption(read: Option<Wechat>, meanwhile: Option<Wechat>)
    requires (read.Some? ==> NormalizeWechat(read.value) == read.value) && (meanwhile.Some? ==> StoredSecret(meanwhile.value.corpSecret))
    ensures OptionMap(NormalizeWechat, Merged(MergeWechat, OptionMap(ReadWechat, OptionMap(MaskWechat, read)), meanwhile))
            == StaleOption(StaleWechat, read, meanwhile)
  {
    if read.Some? {
      hide NormalizeWechat, MergeWechat, ReadWechat, MaskWechat, StaleWechat, StoredSecret;
      StaleWechatIs(read.value, meanwhile);
    }
  }

  lemma StaleEmailOption(read: Option<Email>, meanwhile: Option<Email>)
    requires (read.Some? ==> NormalizeEmail(read.value) == read.value) && (meanwhile.Some? ==> StoredSecret(meanwhile.value.password))
    ensures OptionMap(NormalizeEmail, Merged(MergeEmail, OptionMap(ReadEmail, OptionMap(MaskEmail, read)), meanwhile))
            == StaleOption(StaleEmail, read, meanwhile)
  {
    if read.Some? {
      hide NormalizeEmail, MergeEmail, ReadEmail, MaskEmail, StaleEmail, StoredSecret;
      StaleEmailIs(read.value, meanwhile);
    }
  }

  lemma StaleWebhookOption(read: Option<Webhook>, meanwhile: Option<Webhook>, checks: Checks)
    requires forall w :: w == read || w == meanwhile ==>
               (w.Some? ==> NormalizeWebhook(w.value) == w.value == ReadWebhook(w.value) && ValidIdentities(w.value, checks))
    ensures OptionMap(NormalizeWebhook,
              Merged(MergeWebhook, OptionMap(TrimIdentities, OptionMap(ReadWebhook, OptionMap(MaskWebhook, read))), meanwhile))
            == StaleOption(StaleWebhook, read, meanwhile)
  {
    hide NormalizeWebhook, MergeWebhook, ReadWebhook, MaskWebhook, TrimIdentities, StaleWebhook, StoredReceivers,
         ValidIdentities, DistinctIds;
    if meanwhile.Some? { SettledReceivers(meanwhile.value, checks); }
    if read.Some? {
      SettledReceivers(read.value, checks);
      StaleWebhookIs(read.value, meanwhile);
    }
  }

  /** What the keys with secrets hold after the stale save, if it does not name them. */
  predicate SecretsAreStale(read: AdminData, o: Overrides, meanwhile: AdminData, saved: AdminData) {
    && (!InScope(o, AccessKeysKey) ==> saved.accessKeys == StaleKeys(read.accessKeys, meanwhile.accessKeys))
    && (o.tgbot.None? ==> saved.tgbot == StaleOption(StaleTgbot, read.tgbot, meanwhile.tgbot))
    && (o.bark.None? ==> saved.bark == StaleOption(StaleBark, read.bark, meanwhile.bark))
    && (o.wechat.None? ==> saved.wechat == StaleOption(StaleWechat, read.wechat, meanwhile.wechat))
    && (o.email.None? ==> saved.email == StaleOption(StaleEmail, read.email, meanwhile.email))
    && (o.webhook.None? ==> saved.webhook == StaleOption(StaleWebhook, read.webhook, meanwhile.webhook))
  }

  lemma SentParts(read: AdminData, o: Overrides)
    ensures var d := WithTrimmedIdentities(Received(Payload(Public(read), o)));
            && (o.accessKeys.None? ==> d.accessKeys == MapValues(WithoutPassword, read.accessKeys))
            && (o.deletedAccessKeys.None? ==> d.deletedAccessKeys == read.deletedAccessKeys)
            && (o.tgbot.None? ==> d.tgbot == OptionMap(ReadTgbot, OptionMap(MaskTgbot, read.tgbot)))
            && (o.bark.None? ==> d.bark == OptionMap(ReadBark, OptionMap(MaskBark, read.bark)))
            && (o.wechat.None? ==> d.wechat == OptionMap(ReadWechat, OptionMap(MaskWechat, read.wechat)))
            && (o.email.None? ==> d.email == OptionMap(ReadEmail, OptionMap(MaskEmail, read.email)))
            && (o.webhook.None? ==>
                  d.webhook == OptionMap(TrimIdentities, OptionMap(ReadWebhook, OptionMap(MaskWebhook, read.webhook))))
  {
  }

  lemma FinishedKeys(d: AdminData, meanwhile: AdminData, now: nat)
    ensures Finished(MergeSensitive(d, meanwhile), now).accessKeys ==
            Entries(NormalizeKey, Names(NormalizedStrings(d.deletedAccessKeys)), MergeKeys(d.accessKeys, meanwhile.accessKeys))
  {
  }

  lemma SettledSecrets(d: AdminData, at: nat, checks: Checks)
    requires Settled(d, at, checks)
    ensures NormalizedStrings(d.deletedAccessKeys) == d.deletedAccessKeys
    ensures Entries(NormalizeKey, Names(d.deletedAccessKeys), d.accessKeys) == d.accessKeys
    ensures d.bark.Some? ==> NormalizeBark(d.bark.value) == d.bark.value
    ensures d.wechat.Some? ==> NormalizeWechat(d.wechat.value) == d.wechat.value
    ensures d.email.Some? ==> NormalizeEmail(d.email.value) == d.email.value
  {
    assert Normalize(d, at) == d;
  }

  /** What the post stores under the keys with secrets, secret by secret. */
  lemma StaleSaveMixesSecrets(
    read: AdminData, o: Overrides, meanwhile: AdminData, readAt: nat, otherAt: nat, now: nat, checks: Checks)
    requires Settled(read, readAt, checks) && Settled(meanwhile, otherAt, checks)
    requires StaleSave(read, o, meanwhile, now, checks).Ok?
    ensures SecretsAreStale(read, o, meanwhile, StaleSave(read, o, meanwhile, now, checks).value)
  {
    hide StaleSave, Settled, MergeSensitive, Finished, WithTrimmedIdentities, Received, Payload, Public, NormalizedStrings, Entries,
         StaleKeys, StaleOption, OptionMap, Merged, MergeKeys, MapValues, NormalizeTgbot, ReadTgbot, NormalizeBark, NormalizeWechat,
         NormalizeEmail, NormalizeWebhook, ReadWebhook, StoredSecret, ValidIdentities;
    var d := WithTrimmedIdentities(Received(Payload(Public(read), o)));
    var m := MergeSensitive(d, meanwhile);
    StaleIsFinished(read, o, meanwhile, now, checks);
    SentParts(read, o);
    MergedParts(d, meanwhile);
    FinishedParts(m, now);
    FinishedWebhook(m, now);
    FinishedKeys(d, meanwhile, now);
    SettledParts(meanwhile, otherAt, checks);
    SettledParts(read, readAt, checks);
    SettledSecrets(read, readAt, checks);
    SettledSecrets(meanwhile, otherAt, checks);
    StaleKeysAre(Names(read.deletedAccessKeys), read.accessKeys, meanwhile.accessKeys, Names(meanwhile.deletedAccessKeys));
    StaleTgbotOption(read.tgbot, meanwhile.tgbot);
    StaleBarkOption(read.bark, meanwhile.bark);
    StaleWechatOption(read.wechat, meanwhile.wechat);
    StaleEmailOption(read.email, meanwhile.email);
    StaleWebhookOption(read.webhook, meanwhile.webhook, checks);
  }

  /** What the other page saved under a key is left: keys without secrets were as they were, and so on per secret. */
  predicate Survives(read: AdminData, meanwhile: AdminData, key: Key) {
    match key
    case AccessKeysKey => KeysSurvive(read.accessKeys, meanwhile.accessKeys)
    case TgbotKey => SurvivesOption(TgbotSurvives, read.tgbot, meanwhile.tgbot)
    case BarkKey => SurvivesOption(BarkSurvives, read.bark, meanwhile.bark)
    case WechatKey => SurvivesOption(WechatSurvives, read.wechat, meanwhile.wechat)
    case EmailKey => SurvivesOption(EmailSurvives, read.email, meanwhile.email)
    case WebhookKey => SurvivesOption(WebhookSurvives, read.webhook, meanwhile.webhook)
    case _ => SameAt(read, meanwhile, key)
  }

  lemma SecretsSurviveExactlyWhen(
    read: AdminData, o: Overrides, meanwhile: AdminData, saved: AdminData, otherAt: nat, checks: Checks, key: Key)
    requires Settled(meanwhile, otherAt, checks) && SecretsAreStale(read, o, meanwhile, saved)
    requires !IsPlain(key) && !InScope(o, key)
    ensures SameAt(saved, meanwhile, key) <==> Survives(read, meanwhile, key)
  {
    hide Settled, StaleKeys, KeysSurvive, StaleTgbot, StaleBark, StaleWechat, StaleEmail, StaleWebhook, TgbotSurvives, BarkSurvives,
         WechatSurvives, EmailSurvives, WebhookSurvives, StoredSecret, StoredReceivers, NormalizeTgbot, ReadTgbot, NormalizeWebhook,
         ReadWebhook, ValidIdentities, DistinctIds;
    SettledParts(meanwhile, otherAt, checks);
    KeysSurviveExactlyWhen(read.accessKeys, meanwhile.accessKeys);
    if read.tgbot.Some? && meanwhile.tgbot.Some? { TgbotSurvivesExactlyWhen(read.tgbot.value, meanwhile.tgbot.value); }
    if read.bark.Some? && meanwhile.bark.Some? { BarkSurvivesExactlyWhen(read.bark.value, meanwhile.bark.value); }
    if read.wechat.Some? && meanwhile.wechat.Some? { WechatSurvivesExactlyWhen(read.wechat.value, meanwhile.wechat.value); }
    if read.email.Some? && meanwhile.email.Some? { EmailSurvivesExactlyWhen(read.email.value, meanwhile.email.value); }
    if read.webhook.Some? && meanwhile.webhook.Some? {
      SettledReceivers(meanwhile.webhook.value, checks);
      WebhookSurvivesExactlyWhen(read.webhook.value, meanwhile.webhook.value);
    }
  }

  /**
  The main result.  The other page's save under a key out of this one's scope is left by the stale post if and only
  if it had changed nothing there but secrets, and had not undone a request to clear one.
  */
  lemma OtherSaveSurvivesExactlyWhen(
    read: AdminData, o: Overrides, meanwhile: AdminData, readAt: nat, otherAt: nat, now: nat, checks: Checks, key: Key)
    requires Settled(read, readAt, checks) && Settled(meanwhile, otherAt, checks) && !InScope(o, key)
    requires StaleSave(read, o, meanwhile, now, checks).Ok?
    ensures SameAt(StaleSave(read, o, meanwhile, now, checks).value, meanwhile, key) <==> Survives(read, meanwhile, key)
  {
    hide StaleSave, Settled, SecretsAreStale, SameAt, InScope, KeysSurvive, SurvivesOption;
    if IsPlain(key) {
      var saved := StaleSave(read, o, meanwhile, now, checks).value;
      StaleSaveRevertsPlainKeys(read, o, meanwhile, readAt, now, checks, key);
      SameAtTransitive(saved, read, meanwhile, key);
      SameAtTransitive(read, saved, meanwhile, key);
    } else {
      StaleSaveMixesSecrets(read, o, meanwhile, readAt, otherAt, now, checks);
      SecretsSurviveExactlyWhen(read, o, meanwhile, StaleSave(read, o, meanwhile, now, checks).value, otherAt, checks, key);
    }
  }

  // ---------- one lost update ----------

  const FRESH := EMPTY_DATA.(adminPath := DEFAULT_ADMIN_PATH)

  /** One page sets the address for visitors, the other the address for agents. */
  const ONE_SAVE := NO_OVERRIDES.(accessBaseUrl := Some("a"))
  const OTHER_SAVE := NO_OVERRIDES.(agentBaseUrl := Some("b"))

  predicate NoNotifiers(d: AdminData) {
    d.tgbot.None? && d.bark.None? && d.wechat.None? && d.email.None? && d.webhook.None? && d.log.None?
  }

  lemma PlainPrepareIsAccepted(d: AdminData, stored: AdminData, now: nat, checks: Checks)
    requires NoNotifiers(d) && d.adminPath == DEFAULT_ADMIN_PATH
    ensures Prepare(d, stored, now, checks).Ok?
  {
    hide NormalizePath, PathError;
    DefaultPathIsAccepted();
  }

  lemma ExamplePayload(settings: AdminData, o: Overrides)
    requires o == ONE_SAVE || o == OTHER_SAVE
    requires NoNotifiers(settings) && settings.adminPath == DEFAULT_ADMIN_PATH
    ensures var d := Received(Payload(Public(settings), o)); NoNotifiers(d) && d.adminPath == DEFAULT_ADMIN_PATH
  {
    hide PathError;
    DefaultPathIsAccepted();
  }

  lemma PlainUrl(c: char)
    requires c == 'a' || c == 'b'
    ensures NormalizeBaseUrl([c]) == [c]
  {
    TrimFixed([c]);
  }

  /**
  For instance: both pages read the settings of a fresh installation, one stores the address "a" for visitors, the
  other then the address "b" for agents; both are accepted, the address for visitors is empty again.
  */
  lemma StaleSaveLosesAnUpdate(now: nat, checks: Checks)
    ensures Settled(FRESH, now, checks) && ScopedSave(FRESH, ONE_SAVE, now, checks).Ok?
    ensures var meanwhile := ScopedSave(FRESH, ONE_SAVE, now, checks).value;
            && meanwhile.accessBaseUrl == "a" && Settled(meanwhile, now, checks)
            && StaleSave(FRESH, OTHER_SAVE, meanwhile, now, checks).Ok?
            && StaleSave(FRESH, OTHER_SAVE, meanwhile, now, checks).value.accessBaseUrl == ""
  {
    hide Prepare, Settled, OnlyScopeChanged, NormalizePath, PathError, Received, Payload, Public, NormalizeBaseUrl, NormalizeBark;
    FreshSettingsAreSettled(now, checks);
    ExamplePayload(FRESH, ONE_SAVE);
    ExamplePayload(FRESH, OTHER_SAVE);
    PlainPrepareIsAccepted(Received(Payload(Public(FRESH), ONE_SAVE)), FRESH, now, checks);
    ScopedSaveStoresItsScope(FRESH, ONE_SAVE, now, checks);
    PlainUrl('a');
    assert "a" == ['a'];
    ScopedSaveStaysSettled(FRESH, ONE_SAVE, now, now, checks);
    var meanwhile := ScopedSave(FRESH, ONE_SAVE, now, checks).value;
    PlainPrepareIsAccepted(Received(Payload(Public(FRESH), OTHER_SAVE)), meanwhile, now, checks);
    StaleSaveRevertsPlainKeys(FRESH, OTHER_SAVE, meanwhile, now, now, checks, AccessBaseUrlKey);
  }
}
