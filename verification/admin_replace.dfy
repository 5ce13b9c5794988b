/** Reading the settings out masked, and replacing them with an edited copy. */
module AdminReplace {
  import opened Wrappers
  import opened Text
  import opened Settings
  import opened AdminNormalize

  // ---------- the public copy ----------

  function MaskTgbot(t: Tgbot): Tgbot {
    t.(botToken := MaskSecret(t.botToken), chatId := MaskSecret(t.chatId))
  }

  function MaskBark(b: Bark): Bark {
    b.(deviceKey := MaskSecret(b.deviceKey))
  }

  function MaskWechat(w: Wechat): Wechat {
    w.(corpSecret := MaskSecret(w.corpSecret))
  }

  function MaskEmail(e: Email): Email {
    e.(password := MaskSecret(e.password))
  }

  function MaskHeader(h: Header): Header {
    h.(value := MaskSecret(h.value))
  }

  function MaskReceiver(r: Receiver): Receiver {
    r.(url := MaskSecret(r.url), password := MaskSecret(r.password), headers := MapAll(MaskHeader, r.headers))
  }

  function MaskWebhook(w: Webhook): Webhook {
    w.(receivers := MapAll(MaskReceiver, w.receivers))
  }

  function WithoutPassword(k: AccessKey): AccessKey {
    k.(password := "")
  }

  function MapValues<V>(f: V -> V, m: map<string, V>): map<string, V> {
    map k | k in m :: f(m[k])
  }

  /** `public_admin_data`: no password hash, session version, tokens or secrets. */
  function Public(d: AdminData): AdminData {
    d.(adminPath := if PathError(d.adminPath) then DEFAULT_ADMIN_PATH else d.adminPath,
       passwordHash := None,
       sessionVersion := 0,
       accessKeys := MapValues(WithoutPassword, d.accessKeys),
       tgbot := OptionMap(MaskTgbot, d.tgbot),
       bark := OptionMap(MaskBark, d.bark),
       wechat := OptionMap(MaskWechat, d.wechat),
       email := OptionMap(MaskEmail, d.email),
       webhook := OptionMap(MaskWebhook, d.webhook),
       installTokens := map[])
  }

  // ---------- validation ----------

  /** Parsers of other libraries: templates, URLs, addresses, header names and values. */
  datatype Checks = Checks(
    template: string -> bool, httpUrl: string -> bool, relay: string -> bool, address: string -> bool,
    recipients: string -> bool, headerName: string -> bool, headerValue: string -> bool, usesLoader: string -> bool)

  predicate IsPathChar(c: char) {
    IsAsciiAlphanumeric(c) || c == '_' || c == '-'
  }

  const RESERVED_PATHS: set<string> := {"api", "static", "report", "json", "detail", "map", "i", "admin.html", "index.html"}

  predicate PathError(path: string) {
    var p := Trim(path);
    || p == "" || p == "/" || |p| > 64 || p[0] != '/'
    || p[1..] == "" || (exists i :: 1 <= i < |p| && !IsPathChar(p[i])) || p[1..] in RESERVED_PATHS
  }

  predicate StableId(id: string) {
    && id != "" && IsAsciiAlphanumeric(id[0]) && |id| <= 64
    && forall i :: 1 <= i < |id| ==> IsAsciiAlphanumeric(id[i]) || id[i] == '-' || id[i] == '_'
  }

  function ReceiverId(r: Receiver): string { r.id }
  function HeaderKey(h: Header): string { Lower(h.name) }

  predicate ValidIdentities(w: Webhook, checks: Checks) {
    && DistinctIds(ReceiverId, w.receivers)
    && forall i :: 0 <= i < |w.receivers| ==>
         var r := w.receivers[i];
         && StableId(r.id)
         && DistinctIds(HeaderKey, r.headers)
         && forall j :: 0 <= j < |r.headers| ==> r.headers[j].name != "" && checks.headerName(r.headers[j].name)
  }

  predicate ValidTemplates(templates: seq<string>, checks: Checks) {
    forall t :: t in templates && t != "" ==> checks.template(t)
  }

  predicate ValidEmail(e: Email, checks: Checks) {
    && (e.server != "" ==> checks.relay(e.server)) && (e.username != "" ==> checks.address(e.username))
    && (e.to != "" ==> checks.recipients(e.to)) && ValidTemplates(e.templates, checks)
  }

  predicate ValidReceiver(r: Receiver, checks: Checks) {
    && r.name != "" && 1 <= r.timeout <= 60
    && (if r.url.value != "" then checks.httpUrl(r.url.value) else !r.enabled)
    && (if r.bodyTemplate != "" then checks.template(r.bodyTemplate) else !r.enabled)
    && forall j :: 0 <= j < |r.headers| && r.headers[j].value.value != "" ==> checks.headerValue(r.headers[j].value.value)
  }

  predicate ValidWebhook(w: Webhook, checks: Checks) {
    ValidIdentities(w, checks) && forall i :: 0 <= i < |w.receivers| ==> ValidReceiver(w.receivers[i], checks)
  }

  predicate ValidLog(l: Log, checks: Checks) {
    && (l.enabled ==> !Blank(l.template)) && (l.template != "" ==> checks.template(l.template))
    && !checks.usesLoader(l.template)
  }

  predicate ValidData(d: AdminData, checks: Checks) {
    && (d.wechat.Some? ==> ValidTemplates(d.wechat.value.templates, checks))
    && (d.email.Some? ==> ValidEmail(d.email.value, checks))
    && (d.webhook.Some? ==> ValidWebhook(d.webhook.value, checks))
    && (d.log.Some? ==> ValidLog(d.log.value, checks))
  }

  // ---------- merging the edited copy with what is stored ----------

  function Merged<T>(merge: (T, T) -> T, next: Option<T>, prev: Option<T>): Option<T> {
    if next.Some? && prev.Some? then Some(merge(next.value, prev.value)) else next
  }

  function MergeTgbot(next: Tgbot, prev: Tgbot): Tgbot {
    next.(botToken := MergeSecret(next.botToken, prev.botToken), chatId := MergeSecret(next.chatId, prev.chatId))
  }

  function MergeBark(next: Bark, prev: Bark): Bark {
    next.(deviceKey := MergeSecret(next.deviceKey, prev.deviceKey))
  }

  function MergeWechat(next: Wechat, prev: Wechat): Wechat {
    next.(corpSecret := MergeSecret(next.corpSecret, prev.corpSecret))
  }

  function MergeEmail(next: Email, prev: Email): Email {
    next.(password := MergeSecret(next.password, prev.password))
  }

  /** The first stored header of that name, in any letter case. */
  function FindHeader(headers: seq<Header>, name: string): Option<Header> {
    if headers == [] then None
    else if Lower(Trim(headers[0].name)) == Lower(name) then Some(headers[0])
    else FindHeader(headers[1..], name)
  }

  function MergeHeader(next: Header, prev: seq<Header>): Header {
    match FindHeader(prev, next.name)
    case None => next
    case Some(header) => next.(value := MergeSecret(next.value, header.value))
  }

  /** The first stored receiver with that id. */
  function FindReceiver(receivers: seq<Receiver>, id: string): Option<Receiver> {
    if receivers == [] then None
    else if Trim(receivers[0].id) == id then Some(receivers[0])
    else FindReceiver(receivers[1..], id)
  }

  function MergeReceiver(next: Receiver, prev: seq<Receiver>): Receiver {
    match FindReceiver(prev, next.id)
    case None => next
    case Some(receiver) =>
      next.(url := MergeSecret(next.url, receiver.url),
            password := MergeSecret(next.password, receiver.password),
            headers := MapAll(h => MergeHeader(h, receiver.headers), next.headers))
  }

  function MergeWebhook(next: Webhook, prev: Webhook): Webhook {
    next.(receivers := MapAll(r => MergeReceiver(r, prev.receivers), next.receivers))
  }

  method MergeWebhookSecrets(next: Webhook, prev: Webhook) returns (r: Webhook)
    ensures r == MergeWebhook(next, prev)
  {
    var receivers := [];
    for i := 0 to |next.receivers|
      invariant |receivers| == i && forall k :: 0 <= k < i ==> receivers[k] == MergeReceiver(next.receivers[k], prev.receivers)
    {
      var receiver := next.receivers[i];
      var found := FindReceiver(prev.receivers, receiver.id);
      if found.Some? {
        var headers := MergeHeaders(receiver.headers, found.value.headers);
        receiver := receiver.(url := MergeSecret(receiver.url, found.value.url),
                              password := MergeSecret(receiver.password, found.value.password),
                              headers := headers);
      }
      receivers := receivers + [receiver];
    }
    assert receivers == MapAll(r => MergeReceiver(r, prev.receivers), next.receivers);
    r := next.(receivers := receivers);
  }

  method MergeHeaders(next: seq<Header>, prev: seq<Header>) returns (r: seq<Header>)
    ensures r == MapAll(h => MergeHeader(h, prev), next)
  {
    r := [];
    for i := 0 to |next|
      invariant |r| == i && forall k :: 0 <= k < i ==> r[k] == MergeHeader(next[k], prev)
    {
      var header := next[i];
      var found := FindHeader(prev, header.name);
      if found.Some? && !header.value.clear && (Blank(header.value.value) || IsMask(header.value.value)) {
        header := header.(value := header.value.(value := found.value.value.value, clear := found.value.value.clear));
      }
      r := r + [header];
    }
    assert r == MapAll(h => MergeHeader(h, prev), next);
  }

  /** A key sent back without its password keeps the stored one, or takes that of the key it was copied from. */
  function MergeKey(gid: string, key: AccessKey, stored: map<string, AccessKey>): AccessKey {
    if !Blank(key.password) then key
    else if gid in stored then key.(password := stored[gid].password)
    else if !Blank(key.sourceGid) && Trim(key.sourceGid) in stored then key.(password := stored[Trim(key.sourceGid)].password)
    else key
  }

  function MergeKeys(keys: map<string, AccessKey>, stored: map<string, AccessKey>): map<string, AccessKey> {
    map gid | gid in keys :: MergeKey(gid, keys[gid], stored)
  }

  /** `merge_sensitive_fields`. */
  function MergeSensitive(d: AdminData, stored: AdminData): AdminData {
    d.(adminUser := stored.adminUser,
       passwordHash := stored.passwordHash,
       sessionVersion := stored.sessionVersion,
       installTokens := stored.installTokens,
       tgbot := Merged(MergeTgbot, d.tgbot, stored.tgbot),
       bark := Merged(MergeBark, d.bark, stored.bark),
       wechat := Merged(MergeWechat, d.wechat, stored.wechat),
       email := Merged(MergeEmail, d.email, stored.email),
       webhook := Merged(MergeWebhook, d.webhook, stored.webhook),
       accessKeys := MergeKeys(d.accessKeys, stored.accessKeys))
  }

  // ---------- replacing ----------

  function TrimHeaderName(h: Header): Header {
    h.(name := Trim(h.name))
  }

  function TrimReceiverId(r: Receiver): Receiver {
    r.(id := Trim(r.id), headers := MapAll(TrimHeaderName, r.headers))
  }

  function TrimIdentities(w: Webhook): Webhook {
    w.(receivers := MapAll(TrimReceiverId, w.receivers))
  }

  datatype ReplaceError = InvalidIdentities | InvalidPath | InvalidData | WriteFailed

  function TrimBaseUrls(d: AdminData): AdminData {
    d.(accessBaseUrl := NormalizeBaseUrl(d.accessBaseUrl), agentBaseUrl := NormalizeBaseUrl(d.agentBaseUrl))
  }

  /** The last checks of a replacement. */
  function Accept(d: AdminData, checks: Checks): Result<AdminData, ReplaceError> {
    if PathError(d.adminPath) then Err(InvalidPath)
    else if !ValidData(d, checks) then Err(InvalidData)
    else Ok(TrimBaseUrls(d))
  }

  function WithTrimmedIdentities(d: AdminData): AdminData {
    d.(webhook := OptionMap(TrimIdentities, d.webhook))
  }

  /** `prepare_replacement`, at time `now`. */
  function Prepare(d: AdminData, stored: AdminData, now: nat, checks: Checks): Result<AdminData, ReplaceError> {
    var trimmed := WithTrimmedIdentities(d);
    if trimmed.webhook.Some? && !ValidIdentities(trimmed.webhook.value, checks) then Err(InvalidIdentities)
    else Accept(Normalize(MergeSensitive(trimmed, stored), now), checks)
  }

  lemma AcceptedIsTrimmed(d: AdminData, checks: Checks)
    requires Accept(d, checks).Ok?
    ensures Accept(d, checks).value == TrimBaseUrls(d)
  {
  }

  /** An accepted replacement is the merged data, normalised. */
  lemma PreparedIs(d: AdminData, stored: AdminData, now: nat, checks: Checks)
    requires Prepare(d, stored, now, checks).Ok?
    ensures Prepare(d, stored, now, checks).value ==
            TrimBaseUrls(Normalize(MergeSensitive(WithTrimmedIdentities(d), stored), now))
  {
    AcceptedIsTrimmed(Normalize(MergeSensitive(WithTrimmedIdentities(d), stored), now), checks);
  }

  /** A valid path is left alone by normalising. */
  lemma ValidPathIsNormal(path: string)
    requires !PathError(path) && Trim(path) == path
    ensures NormalizePath(path) == path
  {
    var last := |path| - 1;
    assert path[1..] != "" && IsPathChar(path[last]) && path[last] != '/';
    assert TrimSlashes(path) == path;
  }

  lemma NormalizedPathIsTrimmed(path: string)
    ensures Trim(NormalizePath(path)) == NormalizePath(path)
  {
    var trimmed := Trim(TrimSlashes(Trim(path)));
    TrimIdempotent(TrimSlashes(Trim(path)));
    if trimmed == "" {
      TrimFixed(DEFAULT_ADMIN_PATH);
    } else {
      TrimFixed("/" + trimmed);
    }
  }
}
