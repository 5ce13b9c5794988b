/** Settled settings: what normalising twice changes, and why accepted settings are left alone by it. */
module SettledSettings {
  import opened Wrappers
  import opened Text
  import opened Settings
  import opened AdminNormalize
  import opened AdminReplace
  import opened SettingsRoundTrip

  // ---------- part by part ----------

  lemma SecretTwice(s: Secret)
    ensures NormalizeSecret(NormalizeSecret(s)) == NormalizeSecret(s)
  {
  }

  lemma TgbotTwice(t: Tgbot)
    ensures NormalizeTgbot(NormalizeTgbot(t)) == NormalizeTgbot(t)
  {
    hide NormalizeSecret;
    SecretTwice(t.botToken);
    SecretTwice(t.chatId);
  }

  lemma WechatTwice(w: Wechat)
    ensures NormalizeWechat(NormalizeWechat(w)) == NormalizeWechat(w)
  {
    hide NormalizeSecret, Trim;
    SecretTwice(w.corpSecret);
    TrimIdempotent(w.corpId);
    TrimIdempotent(w.agentId);
    TrimIdempotent(w.title);
  }

  lemma EmailTwice(e: Email)
    ensures NormalizeEmail(NormalizeEmail(e)) == NormalizeEmail(e)
  {
    hide NormalizeSecret, Trim;
    SecretTwice(e.password);
    TrimIdempotent(e.server);
    TrimIdempotent(e.username);
    TrimIdempotent(e.to);
    TrimIdempotent(e.subject);
    TrimIdempotent(e.title);
  }

  lemma TrimmedSecretTwice(s: Secret)
    ensures var once := NormalizeSecret(s.(value := Trim(s.value)));
            NormalizeSecret(once.(value := Trim(once.value))) == once
  {
    TrimIdempotent(s.value);
  }

  lemma HeaderTwice(h: Header)
    ensures NormalizeHeader(NormalizeHeader(h)) == NormalizeHeader(h)
  {
    hide NormalizeSecret, Trim;
    SecretTwice(h.value);
    TrimIdempotent(h.name);
  }

  lemma ReceiverTwice(r: Receiver)
    ensures NormalizeReceiver(NormalizeReceiver(r)) == NormalizeReceiver(r)
  {
    hide NormalizeSecret, Trim, NormalizeHeader;
    SecretTwice(r.password);
    TrimmedSecretTwice(r.url);
    TrimIdempotent(r.id);
    TrimIdempotent(r.name);
    TrimIdempotent(r.username);
    forall h | h in r.headers
      ensures NormalizeHeader(NormalizeHeader(h)) == NormalizeHeader(h)
    {
      HeaderTwice(h);
    }
    MapTwice(NormalizeHeader, r.headers);
  }

  lemma WebhookTwice(w: Webhook)
    ensures NormalizeWebhook(NormalizeWebhook(w)) == NormalizeWebhook(w)
  {
    hide NormalizeReceiver;
    forall r | r in w.receivers
      ensures NormalizeReceiver(NormalizeReceiver(r)) == NormalizeReceiver(r)
    {
      ReceiverTwice(r);
    }
    MapTwice(NormalizeReceiver, w.receivers);
  }

  /** A normaliser that is idempotent on each element is so on the list. */
  lemma MapTwice<T(!new)>(f: T -> T, xs: seq<T>)
    requires forall x :: x in xs ==> f(f(x)) == f(x)
    ensures MapAll(f, MapAll(f, xs)) == MapAll(f, xs)
  {
    forall i | 0 <= i < |xs|
      ensures f(f(xs[i])) == f(xs[i])
    {
      assert xs[i] in xs;
    }
  }

  lemma OptionTwice(o: Option<string>)
    ensures TrimOption(TrimOption(o)) == TrimOption(o)
  {
    hide Trim;
    if o.Some? {
      TrimIdempotent(o.value);
    }
  }

  lemma BillingTwice(b: Billing)
    ensures NormalizeBilling(NormalizeBilling(b)) == NormalizeBilling(b)
  {
    hide TrimOption;
    OptionTwice(b.startDate);
    OptionTwice(b.endDate);
    OptionTwice(b.autoRenewal);
    OptionTwice(b.cycle);
    OptionTwice(b.amount);
  }

  lemma NodeTwice(n: NodeOverride)
    ensures NormalizeNode(NormalizeNode(n)) == NormalizeNode(n)
  {
    hide TrimOption, NormalizeBilling;
    OptionTwice(n.alias);
    OptionTwice(n.note);
    OptionTwice(n.publicNote);
    OptionTwice(n.spec);
    OptionTwice(n.expire);
    BillingTwice(n.billing);
  }

  lemma KeyTwice(k: AccessKey)
    ensures NormalizeKey(NormalizeKey(k)) == NormalizeKey(k)
  {
    hide Trim, NormalizeBilling;
    TrimIdempotent(k.sourceGid);
    TrimIdempotent(k.password);
    TrimIdempotent(k.location);
    TrimIdempotent(k.kind);
    TrimIdempotent(k.labels);
    TrimIdempotent(k.expire);
    BillingTwice(k.billing);
  }

  lemma EntriesTwice<V>(normalize: V -> V, names: set<string>, m: map<string, V>)
    requires forall k :: k in m ==> normalize(normalize(m[k])) == normalize(m[k])
    ensures Entries(normalize, names, Entries(normalize, names, m)) == Entries(normalize, names, m)
  {
    hide Blank;
  }

  lemma NamesTwice(xs: seq<string>)
    ensures NormalizedStrings(NormalizedStrings(xs)) == NormalizedStrings(xs)
  {
    hide NormalizedStrings;
    NormalizedIs(xs);
    AscendingIsNormalized(NormalizedStrings(xs));
  }

  lemma GroupTwice(g: ServerGroup)
    ensures NormalizeGroup(NormalizeGroup(g)) == NormalizeGroup(g)
  {
    hide NormalizedStrings, Trim;
    TrimIdempotent(g.id);
    TrimIdempotent(g.name);
    NamesTwice(g.servers);
  }

  lemma NotificationGroupTwice(g: NotificationGroup)
    ensures NormalizeNotificationGroup(NormalizeNotificationGroup(g)) == NormalizeNotificationGroup(g)
  {
    hide NormalizedStrings, Trim;
    TrimIdempotent(g.id);
    TrimIdempotent(g.name);
    NamesTwice(g.notifications);
  }

  lemma RuleTwice(r: AlertRule)
    ensures NormalizeRule(NormalizeRule(r)) == NormalizeRule(r)
  {
    hide NormalizedStrings, Trim;
    TrimIdempotent(r.id);
    TrimIdempotent(r.name);
    TrimIdempotent(r.metric);
    TrimIdempotent(r.notificationGroup);
    NamesTwice(r.notifications);
    NamesTwice(r.serverGroups);
    NamesTwice(r.servers);
  }

  /** Normalise each, keep the complete ones, drop later ones of the same id: doing it again changes nothing. */
  lemma ListTwice<T(!new)>(f: T -> T, complete: T -> bool, id: T -> string, xs: seq<T>)
    requires forall x :: x in xs ==> f(f(x)) == f(x)
    ensures var once := DedupFrom(id, Keep(complete, MapAll(f, xs)), {});
            DedupFrom(id, Keep(complete, MapAll(f, once)), {}) == once
  {
    var kept := Keep(complete, MapAll(f, xs));
    var once := DedupFrom(id, kept, {});
    forall i | 0 <= i < |once|
      ensures f(once[i]) == once[i] && complete(once[i])
    {
      assert once[i] in kept && once[i] in MapAll(f, xs);
      var j :| 0 <= j < |xs| && MapAll(f, xs)[j] == once[i];
      assert xs[j] in xs;
    }
    assert MapAll(f, once) == once;
    assert Keep(complete, once) == once;
    DedupOfDistinct(id, once, {});
  }

  lemma GroupsTwice(xs: seq<ServerGroup>, names: set<string>)
    ensures GroupsWithout(names, Groups(GroupsWithout(names, Groups(xs)))) == GroupsWithout(names, Groups(xs))
  {
    hide NormalizeGroup, CompleteGroup;
    forall g | g in xs
      ensures NormalizeGroup(NormalizeGroup(g)) == NormalizeGroup(g)
    {
      GroupTwice(g);
    }
    ListTwice(NormalizeGroup, CompleteGroup, GroupId, xs);
    SettledGroupsWithout(Groups(xs), names);
    hide Groups;
    forall i | 0 <= i < |Groups(xs)|
      ensures GroupWithout(names, GroupWithout(names, Groups(xs)[i])) == GroupWithout(names, Groups(xs)[i])
    {
    }
  }

  lemma NotificationGroupsTwice(xs: seq<NotificationGroup>)
    ensures NotificationGroups(NotificationGroups(xs)) == NotificationGroups(xs)
  {
    hide NormalizeNotificationGroup, CompleteNotificationGroup;
    forall g | g in xs
      ensures NormalizeNotificationGroup(NormalizeNotificationGroup(g)) == NormalizeNotificationGroup(g)
    {
      NotificationGroupTwice(g);
    }
    ListTwice(NormalizeNotificationGroup, CompleteNotificationGroup, NotificationGroupId, xs);
  }

  lemma RulesTwice(xs: seq<AlertRule>, names: set<string>)
    ensures RulesWithout(names, Rules(RulesWithout(names, Rules(xs)))) == RulesWithout(names, Rules(xs))
  {
    hide NormalizeRule, CompleteRule;
    forall r | r in xs
      ensures NormalizeRule(NormalizeRule(r)) == NormalizeRule(r)
    {
      RuleTwice(r);
    }
    ListTwice(NormalizeRule, CompleteRule, RuleId, xs);
    SettledRulesWithout(Rules(xs), names);
    hide Rules;
    forall i | 0 <= i < |Rules(xs)|
      ensures RuleWithout(names, RuleWithout(names, Rules(xs)[i])) == RuleWithout(names, Rules(xs)[i])
    {
    }
  }

  lemma TokensTwice(tokens: map<Digest, InstallToken>, now: nat)
    ensures UsableTokens(UsableTokens(tokens, now), now) == UsableTokens(tokens, now)
  {
    hide Blank, LiveToken;
  }

  // ---------- normalising twice ----------

  /** The Bark settings after a normalisation need no other. */
  predicate BarkStays(b: Option<Bark>) {
    b.Some? ==> NormalizeBark(NormalizeBark(b.value)) == NormalizeBark(b.value)
  }

  predicate PathStays(path: string) {
    NormalizePath(NormalizePath(path)) == NormalizePath(path)
  }

  /** Everything but the entry path and the Bark server settles at once. */
  lemma NotifiersTwice(d: AdminData)
    ensures OptionMap(NormalizeTgbot, OptionMap(NormalizeTgbot, d.tgbot)) == OptionMap(NormalizeTgbot, d.tgbot)
    ensures OptionMap(NormalizeWechat, OptionMap(NormalizeWechat, d.wechat)) == OptionMap(NormalizeWechat, d.wechat)
    ensures OptionMap(NormalizeEmail, OptionMap(NormalizeEmail, d.email)) == OptionMap(NormalizeEmail, d.email)
    ensures OptionMap(NormalizeWebhook, OptionMap(NormalizeWebhook, d.webhook)) == OptionMap(NormalizeWebhook, d.webhook)
  {
    hide NormalizeTgbot, NormalizeWechat, NormalizeEmail, NormalizeWebhook;
    if d.tgbot.Some? { TgbotTwice(d.tgbot.value); }
    if d.wechat.Some? { WechatTwice(d.wechat.value); }
    if d.email.Some? { EmailTwice(d.email.value); }
    if d.webhook.Some? { WebhookTwice(d.webhook.value); }
  }

  lemma MapsTwice(d: AdminData, hosts: set<string>, keys: set<string>)
    ensures Entries(NormalizeNode, hosts, Entries(NormalizeNode, hosts, d.hosts)) == Entries(NormalizeNode, hosts, d.hosts)
    ensures Entries(NormalizeNode, keys, Entries(NormalizeNode, keys, d.groups)) == Entries(NormalizeNode, keys, d.groups)
    ensures Entries(NormalizeKey, keys, Entries(NormalizeKey, keys, d.accessKeys)) == Entries(NormalizeKey, keys, d.accessKeys)
  {
    hide NormalizeNode, NormalizeKey, Entries;
    forall k | k in d.hosts
      ensures NormalizeNode(NormalizeNode(d.hosts[k])) == NormalizeNode(d.hosts[k])
    {
      NodeTwice(d.hosts[k]);
    }
    forall k | k in d.groups
      ensures NormalizeNode(NormalizeNode(d.groups[k])) == NormalizeNode(d.groups[k])
    {
      NodeTwice(d.groups[k]);
    }
    forall k | k in d.accessKeys
      ensures NormalizeKey(NormalizeKey(d.accessKeys[k])) == NormalizeKey(d.accessKeys[k])
    {
      KeyTwice(d.accessKeys[k]);
    }
    EntriesTwice(NormalizeNode, hosts, d.hosts);
    EntriesTwice(NormalizeNode, keys, d.groups);
    EntriesTwice(NormalizeKey, keys, d.accessKeys);
  }

  lemma NormalizeTwiceStays(d: AdminData, now: nat)
    ensures Normalize(Normalize(d, now), now) == Normalize(d, now) <==> PathStays(d.adminPath) && BarkStays(d.bark)
  {
    hide NormalizePath, NormalizeBark, NormalizeTgbot, NormalizeWechat, NormalizeEmail, NormalizeWebhook, Entries,
         GroupsWithout, RulesWithout, NotificationGroups, Groups, Rules, NormalizedStrings, UsableTokens, TrimOption;
    var hosts, keys := Names(NormalizedStrings(d.deletedHosts)), Names(NormalizedStrings(d.deletedAccessKeys));
    NamesTwice(d.deletedHosts);
    NamesTwice(d.deletedAccessKeys);
    OptionTwice(d.adminUser);
    NotifiersTwice(d);
    MapsTwice(d, hosts, keys);
    GroupsTwice(d.serverGroups, hosts);
    NotificationGroupsTwice(d.notificationGroups);
    RulesTwice(d.alertRules, hosts);
    TokensTwice(d.installTokens, now);
  }

  /** The normalised path does not end in a slash. */
  predicate PathSettles(path: string) {
    var p := NormalizePath(path); p != "" && p[|p| - 1] != '/'
  }

  lemma PathStaysExactlyWhen(path: string)
    ensures PathStays(path) <==> PathSettles(path)
  {
    var p := NormalizePath(path);
    assert p != "";
    NormalizedPathIsTrimmed(path);
    if p[|p| - 1] != '/' {
      assert TrimSlashes(p) == p;
    } else {
      SlashesTrimmed(p);
      TrimShorter(TrimSlashes(p));
    }
  }

  lemma {:induction false} SlashesTrimmed(s: string)
    ensures s != "" && s[|s| - 1] == '/' ==> |TrimSlashes(s)| < |s|
    ensures TrimSlashes(s) == "" || TrimSlashes(s)[0] == s[0]
  {
    if s != "" && s[|s| - 1] == '/' {
      SlashesTrimmed(s[..|s| - 1]);
    }
  }

  lemma TrimShorter(s: string)
    ensures |Trim(s)| <= |s|
    ensures s != "" && s[0] == '/' ==> Trim(s) != "" && Trim(s)[0] == '/'
  {
    if s != "" && s[0] == '/' {
      assert TrimStart(s) == s;
      SlashStays(s);
    }
  }

  lemma {:induction false} SlashStays(s: string)
    requires s != "" && s[0] == '/'
    ensures TrimEnd(s) != "" && TrimEnd(s)[0] == '/'
  {
    if |s| > 1 && IsSpace(s[|s| - 1]) {
      SlashStays(s[..|s| - 1]);
    }
  }

  // ---------- accepted settings ----------

  /** The normalised address needs no other normalisation. */
  predicate UrlStays(url: string) {
    NormalizeBaseUrl(NormalizeBaseUrl(url)) == NormalizeBaseUrl(url)
  }

  /** The normalised address does not end in a space. */
  predicate UrlSettles(url: string) {
    var u := NormalizeBaseUrl(url); u == "" || !IsSpace(u[|u| - 1])
  }

  lemma UrlStaysExactlyWhen(url: string)
    ensures UrlStays(url) <==> UrlSettles(url)
  {
    var u := NormalizeBaseUrl(url);
    SlashesTrimmed(Trim(url));
    NoSlashLeft(Trim(url));
    if u != "" && !IsSpace(u[|u| - 1]) {
      TrimFixed(u);
    }
    NoSlashStays(u);
  }

  lemma {:induction false} NoSlashLeft(s: string)
    ensures TrimSlashes(s) != "" ==> TrimSlashes(s)[|TrimSlashes(s)| - 1] != '/'
  {
    if s != "" && s[|s| - 1] == '/' {
      NoSlashLeft(s[..|s| - 1]);
    }
  }

  lemma NoSlashStays(u: string)
    requires u != "" ==> u[|u| - 1] != '/'
    ensures TrimSlashes(u) == u
    ensures u != "" && IsSpace(u[|u| - 1]) ==> |TrimSlashes(Trim(u))| < |u|
  {
    if u != "" && IsSpace(u[|u| - 1]) {
      var start := TrimStart(u);
      assert start != "" ==> IsSpace(start[|start| - 1]);
    }
  }

  lemma {:induction false} SplitOnceIs(s: string, sep: char)
    ensures SplitOnce(s, sep).None? <==> sep !in s
    ensures SplitOnce(s, sep).Some? ==> sep !in SplitOnce(s, sep).value.0
  {
    if s != "" && s[0] != sep {
      SplitOnceIs(s[1..], sep);
      assert s == [s[0]] + s[1..];
    }
  }

  lemma {:induction false} FirstSegmentIs(path: string)
    ensures FirstSegment(path).Some? ==> !Blank(FirstSegment(path).value)
    decreases |path|
  {
    hide Trim;
    if SplitOnce(path, '/').None? {
      TrimIdempotent(path);
    } else {
      var parts := SplitOnce(path, '/').value;
      SplitOnceShorter(path, '/');
      TrimIdempotent(parts.0);
      FirstSegmentIs(parts.1);
    }
  }

  /** The server part of a Bark URL: a scheme and a host without slashes; and a key that is not blank. */
  predicate IsServerPart(server: string) {
    (HTTPS <= server && '/' !in server[|HTTPS|..]) || (HTTP <= server && '/' !in server[|HTTP|..])
  }

  lemma SplitBarkServerIs(server: string)
    ensures SplitBarkServer(server).Some? ==>
              IsServerPart(SplitBarkServer(server).value.0) && !Blank(SplitBarkServer(server).value.1)
  {
    hide TrimSlashes, Trim, FirstSegment;
    var value := TrimSlashes(Trim(server));
    var scheme := if HTTPS <= value then HTTPS else HTTP;
    if scheme <= value {
      SplitOnceIs(value[|scheme|..], '/');
      var rest := SplitOnce(value[|scheme|..], '/');
      if rest.Some? {
        FirstSegmentIs(rest.value.1);
        assert (scheme + rest.value.0)[|scheme|..] == rest.value.0 && scheme <= scheme + rest.value.0;
      }
    }
  }

  lemma ServerPartHasNoKey(server: string)
    requires IsServerPart(server) && TrimSlashes(Trim(server)) == server
    ensures SplitBarkServer(server).None?
  {
    hide TrimSlashes, Trim, FirstSegment;
    if HTTPS <= server && '/' !in server[|HTTPS|..] {
      SplitOnceIs(server[|HTTPS|..], '/');
    } else {
      assert server[4] == ':';
      SplitOnceIs(server[|HTTP|..], '/');
    }
  }

  /**
  A server without a key in it settles as an address does.  One with a key settles if its host is neither empty nor
  ends in a space, and the key, if it is taken, is not a mask.
  */
  predicate ServerSettles(b: Bark) {
    match SplitBarkServer(TrimSlashes(Trim(b.server)))
    case None => UrlSettles(b.server)
    case Some(parts) =>
      && parts.0 != "" && parts.0[|parts.0| - 1] != '/' && !IsSpace(parts.0[|parts.0| - 1])
      && (!b.deviceKey.clear && Untyped(b.deviceKey.value) ==> !IsMask(parts.1))
  }

  predicate BarkSettles(b: Option<Bark>) {
    b.Some? ==> ServerSettles(b.value)
  }

  lemma ShorterServer(b: Bark)
    ensures |NormalizeBark(b).server| <= |TrimSlashes(Trim(b.server))|
  {
    SplitBarkServerShorter(TrimSlashes(Trim(b.server)));
  }

  lemma ServerPartIsTrimmed(server: string)
    requires IsServerPart(server)
    ensures server != "" && (server[|server| - 1] != '/' && !IsSpace(server[|server| - 1]) ==> TrimSlashes(Trim(server)) == server)
    ensures server[|server| - 1] == '/' || IsSpace(server[|server| - 1]) ==> |TrimSlashes(Trim(server))| < |server|
  {
    assert server[0] == 'h';
    if IsSpace(server[|server| - 1]) {
      assert |Trim(server)| < |server| by {
        assert TrimStart(server) == server;
      }
    } else {
      TrimFixed(server);
      SlashesTrimmed(server);
    }
  }

  lemma NoKeyStays(b: Bark)
    requires SplitBarkServer(TrimSlashes(Trim(b.server))).None?
    ensures NormalizeBark(NormalizeBark(b)) == NormalizeBark(b) <==> UrlSettles(b.server)
  {
    hide Trim, TrimSlashes, NormalizeSecret, UrlSettles;
    UrlStaysExactlyWhen(b.server);
    SecretTwice(b.deviceKey);
    var once := NormalizeBark(b);
    var again := TrimSlashes(Trim(once.server));
    if again != once.server {
      ServerIsShorter(once.server);
      SplitBarkServerShorter(again);
    }
  }

  lemma ServerIsShorter(server: string)
    ensures |TrimSlashes(Trim(server))| <= |server|
  {
  }

  lemma KeyStays(b: Bark)
    requires SplitBarkServer(TrimSlashes(Trim(b.server))).Some?
    ensures NormalizeBark(NormalizeBark(b)) == NormalizeBark(b) <==> ServerSettles(b)
  {
    hide Trim, TrimSlashes, IsServerPart, SplitBarkServer, Blank;
    var parts := SplitBarkServer(TrimSlashes(Trim(b.server))).value;
    SplitBarkServerIs(TrimSlashes(Trim(b.server)));
    ServerPartIsTrimmed(parts.0);
    var once := NormalizeBark(b);
    assert once.server == parts.0;
    if parts.0[|parts.0| - 1] == '/' || IsSpace(parts.0[|parts.0| - 1]) {
      ShorterServer(once);
    } else {
      ServerPartHasNoKey(parts.0);
      EmptyIsBlank();
      SecretTwice(b.deviceKey);
    }
  }

  lemma EmptyIsBlank()
    ensures Blank("")
  {
  }

  lemma BarkStaysExactlyWhen(b: Option<Bark>)
    ensures BarkStays(b) <==> BarkSettles(b)
  {
    hide NormalizeBark, SplitBarkServer;
    if b.Some? {
      if SplitBarkServer(TrimSlashes(Trim(b.value.server))).None? {
        NoKeyStays(b.value);
      } else {
        KeyStays(b.value);
      }
    }
  }

  /** Normalising again changes nothing, if and only if the entry path and the Bark settings have settled. */
  lemma NormalizeTwiceExactlyWhen(d: AdminData, now: nat)
    ensures Normalize(Normalize(d, now), now) == Normalize(d, now) <==> PathSettles(d.adminPath) && BarkSettles(d.bark)
  {
    hide Normalize, PathSettles, PathStays, BarkStays, BarkSettles;
    NormalizeTwiceStays(d, now);
    PathStaysExactlyWhen(d.adminPath);
    BarkStaysExactlyWhen(d.bark);
  }

  /** None of it settles always: "a/ /" becomes "/a/", and then "/a"; "a /" becomes "a ", and then "a". */
  lemma OddTextsDoNotSettle()
    ensures NormalizePath("a/ /") == "/a/" && !PathSettles("a/ /")
    ensures NormalizeBaseUrl("a /") == "a " && !UrlSettles("a /")
  {
    OddPathDoesNotSettle();
    assert "a /" == ['a', ' ', '/'] && "a /"[..2] == "a ";
    TrimFixed("a /");
    assert TrimSlashes("a /") == TrimSlashes("a ") == "a ";
  }

  lemma OddPathDoesNotSettle()
    ensures NormalizePath("a/ /") == "/a/" && !PathSettles("a/ /")
  {
    var path := "a/ /";
    assert path == ['a', '/', ' ', '/'];
    TrimFixed(path);
    assert path[..3] == "a/ " && TrimSlashes(path) == TrimSlashes("a/ ") == "a/ ";
    assert TrimStart("a/ ") == "a/ " && "a/ "[..2] == "a/" && TrimEnd("a/ ") == TrimEnd("a/") == "a/";
    assert "/" + "a/" == "/a/";
    var p := NormalizePath(path);
    assert p[|p| - 1] == '/';
  }

  lemma UnmarkedMerge(d: AdminData, stored: AdminData, now: nat)
    requires Unmarked(d)
    ensures Unmarked(Finished(MergeSensitive(WithTrimmedIdentities(d), stored), now))
  {
    hide Finished, MergeSensitive;
    var trimmed := WithTrimmedIdentities(d);
    var merged := MergeSensitive(trimmed, stored);
    FinishedParts(merged, now);
    FinishedWebhook(merged, now);
    MergedParts(trimmed, stored);
    UnmarkedTgbot(d.tgbot, stored.tgbot);
    UnmarkedBark(d.bark, stored.bark);
    UnmarkedWechat(d.wechat, stored.wechat);
    UnmarkedEmail(d.email, stored.email);
    if d.webhook.Some? {
      UnmarkedWebhook(d.webhook.value, stored.webhook);
    }
  }

  lemma MergedParts(d: AdminData, stored: AdminData)
    ensures var m := MergeSensitive(d, stored);
            && m.tgbot == Merged(MergeTgbot, d.tgbot, stored.tgbot) && m.bark == Merged(MergeBark, d.bark, stored.bark)
            && m.wechat == Merged(MergeWechat, d.wechat, stored.wechat) && m.email == Merged(MergeEmail, d.email, stored.email)
            && m.webhook == Merged(MergeWebhook, d.webhook, stored.webhook)
  {
  }

  lemma UnmarkedTgbot(tgbot: Option<Tgbot>, prev: Option<Tgbot>)
    requires OptionMap(ReadTgbot, tgbot) == tgbot
    ensures var saved := OptionMap(NormalizeTgbot, Merged(MergeTgbot, tgbot, prev)); OptionMap(ReadTgbot, saved) == saved
  {
    hide SplitBarkServer, Trim, Untyped;
  }

  lemma UnmarkedBark(bark: Option<Bark>, prev: Option<Bark>)
    requires OptionMap(ReadBark, bark) == bark
    ensures var saved := OptionMap(NormalizeBark, Merged(MergeBark, bark, prev)); OptionMap(ReadBark, saved) == saved
  {
    hide SplitBarkServer, Trim, Untyped;
  }

  lemma UnmarkedWechat(wechat: Option<Wechat>, prev: Option<Wechat>)
    requires OptionMap(ReadWechat, wechat) == wechat
    ensures var saved := OptionMap(NormalizeWechat, Merged(MergeWechat, wechat, prev)); OptionMap(ReadWechat, saved) == saved
  {
    hide SplitBarkServer, Trim, Untyped;
  }

  lemma UnmarkedEmail(email: Option<Email>, prev: Option<Email>)
    requires OptionMap(ReadEmail, email) == email
    ensures var saved := OptionMap(NormalizeEmail, Merged(MergeEmail, email, prev)); OptionMap(ReadEmail, saved) == saved
  {
    hide SplitBarkServer, Trim, Untyped;
  }

  lemma UnmarkedReceiver(r: Receiver, prev: seq<Receiver>)
    requires ReadReceiver(r) == r
    ensures var saved := NormalizeReceiver(MergeReceiver(TrimReceiverId(r), prev)); ReadReceiver(saved) == saved
  {
    hide Trim, Untyped, FindReceiver, FindHeader;
    var merged := MergeReceiver(TrimReceiverId(r), prev);
    forall j | 0 <= j < |r.headers|
      ensures ReadHeader(NormalizeHeader(merged.headers[j])) == NormalizeHeader(merged.headers[j])
    {
      assert ReadHeader(r.headers[j]) == r.headers[j];
    }
  }

  lemma UnmarkedWebhook(w: Webhook, prev: Option<Webhook>)
    requires ReadWebhook(w) == w
    ensures var saved := NormalizeWebhook(Merged(MergeWebhook, Some(TrimIdentities(w)), prev).value); ReadWebhook(saved) == saved
  {
    hide ReadReceiver, NormalizeReceiver, MergeReceiver, TrimReceiverId;
    var receivers := if prev.Some? then prev.value.receivers else [];
    if prev.None? {
      NothingToMerge(MapAll(TrimReceiverId, w.receivers));
    }
    var saved := NormalizeWebhook(Merged(MergeWebhook, Some(TrimIdentities(w)), prev).value);
    forall i | 0 <= i < |w.receivers|
      ensures ReadReceiver(saved.receivers[i]) == saved.receivers[i]
    {
      assert ReadReceiver(w.receivers[i]) == w.receivers[i];
      UnmarkedReceiver(w.receivers[i], receivers);
    }
  }

  /** What is received carries no marks of the public copy. */
  lemma ReceivedIsUnmarked(d: AdminData)
    ensures Unmarked(Received(d))
  {
    if d.webhook.Some? {
      var read := ReadWebhook(d.webhook.value);
      forall i | 0 <= i < |read.receivers|
        ensures ReadReceiver(read.receivers[i]) == read.receivers[i]
      {
        assert MapAll(ReadHeader, read.receivers[i].headers) == read.receivers[i].headers;
      }
      assert ReadWebhook(read) == read;
    }
  }

  lemma TrimmedUrlsNormalize(d: AdminData, now: nat)
    ensures Normalize(TrimBaseUrls(d), now) == TrimBaseUrls(Normalize(d, now))
    ensures TrimBaseUrls(d) == d.(accessBaseUrl := TrimBaseUrls(d).accessBaseUrl, agentBaseUrl := TrimBaseUrls(d).agentBaseUrl)
  {
    hide NormalizePath, NormalizeBark, NormalizeTgbot, NormalizeWechat, NormalizeEmail, NormalizeWebhook, Entries,
         GroupsWithout, RulesWithout, NotificationGroups, Groups, Rules, NormalizedStrings, UsableTokens, TrimOption, NormalizeBaseUrl;
  }

  lemma AcceptedParts(d: AdminData, checks: Checks)
    requires Accept(d, checks).Ok?
    ensures !PathError(d.adminPath) && ValidData(d, checks)
    ensures !PathError(TrimBaseUrls(d).adminPath) && ValidData(TrimBaseUrls(d), checks)
  {
    hide PathError, NormalizeBaseUrl;
  }

  lemma SameApartFromUrls(a: AdminData, b: AdminData)
    requires a.accessBaseUrl == b.accessBaseUrl && a.agentBaseUrl == b.agentBaseUrl
    ensures TrimBaseUrls(a) == TrimBaseUrls(b) <==> a == b
  {
    hide NormalizeBaseUrl;
    assert TrimBaseUrls(a).(accessBaseUrl := a.accessBaseUrl, agentBaseUrl := a.agentBaseUrl) == a;
    assert TrimBaseUrls(b).(accessBaseUrl := b.accessBaseUrl, agentBaseUrl := b.agentBaseUrl) == b;
  }

  lemma NormalizeKeepsUrls(d: AdminData, now: nat)
    ensures Normalize(d, now).accessBaseUrl == d.accessBaseUrl && Normalize(d, now).agentBaseUrl == d.agentBaseUrl
    ensures Normalize(d, now).adminPath == NormalizePath(d.adminPath)
  {
  }

  lemma FinishedIsSettledExactlyWhen(merged: AdminData, now: nat, checks: Checks)
    requires Accept(Normalize(merged, now), checks).Ok? && Unmarked(Finished(merged, now))
    ensures Settled(Finished(merged, now), now, checks) <==>
            UrlStays(merged.accessBaseUrl) && UrlStays(merged.agentBaseUrl) && BarkStays(merged.bark)
  {
    hide Unmarked, Accept, Normalize, PathError, ValidData, NormalizePath, NormalizeBaseUrl, NormalizeBark;
    var once := Normalize(merged, now);
    var twice := Normalize(once, now);
    AcceptedParts(once, checks);
    TrimmedUrlsNormalize(once, now);
    NormalizeKeepsUrls(merged, now);
    NormalizeKeepsUrls(once, now);
    SameApartFromUrls(once, twice);
    NormalizeTwiceStays(merged, now);
    NormalizedPathIsTrimmed(merged.adminPath);
    ValidPathIsNormal(NormalizePath(merged.adminPath));
  }

  /**
  Whatever the server accepts is settled: valid, normalised, and left alone by another normalisation, if and only
  if its two addresses and its Bark settings have settled.
  */
  lemma AcceptedIsSettledExactlyWhen(d: AdminData, stored: AdminData, now: nat, checks: Checks)
    requires Unmarked(d) && Prepare(d, stored, now, checks).Ok?
    ensures Settled(Prepare(d, stored, now, checks).value, now, checks) <==>
            && UrlSettles(d.accessBaseUrl) && UrlSettles(d.agentBaseUrl)
            && BarkSettles(Merged(MergeBark, d.bark, stored.bark))
  {
    hide Unmarked, MergeSensitive, UrlStays, UrlSettles, BarkStays, BarkSettles, Normalize, Settled, Accept,
         WithTrimmedIdentities, ValidIdentities;
    var merged := MergeSensitive(WithTrimmedIdentities(d), stored);
    PreparedIs(d, stored, now, checks);
    UnmarkedMerge(d, stored, now);
    FinishedIsSettledExactlyWhen(merged, now, checks);
    MergedUrls(d, stored);
    UrlStaysExactlyWhen(d.accessBaseUrl);
    UrlStaysExactlyWhen(d.agentBaseUrl);
    BarkStaysExactlyWhen(Merged(MergeBark, d.bark, stored.bark));
  }

  lemma MergedUrls(d: AdminData, stored: AdminData)
    ensures var m := MergeSensitive(WithTrimmedIdentities(d), stored);
            m.accessBaseUrl == d.accessBaseUrl && m.agentBaseUrl == d.agentBaseUrl && m.bark == Merged(MergeBark, d.bark, stored.bark)
  {
  }

  // ---------- scoped saves ----------

  /** The addresses and the Bark server are already written the way normalising writes them. */
  predicate LeftAlone(o: Overrides) {
    && (o.accessBaseUrl.Some? ==> NormalizeBaseUrl(o.accessBaseUrl.value) == o.accessBaseUrl.value)
    && (o.agentBaseUrl.Some? ==> NormalizeBaseUrl(o.agentBaseUrl.value) == o.agentBaseUrl.value)
    && (o.bark.Some? && o.bark.value.Some? ==> NormalizeBark(o.bark.value.value).server == o.bark.value.value.server)
  }

  lemma PlainServerSettles(b: Bark)
    requires NormalizeBark(b).server == b.server
    ensures NormalizeBark(NormalizeBark(b)) == NormalizeBark(b)
  {
    hide NormalizeSecret;
    SplitBarkServerShorter(TrimSlashes(Trim(b.server)));
    SecretTwice(b.deviceKey);
  }

  lemma PlainServerStays(next: Bark, prev: Bark)
    ensures NormalizeBark(MergeBark(ReadBark(next), prev)).server == NormalizeBark(next).server == NormalizeBark(ReadBark(next)).server
  {
    hide NormalizeSecret, MergeSecret, SplitBarkServer;
  }

  lemma MergedBarkSettles(stored: AdminData, o: Overrides, read: nat, checks: Checks)
    requires Settled(stored, read, checks) && LeftAlone(o)
    ensures BarkStays(MergedSave(stored, o).bark)
  {
    hide MergedSave, Settled, NormalizeBark;
    if o.bark.None? {
      MergedSaveComesBack(stored, o, read, checks);
      SettledBark(stored, read, checks);
    } else {
      MergedOverrides(stored, o);
      if o.bark.value.Some? {
        var next := o.bark.value.value;
        if stored.bark.Some? {
          PlainServerStays(next, stored.bark.value);
          PlainServerSettles(MergeBark(ReadBark(next), stored.bark.value));
        } else {
          PlainServerStays(next, next);
          PlainServerSettles(ReadBark(next));
        }
      }
    }
  }

  lemma SettledBark(stored: AdminData, read: nat, checks: Checks)
    requires Settled(stored, read, checks)
    ensures OptionMap(NormalizeBark, stored.bark) == stored.bark
  {
    assert Normalize(stored, read).bark == OptionMap(NormalizeBark, stored.bark);
  }

  /** A scoped save of such overrides leaves settled settings settled. */
  lemma ScopedSaveStaysSettled(stored: AdminData, o: Overrides, read: nat, now: nat, checks: Checks)
    requires Settled(stored, read, checks) && LeftAlone(o) && ScopedSave(stored, o, now, checks).Ok?
    ensures Settled(ScopedSave(stored, o, now, checks).value, now, checks)
  {
    hide Settled, Unmarked, Prepare, Normalize, BarkStays, BarkSettles, UrlStays, UrlSettles, MergeSensitive,
         WithTrimmedIdentities, Received, Payload, LeftAlone;
    var d := Received(Payload(Public(stored), o));
    ReceivedIsUnmarked(Payload(Public(stored), o));
    AcceptedIsSettledExactlyWhen(d, stored, now, checks);
    MergedUrls(d, stored);
    MergedBarkSettles(stored, o, read, checks);
    SentUrlsSettle(stored, o, read, checks);
    UrlStaysExactlyWhen(d.accessBaseUrl);
    UrlStaysExactlyWhen(d.agentBaseUrl);
    BarkStaysExactlyWhen(MergedSave(stored, o).bark);
  }

  lemma SentUrlsSettle(stored: AdminData, o: Overrides, read: nat, checks: Checks)
    requires Settled(stored, read, checks) && LeftAlone(o)
    ensures var d := Received(Payload(Public(stored), o)); UrlStays(d.accessBaseUrl) && UrlStays(d.agentBaseUrl)
  {
    hide NormalizeBaseUrl, Normalize, ValidData, Unmarked, PathError, NormalizeBark;
  }
}
