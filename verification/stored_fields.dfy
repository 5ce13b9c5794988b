/** What an accepted replacement stores, field by field, in terms of what was submitted. */
module StoredFields {
  import opened Wrappers
  import opened Text
  import opened Settings
  import opened AdminNormalize
  import opened AdminReplace

  // ---------- texts ----------

  /** An optional text is stored trimmed, and not at all if it is blank. */
  predicate TextStored(submitted: Option<string>, saved: Option<string>) {
    if submitted.None? || Trim(submitted.value) == "" then saved == None else saved == Some(Trim(submitted.value))
  }

  predicate BillingStored(submitted: Billing, saved: Billing) {
    && TextStored(submitted.startDate, saved.startDate) && TextStored(submitted.endDate, saved.endDate)
    && TextStored(submitted.autoRenewal, saved.autoRenewal) && TextStored(submitted.cycle, saved.cycle)
    && TextStored(submitted.amount, saved.amount)
  }

  predicate NodeStored(submitted: NodeOverride, saved: NodeOverride) {
    && TextStored(submitted.alias, saved.alias) && TextStored(submitted.note, saved.note)
    && TextStored(submitted.publicNote, saved.publicNote) && TextStored(submitted.spec, saved.spec)
    && TextStored(submitted.expire, saved.expire) && BillingStored(submitted.billing, saved.billing)
    && saved.expireNotify == submitted.expireNotify && saved.weight == submitted.weight
  }

  /** The password that a key sent back without one keeps: its own, or that of the key it was copied from. */
  function KeptPassword(gid: string, submitted: AccessKey, stored: map<string, AccessKey>): string {
    var source := Trim(submitted.sourceGid);
    if gid in stored then stored[gid].password
    else if source != "" && source in stored then stored[source].password
    else ""
  }

  predicate KeyStored(gid: string, submitted: AccessKey, stored: map<string, AccessKey>, saved: AccessKey) {
    && saved.sourceGid == Trim(submitted.sourceGid) && saved.location == Trim(submitted.location)
    && saved.kind == Trim(submitted.kind) && saved.labels == Trim(submitted.labels) && saved.expire == Trim(submitted.expire)
    && saved.password == Trim(if Trim(submitted.password) != "" then submitted.password else KeptPassword(gid, submitted, stored))
    && saved.notify == submitted.notify && saved.expireNotify == submitted.expireNotify && saved.weight == submitted.weight
    && BillingStored(submitted.billing, saved.billing)
  }

  // ---------- names ----------

  /** A list of names is stored in order, each once, trimmed, without blanks and without the given names. */
  ghost predicate NamesStored(submitted: seq<string>, without: set<string>, saved: seq<string>) {
    && Ascending(saved)
    && forall name :: name in saved <==> name != "" && TrimsTo(submitted, name) && name !in without
  }

  lemma NamesAreStored(xs: seq<string>, without: set<string>)
    ensures NamesStored(xs, without, NotIn(without, NormalizedStrings(xs)))
    ensures NamesStored(xs, {}, NormalizedStrings(xs))
  {
    hide NormalizedStrings, TrimsTo, Ascending;
    forall name
      ensures name in NormalizedStrings(xs) <==> name != "" && TrimsTo(xs, name)
    {
      NormalizedHoldsExactly(xs, name);
    }
    NormalizedIs(xs);
    NotInKeepsAscending(without, NormalizedStrings(xs));
  }

  // ---------- groups and rules ----------

  ghost predicate GroupStored(submitted: ServerGroup, deleted: set<string>, saved: ServerGroup) {
    && saved.id == Trim(submitted.id) && saved.name == Trim(submitted.name)
    && NamesStored(submitted.servers, deleted, saved.servers)
  }

  ghost predicate NotificationGroupStored(submitted: NotificationGroup, saved: NotificationGroup) {
    && saved.id == Trim(submitted.id) && saved.name == Trim(submitted.name)
    && NamesStored(submitted.notifications, {}, saved.notifications)
  }

  /** Thresholds are not negative, percentages not above 100, and there is none for the offline metric. */
  predicate ThresholdStored(metric: string, submitted: Option<real>, saved: Option<real>) {
    if metric == "offline" || submitted.None? then saved == None
    else
      && saved.Some? && saved.value >= 0.0
      && (submitted.value <= 0.0 ==> saved.value == 0.0)
      && (metric == "cpu" || metric == "memory" || metric == "disk" ==>
            saved.value <= 100.0 && (submitted.value >= 100.0 ==> saved.value == 100.0)
            && (0.0 <= submitted.value <= 100.0 ==> saved.value == submitted.value))
      && (metric != "cpu" && metric != "memory" && metric != "disk" && submitted.value >= 0.0 ==> saved.value == submitted.value)
  }

  ghost predicate RuleStored(submitted: AlertRule, deleted: set<string>, saved: AlertRule) {
    && saved.id == Trim(submitted.id) && saved.name == Trim(submitted.name) && saved.metric == Trim(submitted.metric)
    && saved.notificationGroup == Trim(submitted.notificationGroup) && saved.enabled == submitted.enabled
    && ThresholdStored(Trim(submitted.metric), submitted.threshold, saved.threshold)
    && saved.duration >= 30 && (submitted.duration >= 30 ==> saved.duration == submitted.duration)
    && (submitted.duration < 30 ==> saved.duration == 30)
    && saved.repeatInterval >= 60 && (submitted.repeatInterval >= 60 ==> saved.repeatInterval == submitted.repeatInterval)
    && (submitted.repeatInterval < 60 ==> saved.repeatInterval == 60)
    && NamesStored(submitted.notifications, {}, saved.notifications)
    && NamesStored(submitted.serverGroups, {}, saved.serverGroups)
    && NamesStored(submitted.servers, deleted, saved.servers)
  }

  // ---------- lists with ids ----------

  predicate Rising(ps: seq<nat>) {
    forall i, j :: 0 <= i < j < |ps| ==> ps[i] < ps[j]
  }

  /** An entry is kept if it is complete and the first complete one of its id. */
  ghost predicate KeptAt<T(!new)>(complete: T -> bool, id: T -> string, xs: seq<T>, i: nat) {
    && i < |xs| && complete(xs[i])
    && forall j :: 0 <= j < i && complete(xs[j]) ==> id(xs[j]) != id(xs[i])
  }

  ghost predicate SeenBefore<T(!new)>(complete: T -> bool, id: T -> string, xs: seq<T>, n: nat, name: string)
    requires n <= |xs|
  {
    exists j :: 0 <= j < n && complete(xs[j]) && id(xs[j]) == name
  }

  /** The ids of the complete entries before position `n`. */
  ghost predicate Seen<T(!new)>(complete: T -> bool, id: T -> string, xs: seq<T>, n: nat, seen: set<string>)
    requires n <= |xs|
  {
    forall name :: name in seen <==> SeenBefore(complete, id, xs, n, name)
  }

  lemma SeenNext<T(!new)>(complete: T -> bool, id: T -> string, xs: seq<T>, n: nat, seen: set<string>)
    requires n < |xs| && Seen(complete, id, xs, n, seen)
    ensures Seen(complete, id, xs, n + 1, if complete(xs[n]) then seen + {id(xs[n])} else seen)
    ensures KeptAt(complete, id, xs, n) <==> complete(xs[n]) && id(xs[n]) !in seen
  {
    var seen' := if complete(xs[n]) then seen + {id(xs[n])} else seen;
    forall name
      ensures name in seen' <==> SeenBefore(complete, id, xs, n + 1, name)
    {
      if SeenBefore(complete, id, xs, n, name) {
        var j :| 0 <= j < n && complete(xs[j]) && id(xs[j]) == name;
      }
    }
    assert SeenBefore(complete, id, xs, n, id(xs[n])) <==> id(xs[n]) in seen;
  }

  /** The list's entries stand at those positions, in order. */
  ghost predicate Picks<T(!new)>(complete: T -> bool, id: T -> string, xs: seq<T>, n: nat, ps: seq<nat>, r: seq<T>) {
    && |ps| == |r| && Rising(ps)
    && (forall k :: 0 <= k < |ps| ==> n <= ps[k] < |xs| && r[k] == xs[ps[k]])
    && forall i: nat :: n <= i ==> (i in ps <==> KeptAt(complete, id, xs, i))
  }

  lemma PicksMore<T(!new)>(complete: T -> bool, id: T -> string, xs: seq<T>, n: nat, ps: seq<nat>, r: seq<T>)
    requires n < |xs| && Picks(complete, id, xs, n + 1, ps, r)
    ensures KeptAt(complete, id, xs, n) ==> Picks(complete, id, xs, n, [n] + ps, [xs[n]] + r)
    ensures !KeptAt(complete, id, xs, n) ==> Picks(complete, id, xs, n, ps, r)
  {
    hide KeptAt;
    var more := [n] + ps;
    assert forall i: nat :: i in more <==> i == n || i in ps;
    assert n !in ps;
  }

  /** The complete entries, without later ones of an id seen. */
  function KeptOf<T(!new)>(complete: T -> bool, id: T -> string, xs: seq<T>, seen: set<string>): seq<T> {
    DedupFrom(id, Keep(complete, xs), seen)
  }

  lemma KeptStep<T(!new)>(complete: T -> bool, id: T -> string, xs: seq<T>, n: nat, seen: set<string>)
    requires n < |xs|
    ensures KeptOf(complete, id, xs[n..], seen) ==
            if !complete(xs[n]) then KeptOf(complete, id, xs[n + 1..], seen)
            else if id(xs[n]) in seen then KeptOf(complete, id, xs[n + 1..], seen + {id(xs[n])})
            else [xs[n]] + KeptOf(complete, id, xs[n + 1..], seen + {id(xs[n])})
  {
    assert xs[n..] == [xs[n]] + xs[n + 1..];
    KeepDedupFirst(complete, id, xs[n], xs[n + 1..], seen);
    if id(xs[n]) in seen {
      assert seen + {id(xs[n])} == seen;
    }
  }

  lemma {:induction false} DedupPicks<T(!new)>(complete: T -> bool, id: T -> string, xs: seq<T>, n: nat, seen: set<string>)
    returns (ps: seq<nat>)
    requires n <= |xs| && Seen(complete, id, xs, n, seen)
    ensures Picks(complete, id, xs, n, ps, KeptOf(complete, id, xs[n..], seen))
    decreases |xs| - n
  {
    hide Picks, Seen, KeptAt, KeptOf;
    if n == |xs| {
      ps := [];
      NothingPicked(complete, id, xs, seen);
    } else {
      SeenNext(complete, id, xs, n, seen);
      KeptStep(complete, id, xs, n, seen);
      var seen' := if complete(xs[n]) then seen + {id(xs[n])} else seen;
      var rest := DedupPicks(complete, id, xs, n + 1, seen');
      PicksMore(complete, id, xs, n, rest, KeptOf(complete, id, xs[n + 1..], seen'));
      ps := if complete(xs[n]) && id(xs[n]) !in seen then [n] + rest else rest;
    }
  }

  lemma NothingPicked<T(!new)>(complete: T -> bool, id: T -> string, xs: seq<T>, seen: set<string>)
    ensures Picks(complete, id, xs, |xs|, [], KeptOf(complete, id, xs[|xs|..], seen))
  {
  }

  lemma KeepDedupFirst<T(!new)>(p: T -> bool, id: T -> string, x: T, xs: seq<T>, seen: set<string>)
    ensures KeptOf(p, id, [x] + xs, seen) ==
            if !p(x) || id(x) in seen then KeptOf(p, id, xs, seen)
            else [x] + KeptOf(p, id, xs, seen + {id(x)})
  {
    assert ([x] + xs)[1..] == xs;
    assert ([x] + Keep(p, xs))[1..] == Keep(p, xs);
  }

  lemma ListPicks<T(!new)>(complete: T -> bool, id: T -> string, xs: seq<T>) returns (ps: seq<nat>)
    ensures Picks(complete, id, xs, 0, ps, DedupFrom(id, Keep(complete, xs), {}))
  {
    hide Picks, Keep, DedupFrom;
    ps := DedupPicks(complete, id, xs, 0, {});
    assert xs[0..] == xs;
  }

  // ---------- the three lists ----------

  /** The group is complete, and no complete one before it has its id. */
  predicate GroupCounts(xs: seq<ServerGroup>, i: nat) {
    && i < |xs| && Trim(xs[i].id) != "" && Trim(xs[i].name) != ""
    && forall j :: 0 <= j < i && Trim(xs[j].name) != "" ==> Trim(xs[j].id) != Trim(xs[i].id)
  }

  predicate NotificationGroupCounts(xs: seq<NotificationGroup>, i: nat) {
    && i < |xs| && Trim(xs[i].id) != "" && Trim(xs[i].name) != ""
    && forall j :: 0 <= j < i && Trim(xs[j].name) != "" ==> Trim(xs[j].id) != Trim(xs[i].id)
  }

  predicate RuleCounts(xs: seq<AlertRule>, i: nat) {
    && i < |xs| && Trim(xs[i].id) != "" && Trim(xs[i].name) != "" && Trim(xs[i].metric) != ""
    && forall j :: 0 <= j < i && Trim(xs[j].name) != "" && Trim(xs[j].metric) != "" ==> Trim(xs[j].id) != Trim(xs[i].id)
  }

  /** The stored groups are those that count, in the order submitted. */
  ghost predicate GroupsStored(submitted: seq<ServerGroup>, deleted: set<string>, saved: seq<ServerGroup>, ps: seq<nat>) {
    && |saved| == |ps| && Rising(ps) && (forall i: nat :: i in ps <==> GroupCounts(submitted, i))
    && forall k :: 0 <= k < |ps| ==> ps[k] < |submitted| && GroupStored(submitted[ps[k]], deleted, saved[k])
  }

  ghost predicate NotificationGroupsStored(submitted: seq<NotificationGroup>, saved: seq<NotificationGroup>, ps: seq<nat>) {
    && |saved| == |ps| && Rising(ps) && (forall i: nat :: i in ps <==> NotificationGroupCounts(submitted, i))
    && forall k :: 0 <= k < |ps| ==> ps[k] < |submitted| && NotificationGroupStored(submitted[ps[k]], saved[k])
  }

  ghost predicate RulesStored(submitted: seq<AlertRule>, deleted: set<string>, saved: seq<AlertRule>, ps: seq<nat>) {
    && |saved| == |ps| && Rising(ps) && (forall i: nat :: i in ps <==> RuleCounts(submitted, i))
    && forall k :: 0 <= k < |ps| ==> ps[k] < |submitted| && RuleStored(submitted[ps[k]], deleted, saved[k])
  }

  lemma GroupIsStored(g: ServerGroup, deleted: set<string>)
    ensures GroupStored(g, deleted, GroupWithout(deleted, NormalizeGroup(g)))
  {
    NamesAreStored(g.servers, deleted);
  }

  lemma NotificationGroupIsStored(g: NotificationGroup)
    ensures NotificationGroupStored(g, NormalizeNotificationGroup(g))
  {
    NamesAreStored(g.notifications, {});
  }

  lemma RuleIsStored(r: AlertRule, deleted: set<string>)
    ensures RuleStored(r, deleted, RuleWithout(deleted, NormalizeRule(r)))
  {
    hide NamesStored, NormalizedStrings, NotIn, Trim;
    NamesAreStored(r.notifications, {});
    NamesAreStored(r.serverGroups, {});
    NamesAreStored(r.servers, deleted);
  }

  lemma GroupsAreStored(xs: seq<ServerGroup>, deleted: set<string>) returns (ps: seq<nat>)
    ensures GroupsStored(xs, deleted, GroupsWithout(deleted, Groups(xs)), ps)
  {
    hide NormalizedStrings, Trim, GroupStored, NotIn, Keep, DedupFrom;
    var all := MapAll(NormalizeGroup, xs);
    ps := ListPicks(CompleteGroup, GroupId, all);
    forall i: nat
      ensures KeptAt(CompleteGroup, GroupId, all, i) <==> GroupCounts(xs, i)
    {
    }
    forall k | 0 <= k < |ps|
      ensures GroupStored(xs[ps[k]], deleted, GroupWithout(deleted, Groups(xs)[k]))
    {
      GroupIsStored(xs[ps[k]], deleted);
    }
  }

  lemma NotificationGroupsAreStored(xs: seq<NotificationGroup>) returns (ps: seq<nat>)
    ensures NotificationGroupsStored(xs, NotificationGroups(xs), ps)
  {
    hide NormalizedStrings, Trim, NotificationGroupStored, Keep, DedupFrom;
    var all := MapAll(NormalizeNotificationGroup, xs);
    ps := ListPicks(CompleteNotificationGroup, NotificationGroupId, all);
    forall i: nat
      ensures KeptAt(CompleteNotificationGroup, NotificationGroupId, all, i) <==> NotificationGroupCounts(xs, i)
    {
    }
    forall k | 0 <= k < |ps|
      ensures NotificationGroupStored(xs[ps[k]], NotificationGroups(xs)[k])
    {
      NotificationGroupIsStored(xs[ps[k]]);
    }
  }

  lemma RulesAreStored(xs: seq<AlertRule>, deleted: set<string>) returns (ps: seq<nat>)
    ensures RulesStored(xs, deleted, RulesWithout(deleted, Rules(xs)), ps)
  {
    hide NormalizedStrings, Trim, RuleStored, NotIn, NormalizeThreshold, AtLeast, Keep, DedupFrom;
    var all := MapAll(NormalizeRule, xs);
    ps := ListPicks(CompleteRule, RuleId, all);
    forall i: nat
      ensures KeptAt(CompleteRule, RuleId, all, i) <==> RuleCounts(xs, i)
    {
    }
    forall k | 0 <= k < |ps|
      ensures RuleStored(xs[ps[k]], deleted, RuleWithout(deleted, Rules(xs)[k]))
    {
      RuleIsStored(xs[ps[k]], deleted);
    }
  }

  // ---------- a replacement ----------

  /** Entries with a name, not deleted, each as it was submitted. */
  ghost predicate NodesStored(submitted: map<string, NodeOverride>, deleted: seq<string>, saved: map<string, NodeOverride>) {
    && (forall k :: k in saved <==> k in submitted && Trim(k) != "" && k !in deleted)
    && forall k :: k in saved ==> NodeStored(submitted[k], saved[k])
  }

  ghost predicate KeysStored(
    submitted: map<string, AccessKey>, stored: map<string, AccessKey>, deleted: seq<string>, saved: map<string, AccessKey>)
  {
    && (forall k :: k in saved <==> k in submitted && Trim(k) != "" && k !in deleted)
    && forall k :: k in saved ==> KeyStored(k, submitted[k], stored, saved[k])
  }

  lemma NodeIsStored(n: NodeOverride)
    ensures NodeStored(n, NormalizeNode(n))
  {
    hide Trim;
  }

  lemma NodesAreStored(submitted: map<string, NodeOverride>, deleted: seq<string>)
    ensures NodesStored(submitted, deleted, Entries(NormalizeNode, Names(deleted), submitted))
  {
    hide NormalizeNode, NodeStored, Trim;
    forall k | k in submitted
      ensures NodeStored(submitted[k], NormalizeNode(submitted[k]))
    {
      NodeIsStored(submitted[k]);
    }
  }

  lemma MergedPassword(gid: string, key: AccessKey, stored: map<string, AccessKey>)
    ensures var merged := MergeKey(gid, key, stored);
            && merged == key.(password := merged.password)
            && Trim(merged.password) == Trim(if Trim(key.password) != "" then key.password else KeptPassword(gid, key, stored))
  {
    hide Trim;
    NoText();
  }

  lemma BillingIsStored(b: Billing)
    ensures BillingStored(b, NormalizeBilling(b))
  {
    hide Trim;
  }

  lemma KeyIsStored(gid: string, key: AccessKey, stored: map<string, AccessKey>)
    ensures KeyStored(gid, key, stored, NormalizeKey(MergeKey(gid, key, stored)))
  {
    hide Trim, MergeKey, KeptPassword, BillingStored, NormalizeBilling;
    MergedPassword(gid, key, stored);
    BillingIsStored(key.billing);
  }

  lemma NoText()
    ensures Trim("") == ""
  {
  }

  lemma KeysAreStored(submitted: map<string, AccessKey>, stored: map<string, AccessKey>, deleted: seq<string>)
    ensures KeysStored(submitted, stored, deleted, Entries(NormalizeKey, Names(deleted), MergeKeys(submitted, stored)))
  {
    hide NormalizeKey, MergeKey, KeyStored, Trim;
    forall k | k in submitted
      ensures KeyStored(k, submitted[k], stored, NormalizeKey(MergeKey(k, submitted[k], stored)))
    {
      KeyIsStored(k, submitted[k], stored);
    }
  }

  /** An entry path is stored as it was written, but for spaces around it, if it is valid as written. */
  lemma ValidPathIsStored(path: string)
    requires !PathError(path)
    ensures NormalizePath(path) == Trim(path)
  {
    TrimIdempotent(path);
    ValidPathIsNormal(Trim(path));
  }

  /** An address is stored trimmed and without the slashes at its end. */
  predicate UrlStored(submitted: string, saved: string) {
    && saved <= Trim(submitted) && (saved == "" || saved[|saved| - 1] != '/')
    && forall i :: |saved| <= i < |Trim(submitted)| ==> Trim(submitted)[i] == '/'
  }

  lemma {:induction false} SlashesAreTrimmed(s: string)
    ensures var r := TrimSlashes(s);
            r <= s && (r == "" || r[|r| - 1] != '/') && forall i :: |r| <= i < |s| ==> s[i] == '/'
  {
    if s != "" && s[|s| - 1] == '/' {
      SlashesAreTrimmed(s[..|s| - 1]);
    }
  }

  lemma UrlIsStored(url: string)
    ensures UrlStored(url, NormalizeBaseUrl(url))
  {
    SlashesAreTrimmed(Trim(url));
  }

  /** An entry path is stored trimmed of spaces and slashes at its end, with a slash at its start, or as the default. */
  predicate PathStoredAs(submitted: string, saved: string, without: string) {
    && UrlStored(submitted, without)
    && saved == if Trim(without) == "" then "/admin" else if Trim(without)[0] == '/' then Trim(without) else "/" + Trim(without)
  }

  ghost predicate PathStored(submitted: string, saved: string) {
    exists without :: PathStoredAs(submitted, saved, without)
  }

  lemma PathIsStored(path: string)
    ensures PathStored(path, NormalizePath(path))
  {
    UrlIsStored(path);
    assert PathStoredAs(path, NormalizePath(path), TrimSlashes(Trim(path)));
  }

  /** Everything a replacement stores that is no notifier, by field. */
  ghost predicate DataStored(
    submitted: AdminData, stored: AdminData, saved: AdminData, groups: seq<nat>, notificationGroups: seq<nat>, rules: seq<nat>)
  {
    var deleted := Names(saved.deletedHosts);
    && NamesStored(submitted.deletedHosts, {}, saved.deletedHosts)
    && NamesStored(submitted.deletedAccessKeys, {}, saved.deletedAccessKeys)
    && NodesStored(submitted.hosts, saved.deletedHosts, saved.hosts)
    && NodesStored(submitted.groups, saved.deletedAccessKeys, saved.groups)
    && KeysStored(submitted.accessKeys, stored.accessKeys, saved.deletedAccessKeys, saved.accessKeys)
    && GroupsStored(submitted.serverGroups, deleted, saved.serverGroups, groups)
    && NotificationGroupsStored(submitted.notificationGroups, saved.notificationGroups, notificationGroups)
    && RulesStored(submitted.alertRules, deleted, saved.alertRules, rules)
    && UrlStored(submitted.accessBaseUrl, saved.accessBaseUrl) && UrlStored(submitted.agentBaseUrl, saved.agentBaseUrl)
    && saved.expireNotify == submitted.expireNotify && saved.log == submitted.log
    && PathStored(submitted.adminPath, saved.adminPath)
    && !PathError(saved.adminPath) && (!PathError(submitted.adminPath) ==> saved.adminPath == Trim(submitted.adminPath))
    && saved.passwordHash == stored.passwordHash && saved.sessionVersion == stored.sessionVersion
    && TextStored(stored.adminUser, saved.adminUser)
  }

  /** An accepted replacement stores every field that is no secret as it was submitted, trimmed. */
  lemma ReplacementStoresFields(d: AdminData, stored: AdminData, now: nat, checks: Checks)
    returns (groups: seq<nat>, notificationGroups: seq<nat>, rules: seq<nat>)
    requires Prepare(d, stored, now, checks).Ok?
    ensures DataStored(d, stored, Prepare(d, stored, now, checks).value, groups, notificationGroups, rules)
  {
    hide Prepare, NamesStored, NodesStored, KeysStored, GroupsStored, NotificationGroupsStored, RulesStored, NormalizedStrings,
         Entries, Groups, Rules, NotificationGroups, GroupsWithout, RulesWithout, PathError, NormalizePath, Trim, TrimOption,
         NormalizeBaseUrl, UrlStored, PathStored;
    PathIsStored(d.adminPath);
    UrlIsStored(d.accessBaseUrl);
    UrlIsStored(d.agentBaseUrl);
    PreparedParts(d, stored, now, checks);
    var saved := Prepare(d, stored, now, checks).value;
    NamesAreStored(d.deletedHosts, {});
    NamesAreStored(d.deletedAccessKeys, {});
    NodesAreStored(d.hosts, saved.deletedHosts);
    NodesAreStored(d.groups, saved.deletedAccessKeys);
    KeysAreStored(d.accessKeys, stored.accessKeys, saved.deletedAccessKeys);
    groups := GroupsAreStored(d.serverGroups, Names(saved.deletedHosts));
    notificationGroups := NotificationGroupsAreStored(d.notificationGroups);
    rules := RulesAreStored(d.alertRules, Names(saved.deletedHosts));
    if !PathError(d.adminPath) {
      ValidPathIsStored(d.adminPath);
    }
    UserIsStored(stored.adminUser);
  }

  lemma UserIsStored(user: Option<string>)
    ensures TextStored(user, TrimOption(user))
  {
    hide Trim;
  }

  lemma PreparedParts(d: AdminData, stored: AdminData, now: nat, checks: Checks)
    requires Prepare(d, stored, now, checks).Ok?
    ensures var saved := Prepare(d, stored, now, checks).value;
            && saved.deletedHosts == NormalizedStrings(d.deletedHosts)
            && saved.deletedAccessKeys == NormalizedStrings(d.deletedAccessKeys)
            && saved.hosts == Entries(NormalizeNode, Names(saved.deletedHosts), d.hosts)
            && saved.groups == Entries(NormalizeNode, Names(saved.deletedAccessKeys), d.groups)
            && saved.accessKeys == Entries(NormalizeKey, Names(saved.deletedAccessKeys), MergeKeys(d.accessKeys, stored.accessKeys))
            && saved.serverGroups == GroupsWithout(Names(saved.deletedHosts), Groups(d.serverGroups))
            && saved.notificationGroups == NotificationGroups(d.notificationGroups)
            && saved.alertRules == RulesWithout(Names(saved.deletedHosts), Rules(d.alertRules))
            && saved.adminPath == NormalizePath(d.adminPath) && !PathError(saved.adminPath)
            && saved.accessBaseUrl == NormalizeBaseUrl(d.accessBaseUrl) && saved.agentBaseUrl == NormalizeBaseUrl(d.agentBaseUrl)
            && saved.expireNotify == d.expireNotify && saved.log == d.log && saved.adminUser == TrimOption(stored.adminUser)
            && saved.passwordHash == stored.passwordHash && saved.sessionVersion == stored.sessionVersion
  {
    hide NormalizedStrings, Entries, Groups, Rules, NotificationGroups, GroupsWithout, RulesWithout, PathError, NormalizePath,
         MergeKeys, TrimOption, ValidIdentities, ValidData, NormalizeBaseUrl;
    PreparedIs(d, stored, now, checks);
    PathIsAccepted(d, stored, now, checks);
  }

  lemma PathIsAccepted(d: AdminData, stored: AdminData, now: nat, checks: Checks)
    requires Prepare(d, stored, now, checks).Ok?
    ensures !PathError(Prepare(d, stored, now, checks).value.adminPath)
  {
    hide PathError, Normalize, MergeSensitive, ValidIdentities, ValidData, NormalizeBaseUrl;
  }
}
