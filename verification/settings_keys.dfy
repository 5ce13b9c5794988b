/** The keys of the settings that the page edits, one by one. */
module SettingsKeys {
  import opened Wrappers
  import opened Settings
  import opened AdminNormalize
  import opened AdminReplace
  import opened SettingsRoundTrip

  datatype Key =
    | HostsKey | GroupsKey | DeletedHostsKey | ServerGroupsKey | AccessKeysKey | DeletedAccessKeysKey
    | NotificationGroupsKey | AlertRulesKey | AdminPathKey | AccessBaseUrlKey | AgentBaseUrlKey | ExpireNotifyKey
    | TgbotKey | BarkKey | WechatKey | EmailKey | WebhookKey | LogKey

  /** A save names a key, or deletes hosts or access keys that may stand under it. */
  predicate InScope(o: Overrides, key: Key) {
    match key
    case HostsKey => o.hosts.Some? || o.deletedHosts.Some?
    case GroupsKey => o.groups.Some? || o.deletedAccessKeys.Some?
    case DeletedHostsKey => o.deletedHosts.Some?
    case ServerGroupsKey => o.serverGroups.Some? || o.deletedHosts.Some?
    case AccessKeysKey => o.accessKeys.Some? || o.deletedAccessKeys.Some?
    case DeletedAccessKeysKey => o.deletedAccessKeys.Some?
    case NotificationGroupsKey => o.notificationGroups.Some?
    case AlertRulesKey => o.alertRules.Some? || o.deletedHosts.Some?
    case AdminPathKey => o.adminPath.Some?
    case AccessBaseUrlKey => o.accessBaseUrl.Some?
    case AgentBaseUrlKey => o.agentBaseUrl.Some?
    case ExpireNotifyKey => o.expireNotify.Some?
    case TgbotKey => o.tgbot.Some?
    case BarkKey => o.bark.Some?
    case WechatKey => o.wechat.Some?
    case EmailKey => o.email.Some?
    case WebhookKey => o.webhook.Some?
    case LogKey => o.log.Some?
  }

  predicate SameAt(a: AdminData, b: AdminData, key: Key) {
    match key
    case HostsKey => a.hosts == b.hosts
    case GroupsKey => a.groups == b.groups
    case DeletedHostsKey => a.deletedHosts == b.deletedHosts
    case ServerGroupsKey => a.serverGroups == b.serverGroups
    case AccessKeysKey => a.accessKeys == b.accessKeys
    case DeletedAccessKeysKey => a.deletedAccessKeys == b.deletedAccessKeys
    case NotificationGroupsKey => a.notificationGroups == b.notificationGroups
    case AlertRulesKey => a.alertRules == b.alertRules
    case AdminPathKey => a.adminPath == b.adminPath
    case AccessBaseUrlKey => a.accessBaseUrl == b.accessBaseUrl
    case AgentBaseUrlKey => a.agentBaseUrl == b.agentBaseUrl
    case ExpireNotifyKey => a.expireNotify == b.expireNotify
    case TgbotKey => a.tgbot == b.tgbot
    case BarkKey => a.bark == b.bark
    case WechatKey => a.wechat == b.wechat
    case EmailKey => a.email == b.email
    case WebhookKey => a.webhook == b.webhook
    case LogKey => a.log == b.log
  }

  lemma SameAtTransitive(a: AdminData, b: AdminData, c: AdminData, key: Key)
    ensures SameAt(a, a, key) && (SameAt(a, b, key) && SameAt(b, c, key) ==> SameAt(a, c, key))
    ensures SameAt(a, b, key) <==> SameAt(b, a, key)
  {
  }

  lemma KeptIsSame(stored: AdminData, o: Overrides, saved: AdminData, read: nat, now: nat, key: Key)
    requires Normalize(stored, read) == stored && OnlyScopeChanged(stored, o, saved, now) && !InScope(o, key)
    ensures SameAt(saved, stored, key)
  {
    hide Normalize, Less, GroupsWithout, RulesWithout, Names;
    NothingIsLess(stored, read);
  }

  lemma ScopedSaveKeepsKey(stored: AdminData, o: Overrides, read: nat, now: nat, checks: Checks, key: Key)
    requires Settled(stored, read, checks) && ScopedSave(stored, o, now, checks).Ok? && !InScope(o, key)
    ensures SameAt(ScopedSave(stored, o, now, checks).value, stored, key)
  {
    hide ScopedSave, OnlyScopeChanged, Normalize, ValidData, Unmarked, PathError, SameAt, InScope;
    ScopedSaveChangesOnlyItsScope(stored, o, read, now, checks);
    KeptIsSame(stored, o, ScopedSave(stored, o, now, checks).value, read, now, key);
  }
}
