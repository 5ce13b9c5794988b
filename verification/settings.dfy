/** The administrator's settings: the stored data, as every component that reads it sees it. */
module Settings {
  import opened Wrappers

  datatype Billing = Billing(
    startDate: Option<string>, endDate: Option<string>, autoRenewal: Option<string>, cycle: Option<string>,
    amount: Option<string>)

  /** An override for one host or one group of hosts. */
  datatype NodeOverride = NodeOverride(
    alias: Option<string>, note: Option<string>, publicNote: Option<string>, spec: Option<string>,
    expire: Option<string>, billing: Billing, expireNotify: Option<bool>, weight: Option<nat>)

  datatype ServerGroup = ServerGroup(id: string, name: string, servers: seq<string>)

  datatype AccessKey = AccessKey(
    sourceGid: string, password: string, location: string, kind: string, notify: Option<bool>, labels: string,
    expire: string, billing: Billing, expireNotify: Option<bool>, weight: Option<nat>)

  datatype NotificationGroup = NotificationGroup(id: string, name: string, notifications: seq<string>)

  datatype AlertRule = AlertRule(
    id: string,
    name: string,
    enabled: bool,
    metric: string,
    threshold: Option<real>,
    duration: nat,
    repeatInterval: nat,
    notificationGroup: string,
    notifications: seq<string>,
    serverGroups: seq<string>,
    servers: seq<string>)

  /** A digest stands for the token it was made from; only the empty one was made from nothing. */
  datatype Digest = EmptyDigest | DigestOf(token: string)

  datatype InstallToken = InstallToken(gid: string, uid: string, tokenHash: Digest, expiresAt: nat)

  datatype PasswordHash = BlankHash | MalformedHash | HashOf(password: string)

  datatype ExpireNotifyConfig = ExpireNotifyConfig(enabled: bool, days: seq<int>, interval: nat)

  /** A secret, the request to clear it, and whether the public copy says that one is configured. */
  datatype Secret = Secret(value: string, clear: bool, configured: bool)

  datatype Tgbot = Tgbot(enabled: bool, botToken: Secret, chatId: Secret, title: string, templates: seq<string>)

  datatype Bark = Bark(
    enabled: bool, server: string, deviceKey: Secret, title: string, group: string, icon: string, sound: string,
    url: string, timeout: Option<nat>, templates: seq<string>)

  datatype Wechat = Wechat(
    enabled: bool, corpId: string, corpSecret: Secret, agentId: string, title: string, templates: seq<string>)

  datatype Email = Email(
    enabled: bool, server: string, username: string, password: Secret, to: string, subject: string, title: string,
    templates: seq<string>)

  datatype Header = Header(name: string, value: Secret)

  datatype Receiver = Receiver(
    id: string, name: string, enabled: bool, url: Secret, username: string, password: Secret, timeout: nat,
    headers: seq<Header>, bodyTemplate: string)

  datatype Webhook = Webhook(enabled: bool, receivers: seq<Receiver>)

  datatype Log = Log(enabled: bool, template: string)

  datatype AdminData = AdminData(
    adminUser: Option<string>,
    passwordHash: Option<PasswordHash>,
    sessionVersion: nat,
    adminPath: string,
    hosts: map<string, NodeOverride>,
    groups: map<string, NodeOverride>,
    deletedHosts: seq<string>,
    serverGroups: seq<ServerGroup>,
    accessKeys: map<string, AccessKey>,
    deletedAccessKeys: seq<string>,
    notificationGroups: seq<NotificationGroup>,
    alertRules: seq<AlertRule>,
    installTokens: map<Digest, InstallToken>,
    accessBaseUrl: string,
    agentBaseUrl: string,
    expireNotify: Option<ExpireNotifyConfig>,
    tgbot: Option<Tgbot>,
    bark: Option<Bark>,
    wechat: Option<Wechat>,
    email: Option<Email>,
    webhook: Option<Webhook>,
    log: Option<Log>)

  /** A group of hosts that share an access key. */
  datatype HostGroup = HostGroup(
    gid: string, password: string, location: string, kind: string, notify: bool, pos: nat, weight: nat,
    labels: string, expire: string, expireNotify: bool)

  const NO_BILLING := Billing(None, None, None, None, None)

  const EMPTY_DATA := AdminData(
    None, None, 0, "", map[], map[], [], [], map[], [], [], [], map[], "", "", None, None, None, None, None, None, None)
}
