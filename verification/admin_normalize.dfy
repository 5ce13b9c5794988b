/** Normalising, masking and merging the administrator's settings. */
module AdminNormalize {
  import opened Wrappers
  import opened Text
  import opened Settings

  const DEFAULT_ADMIN_PATH := "/admin"

  // ---------- lists ----------

  function MapAll<S, T>(f: S -> T, xs: seq<S>): (r: seq<T>)
    ensures |r| == |xs| && forall i :: 0 <= i < |xs| ==> r[i] == f(xs[i])
  {
    seq(|xs|, i requires 0 <= i < |xs| => f(xs[i]))
  }

  function Keep<T(!new)>(p: T -> bool, xs: seq<T>): (r: seq<T>)
    ensures |r| <= |xs| && forall x :: x in r <==> x in xs && p(x)
    ensures (forall x :: x in xs ==> p(x)) ==> r == xs
    ensures |r| == |xs| ==> r == xs
  {
    if xs == [] then []
    else
      assert xs == [xs[0]] + xs[1..];
      var rest := Keep(p, xs[1..]);
      if p(xs[0]) then [xs[0]] + rest else rest
  }

  /** Later entries with an id already seen are dropped. */
  function DedupFrom<T(!new)>(id: T -> string, xs: seq<T>, seen: set<string>): (r: seq<T>)
    ensures |r| <= |xs| && forall x :: x in r ==> x in xs && id(x) !in seen
    ensures forall i, j :: 0 <= i < j < |r| ==> id(r[i]) != id(r[j])
    ensures |r| == |xs| ==> r == xs
  {
    if xs == [] then []
    else
      assert xs == [xs[0]] + xs[1..];
      if id(xs[0]) in seen then DedupFrom(id, xs[1..], seen)
      else [xs[0]] + DedupFrom(id, xs[1..], seen + {id(xs[0])})
  }

  lemma DedupStep<T(!new)>(id: T -> string, xs: seq<T>, i: nat, seen: set<string>)
    requires i < |xs|
    ensures DedupFrom(id, xs[i..], seen) ==
            if id(xs[i]) in seen then DedupFrom(id, xs[i + 1..], seen)
            else [xs[i]] + DedupFrom(id, xs[i + 1..], seen + {id(xs[i])})
  {
    assert xs[i..][0] == xs[i] && xs[i..][1..] == xs[i + 1..];
  }

  method DedupById<T(!new)>(id: T -> string, xs: seq<T>) returns (r: seq<T>)
    ensures r == DedupFrom(id, xs, {})
  {
    var seen := {};
    r := [];
    ghost var all := DedupFrom(id, xs, {});
    assert xs[0..] == xs;
    for i := 0 to |xs|
      invariant all == r + DedupFrom(id, xs[i..], seen)
    {
      DedupStep(id, xs, i, seen);
      if id(xs[i]) !in seen {
        ghost var rest := DedupFrom(id, xs[i + 1..], seen + {id(xs[i])});
        assert r + ([xs[i]] + rest) == (r + [xs[i]]) + rest;
        seen := seen + {id(xs[i])};
        r := r + [xs[i]];
      }
    }
    assert xs[|xs|..] == [] && r + [] == r;
  }

  /** Position `k` holds the first entry of its id, and that id was not seen before. */
  ghost predicate IsFirst<T(!new)>(id: T -> string, xs: seq<T>, seen: set<string>, k: nat) {
    k < |xs| && id(xs[k]) !in seen && forall j :: 0 <= j < k ==> id(xs[j]) != id(xs[k])
  }

  ghost predicate FirstAmong<T(!new)>(id: T -> string, xs: seq<T>, seen: set<string>, x: T) {
    exists k: nat :: IsFirst(id, xs, seen, k) && xs[k] == x
  }

  /** Exactly the first entry of every id is kept. */
  lemma {:induction false} DedupKeepsFirst<T(!new)>(id: T -> string, xs: seq<T>, seen: set<string>, x: T)
    ensures x in DedupFrom(id, xs, seen) <==> FirstAmong(id, xs, seen, x)
  {
    if xs != [] {
      var seen' := if id(xs[0]) in seen then seen else seen + {id(xs[0])};
      DedupKeepsFirst(id, xs[1..], seen', x);
      if FirstAmong(id, xs[1..], seen', x) {
        var k: nat :| IsFirst(id, xs[1..], seen', k) && xs[1..][k] == x;
        LaterFirst(id, xs, seen, k);
      }
      if FirstAmong(id, xs, seen, x) {
        var k: nat :| IsFirst(id, xs, seen, k) && xs[k] == x;
        if k > 0 {
          EarlierFirst(id, xs, seen, k);
        }
      }
      if id(xs[0]) !in seen {
        assert IsFirst(id, xs, seen, 0);
      }
    }
  }

  lemma LaterFirst<T(!new)>(id: T -> string, xs: seq<T>, seen: set<string>, k: nat)
    requires xs != [] && IsFirst(id, xs[1..], if id(xs[0]) in seen then seen else seen + {id(xs[0])}, k)
    ensures IsFirst(id, xs, seen, k + 1)
  {
    forall j | 0 <= j < k + 1
      ensures id(xs[j]) != id(xs[k + 1])
    {
      assert j > 0 ==> xs[1..][j - 1] == xs[j];
    }
  }

  lemma EarlierFirst<T(!new)>(id: T -> string, xs: seq<T>, seen: set<string>, k: nat)
    requires 0 < k < |xs| && IsFirst(id, xs, seen, k)
    ensures IsFirst(id, xs[1..], if id(xs[0]) in seen then seen else seen + {id(xs[0])}, k - 1)
  {
    forall j | 0 <= j < k - 1
      ensures id(xs[1..][j]) != id(xs[1..][k - 1])
    {
      assert xs[1..][j] == xs[j + 1];
    }
  }

  predicate Ascending(xs: seq<string>) {
    forall i, j :: 0 <= i < j < |xs| ==> TextLeq(xs[i], xs[j]) && xs[i] != xs[j]
  }

  function InsertUnique(x: string, xs: seq<string>): seq<string> {
    if xs == [] then [x]
    else if x == xs[0] then xs
    else if TextLeq(x, xs[0]) then [x] + xs
    else [xs[0]] + InsertUnique(x, xs[1..])
  }

  /** `sort` then `dedup`. */
  function SortedUnique(xs: seq<string>): seq<string> {
    if xs == [] then [] else InsertUnique(xs[0], SortedUnique(xs[1..]))
  }

  function TrimAll(xs: seq<string>): (r: seq<string>)
    ensures forall x :: x in r ==> x != "" && Trim(x) == x
  {
    if xs == [] then []
    else
      TrimIdempotent(xs[0]);
      if Trim(xs[0]) == "" then TrimAll(xs[1..]) else [Trim(xs[0])] + TrimAll(xs[1..])
  }

  function NormalizedStrings(xs: seq<string>): seq<string> {
    SortedUnique(TrimAll(xs))
  }

  lemma {:induction false} InsertUniqueHolds(x: string, xs: seq<string>, y: string)
    ensures y in InsertUnique(x, xs) <==> y == x || y in xs
  {
    hide TextLeq;
    if xs != [] {
      FrontOrRest(xs[0], xs[1..], y);
      assert xs == [xs[0]] + xs[1..];
      if x != xs[0] && TextLeq(x, xs[0]) {
        FrontOrRest(x, xs, y);
      } else if x != xs[0] {
        InsertUniqueHolds(x, xs[1..], y);
        FrontOrRest(xs[0], InsertUnique(x, xs[1..]), y);
      }
    }
  }

  lemma FrontOrRest(x: string, xs: seq<string>, y: string)
    ensures y in [x] + xs <==> y == x || y in xs
  {
    assert ([x] + xs)[0] == x;
    if y in xs {
      var i :| 0 <= i < |xs| && xs[i] == y;
      assert ([x] + xs)[i + 1] == y;
    }
  }

  lemma BelowAscending(x: string, xs: seq<string>)
    requires Ascending(xs) && xs != [] && x != xs[0] && TextLeq(x, xs[0])
    ensures Ascending([x] + xs)
  {
    forall j | 0 <= j < |xs|
      ensures TextLeq(x, xs[j]) && x != xs[j]
    {
      if j > 0 {
        TextLeqTransitive(x, xs[0], xs[j]);
        TextLeqTotal(x, xs[0]);
      }
    }
    hide TextLeq;
  }

  lemma AscendingFrom(x: string, xs: seq<string>)
    requires Ascending(xs) && forall y :: y in xs ==> TextLeq(x, y) && x != y
    ensures Ascending([x] + xs)
  {
    hide TextLeq;
    var all := [x] + xs;
    forall i, j | 0 <= i < j < |all|
      ensures TextLeq(all[i], all[j]) && all[i] != all[j]
    {
      assert all[j] == xs[j - 1] && xs[j - 1] in xs;
      if i > 0 {
        assert all[i] == xs[i - 1];
      }
    }
  }

  lemma AscendingTail(xs: seq<string>)
    requires Ascending(xs) && xs != []
    ensures Ascending(xs[1..]) && forall y :: y in xs[1..] ==> TextLeq(xs[0], y) && xs[0] != y
  {
    hide TextLeq;
    forall i, j | 0 <= i < j < |xs| - 1
      ensures TextLeq(xs[1..][i], xs[1..][j]) && xs[1..][i] != xs[1..][j]
    {
      assert xs[1..][i] == xs[i + 1] && xs[1..][j] == xs[j + 1];
    }
    forall y | y in xs[1..]
      ensures TextLeq(xs[0], y) && xs[0] != y
    {
      var i :| 0 <= i < |xs| - 1 && xs[1..][i] == y;
      assert xs[i + 1] == y;
    }
  }

  lemma {:induction false} InsertUniqueKeeps(x: string, xs: seq<string>)
    requires Ascending(xs)
    ensures Ascending(InsertUnique(x, xs))
    ensures forall y :: y in InsertUnique(x, xs) <==> y == x || y in xs
  {
    hide Ascending, TextLeq;
    forall y {
      InsertUniqueHolds(x, xs, y);
    }
    if xs == [] {
      OneAscends(x);
    } else {
      TextLeqTotal(x, xs[0]);
      AscendingTail(xs);
      if x != xs[0] && TextLeq(x, xs[0]) {
        BelowAscending(x, xs);
      } else if x != xs[0] {
        InsertUniqueKeeps(x, xs[1..]);
        AscendingFrom(xs[0], InsertUnique(x, xs[1..]));
      }
    }
  }

  lemma OneAscends(x: string)
    ensures Ascending([x])
  {
  }

  lemma {:induction false} SortedUniqueIs(xs: seq<string>)
    ensures Ascending(SortedUnique(xs))
    ensures forall y :: y in SortedUnique(xs) <==> y in xs
  {
    if xs != [] {
      SortedUniqueIs(xs[1..]);
      InsertUniqueKeeps(xs[0], SortedUnique(xs[1..]));
      assert xs == [xs[0]] + xs[1..];
    }
  }

  predicate AllTrimmed(xs: seq<string>) {
    forall x :: x in xs ==> x != "" && Trim(x) == x
  }

  /** An ascending list of trimmed names is already normalised. */
  lemma AscendingIsNormalized(xs: seq<string>)
    requires Ascending(xs) && AllTrimmed(xs)
    ensures NormalizedStrings(xs) == xs && TrimAll(xs) == xs
  {
    hide Ascending, AllTrimmed;
    TrimmedStay(xs);
    AscendingStays(xs);
  }

  lemma {:induction false} TrimmedStay(xs: seq<string>)
    requires AllTrimmed(xs)
    ensures TrimAll(xs) == xs
  {
    hide Trim;
    if xs != [] {
      assert forall x :: x in xs[1..] ==> x in xs;
      TrimmedStay(xs[1..]);
      assert xs[0] in xs && xs == [xs[0]] + xs[1..];
    }
  }

  lemma {:induction false} AscendingStays(xs: seq<string>)
    requires Ascending(xs)
    ensures SortedUnique(xs) == xs
  {
    hide TextLeq;
    if xs != [] {
      forall i, j | 0 <= i < j < |xs| - 1
        ensures TextLeq(xs[1..][i], xs[1..][j]) && xs[1..][i] != xs[1..][j]
      {
        assert xs[1..][i] == xs[i + 1] && xs[1..][j] == xs[j + 1];
      }
      AscendingStays(xs[1..]);
      assert xs == [xs[0]] + xs[1..];
      if |xs| > 1 {
        assert TextLeq(xs[0], xs[1]) && xs[0] != xs[1];
        assert xs[1..][0] == xs[1];
      }
    }
  }

  ghost predicate TrimsTo(xs: seq<string>, name: string) {
    exists x :: x in xs && Trim(x) == name
  }

  lemma {:induction false} TrimAllIs(xs: seq<string>, name: string)
    ensures name in TrimAll(xs) <==> name != "" && TrimsTo(xs, name)
  {
    hide Trim;
    if xs != [] {
      assert xs == [xs[0]] + xs[1..];
      TrimAllIs(xs[1..], name);
      if TrimsTo(xs, name) {
        var x :| x in xs && Trim(x) == name;
        assert x == xs[0] || (x in xs[1..] && TrimsTo(xs[1..], name));
      }
      assert xs[0] in xs;
      if TrimsTo(xs[1..], name) {
        var x :| x in xs[1..] && Trim(x) == name;
        assert x in xs;
      }
    }
  }

  lemma NormalizedIs(xs: seq<string>)
    ensures Ascending(NormalizedStrings(xs)) && AllTrimmed(NormalizedStrings(xs))
  {
    SortedUniqueIs(TrimAll(xs));
  }

  /** Exactly the names that are not blank, trimmed, each once and in order. */
  lemma NormalizedHoldsExactly(xs: seq<string>, name: string)
    ensures Ascending(NormalizedStrings(xs))
    ensures name in NormalizedStrings(xs) <==> name != "" && TrimsTo(xs, name)
  {
    hide Ascending, TrimsTo;
    SortedUniqueIs(TrimAll(xs));
    TrimAllIs(xs, name);
  }

  function Names(xs: seq<string>): set<string> {
    set x | x in xs
  }

  // ---------- secrets ----------

  predicate IsMaskChar(c: char) {
    c == '*' || c == '\U{2022}' || c == '\U{25CF}' || c == '\U{B7}'
  }

  predicate IsMask(value: string) {
    var trimmed := Trim(value);
    trimmed != "" && forall c :: c in trimmed ==> IsMaskChar(c)
  }

  predicate IsConfigured(value: string) {
    var trimmed := Trim(value);
    trimmed != "" && trimmed[0] != '<' && trimmed[|trimmed| - 1] != '>'
  }

  /** Left empty, or sent back as the mask: not a new value. */
  predicate Untyped(value: string) {
    Blank(value) || IsMask(value)
  }

  function NormalizeSecret(s: Secret): Secret {
    if s.clear || Untyped(s.value) then s.(value := "") else s
  }

  function MaskSecret(s: Secret): Secret {
    Secret("", s.clear, !s.clear && IsConfigured(s.value))
  }

  /** The browser's copy loses the `configured` mark, which the server does not read back. */
  function ReadBack(s: Secret): Secret {
    s.(configured := false)
  }

  function MergeSecret(next: Secret, prev: Secret): Secret {
    if !next.clear && Untyped(next.value) then next.(value := prev.value, clear := prev.clear) else next
  }

  /** A stored secret: normalised, and without the mark of a public copy. */
  predicate StoredSecret(s: Secret) {
    NormalizeSecret(s) == s && !s.configured
  }

  lemma SecretComesBack(s: Secret)
    requires StoredSecret(s)
    ensures MergeSecret(ReadBack(MaskSecret(s)), s) == s
  {
  }

  // ---------- notification settings ----------

  function TrimSlashes(s: string): (r: string)
    ensures |r| <= |s|
  {
    if s != "" && s[|s| - 1] == '/' then TrimSlashes(s[..|s| - 1]) else s
  }

  function SplitOnce(s: string, sep: char): Option<(string, string)> {
    if s == "" then None
    else if s[0] == sep then Some(("", s[1..]))
    else
      match SplitOnce(s[1..], sep)
      case None => None
      case Some(parts) => Some(([s[0]] + parts.0, parts.1))
  }

  /** The first non-blank segment between slashes, trimmed. */
  function FirstSegment(path: string): Option<string>
    decreases |path|
  {
    match SplitOnce(path, '/')
    case None => if Blank(path) then None else Some(Trim(path))
    case Some(parts) =>
      SplitOnceShorter(path, '/');
      if Blank(parts.0) then FirstSegment(parts.1) else Some(Trim(parts.0))
  }

  lemma {:induction false} SplitOnceShorter(s: string, sep: char)
    ensures SplitOnce(s, sep).Some? ==> |SplitOnce(s, sep).value.1| < |s|
  {
    if s != "" && s[0] != sep {
      SplitOnceShorter(s[1..], sep);
    }
  }

  const HTTPS := "https://"
  const HTTP := "http://"

  /** A Bark URL that carries its device key as a path. */
  function SplitBarkServer(input: string): Option<(string, string)> {
    var value := TrimSlashes(Trim(input));
    var scheme := if HTTPS <= value then HTTPS else if HTTP <= value then HTTP else "";
    if scheme == "" || !(scheme <= value) then None
    else
      match SplitOnce(value[|scheme|..], '/')
      case None => None
      case Some(parts) =>
        match FirstSegment(parts.1)
        case None => None
        case Some(key) =>
          if Lower(key) == "push" || (Lower(parts.0) != "api.day.app" && |key| < 12) then None
          else Some((scheme + parts.0, key))
  }

  function NormalizeTgbot(t: Tgbot): Tgbot {
    t.(botToken := NormalizeSecret(t.botToken), chatId := NormalizeSecret(t.chatId))
  }

  function NormalizeBark(b: Bark): Bark {
    var server := TrimSlashes(Trim(b.server));
    var key := NormalizeSecret(b.deviceKey);
    match SplitBarkServer(server)
    case None => b.(server := server, deviceKey := key)
    case Some(parts) =>
      b.(server := parts.0,
         deviceKey := if !key.clear && key.value == "" then key.(value := parts.1) else key)
  }

  function NormalizeWechat(w: Wechat): Wechat {
    w.(corpId := Trim(w.corpId), agentId := Trim(w.agentId), title := Trim(w.title),
       corpSecret := NormalizeSecret(w.corpSecret))
  }

  function NormalizeEmail(e: Email): Email {
    e.(server := Trim(e.server), username := Trim(e.username), to := Trim(e.to), subject := Trim(e.subject),
       title := Trim(e.title), password := NormalizeSecret(e.password))
  }

  function NormalizeHeader(h: Header): Header {
    Header(Trim(h.name), NormalizeSecret(h.value))
  }

  function NormalizeReceiver(r: Receiver): Receiver {
    r.(id := Trim(r.id), name := Trim(r.name), username := Trim(r.username),
       url := NormalizeSecret(r.url.(value := Trim(r.url.value))),
       password := NormalizeSecret(r.password),
       headers := MapAll(NormalizeHeader, r.headers))
  }

  function NormalizeWebhook(w: Webhook): Webhook {
    w.(receivers := MapAll(NormalizeReceiver, w.receivers))
  }

  method NormalizeHeaders(headers: seq<Header>) returns (r: seq<Header>)
    ensures r == MapAll(NormalizeHeader, headers)
  {
    hide Trim, NormalizeSecret;
    r := [];
    for j := 0 to |headers|
      invariant |r| == j && forall k :: 0 <= k < j ==> r[k] == NormalizeHeader(headers[k])
    {
      r := r + [Header(Trim(headers[j].name), NormalizeSecret(headers[j].value))];
    }
  }

  method NormalizeReceiverOverride(receiver: Receiver) returns (r: Receiver)
    ensures r == NormalizeReceiver(receiver)
  {
    var headers := NormalizeHeaders(receiver.headers);
    hide Trim, NormalizeSecret;
    r := receiver.(id := Trim(receiver.id), name := Trim(receiver.name), username := Trim(receiver.username),
                   url := NormalizeSecret(receiver.url.(value := Trim(receiver.url.value))),
                   password := NormalizeSecret(receiver.password), headers := headers);
  }

  method NormalizeWebhookOverride(w: Webhook) returns (r: Webhook)
    ensures r == NormalizeWebhook(w)
  {
    hide NormalizeReceiver;
    var receivers := [];
    for i := 0 to |w.receivers|
      invariant |receivers| == i && forall k :: 0 <= k < i ==> receivers[k] == NormalizeReceiver(w.receivers[k])
    {
      var receiver := NormalizeReceiverOverride(w.receivers[i]);
      receivers := receivers + [receiver];
    }
    assert receivers == MapAll(NormalizeReceiver, w.receivers);
    r := w.(receivers := receivers);
  }

  // ---------- hosts, keys, groups and rules ----------

  function TrimOption(o: Option<string>): Option<string> {
    match o
    case None => None
    case Some(s) => if Trim(s) == "" then None else Some(Trim(s))
  }

  function NormalizeBilling(b: Billing): Billing {
    Billing(TrimOption(b.startDate), TrimOption(b.endDate), TrimOption(b.autoRenewal), TrimOption(b.cycle), TrimOption(b.amount))
  }

  function NormalizeNode(n: NodeOverride): NodeOverride {
    n.(alias := TrimOption(n.alias), note := TrimOption(n.note), publicNote := TrimOption(n.publicNote),
       spec := TrimOption(n.spec), expire := TrimOption(n.expire), billing := NormalizeBilling(n.billing))
  }

  function NormalizeKey(k: AccessKey): AccessKey {
    k.(sourceGid := Trim(k.sourceGid), password := Trim(k.password), location := Trim(k.location), kind := Trim(k.kind),
       labels := Trim(k.labels), expire := Trim(k.expire), billing := NormalizeBilling(k.billing))
  }

  function NormalizeGroup(g: ServerGroup): ServerGroup {
    ServerGroup(Trim(g.id), Trim(g.name), NormalizedStrings(g.servers))
  }

  function NormalizeNotificationGroup(g: NotificationGroup): NotificationGroup {
    NotificationGroup(Trim(g.id), Trim(g.name), NormalizedStrings(g.notifications))
  }

  function AtLeast(a: nat, b: nat): nat {
    if a >= b then a else b
  }

  function NormalizeThreshold(metric: string, threshold: Option<real>): Option<real> {
    if metric == "offline" || threshold.None? then None
    else if threshold.value < 0.0 then Some(0.0)
    else if metric in ["cpu", "memory", "disk"] && threshold.value > 100.0 then Some(100.0)
    else threshold
  }

  function NormalizeRule(r: AlertRule): AlertRule {
    AlertRule(Trim(r.id), Trim(r.name), r.enabled, Trim(r.metric), NormalizeThreshold(Trim(r.metric), r.threshold),
              AtLeast(r.duration, 30), AtLeast(r.repeatInterval, 60), Trim(r.notificationGroup),
              NormalizedStrings(r.notifications), NormalizedStrings(r.serverGroups), NormalizedStrings(r.servers))
  }

  function GroupId(g: ServerGroup): string { g.id }
  function NotificationGroupId(g: NotificationGroup): string { g.id }
  function RuleId(r: AlertRule): string { r.id }

  predicate CompleteGroup(g: ServerGroup) { g.id != "" && g.name != "" }
  predicate CompleteNotificationGroup(g: NotificationGroup) { g.id != "" && g.name != "" }
  predicate CompleteRule(r: AlertRule) { r.id != "" && r.name != "" && r.metric != "" }

  function Groups(xs: seq<ServerGroup>): seq<ServerGroup> {
    DedupFrom(GroupId, Keep(CompleteGroup, MapAll(NormalizeGroup, xs)), {})
  }

  function NotificationGroups(xs: seq<NotificationGroup>): seq<NotificationGroup> {
    DedupFrom(NotificationGroupId, Keep(CompleteNotificationGroup, MapAll(NormalizeNotificationGroup, xs)), {})
  }

  function Rules(xs: seq<AlertRule>): seq<AlertRule> {
    DedupFrom(RuleId, Keep(CompleteRule, MapAll(NormalizeRule, xs)), {})
  }

  function NotIn(names: set<string>, xs: seq<string>): (r: seq<string>)
    ensures forall x :: x in r <==> x in xs && x !in names
    ensures (forall x :: x in xs ==> x !in names) ==> r == xs
  {
    Keep(x => x !in names, xs)
  }

  function GroupWithout(names: set<string>, g: ServerGroup): ServerGroup {
    g.(servers := NotIn(names, g.servers))
  }

  function RuleWithout(names: set<string>, r: AlertRule): AlertRule {
    r.(servers := NotIn(names, r.servers))
  }

  function GroupsWithout(names: set<string>, xs: seq<ServerGroup>): seq<ServerGroup> {
    MapAll(g => GroupWithout(names, g), xs)
  }

  function RulesWithout(names: set<string>, xs: seq<AlertRule>): seq<AlertRule> {
    MapAll(r => RuleWithout(names, r), xs)
  }

  /** Named entries, normalised, without blank names and the given ones. */
  function Entries<V>(normalize: V -> V, without: set<string>, m: map<string, V>): map<string, V> {
    map k | k in m && !Blank(k) && k !in without :: normalize(m[k])
  }

  predicate LiveToken(t: InstallToken, now: nat) {
    !t.tokenHash.EmptyDigest? && t.expiresAt >= now
  }

  function LiveTokens(tokens: map<Digest, InstallToken>, now: nat): map<Digest, InstallToken> {
    map k | k in tokens && LiveToken(tokens[k], now) :: tokens[k]
  }

  function UsableTokens(tokens: map<Digest, InstallToken>, now: nat): map<Digest, InstallToken> {
    map k | k in tokens && !k.EmptyDigest? && !Blank(tokens[k].gid) && !Blank(tokens[k].uid) && LiveToken(tokens[k], now) ::
      tokens[k]
  }

  function NormalizePath(path: string): string {
    var trimmed := Trim(TrimSlashes(Trim(path)));
    if trimmed == "" then DEFAULT_ADMIN_PATH else if trimmed[0] == '/' then trimmed else "/" + trimmed
  }

  function NormalizeBaseUrl(url: string): string {
    TrimSlashes(Trim(url))
  }

  function OptionMap<S, T>(f: S -> T, o: Option<S>): Option<T> {
    match o
    case None => None
    case Some(x) => Some(f(x))
  }

  /** `normalize_admin_data`, at time `now`. */
  function Normalize(d: AdminData, now: nat): AdminData {
    var deletedHosts := NormalizedStrings(d.deletedHosts);
    var deletedKeys := NormalizedStrings(d.deletedAccessKeys);
    d.(adminUser := TrimOption(d.adminUser),
       adminPath := NormalizePath(d.adminPath),
       tgbot := OptionMap(NormalizeTgbot, d.tgbot),
       bark := OptionMap(NormalizeBark, d.bark),
       wechat := OptionMap(NormalizeWechat, d.wechat),
       email := OptionMap(NormalizeEmail, d.email),
       webhook := OptionMap(NormalizeWebhook, d.webhook),
       hosts := Entries(NormalizeNode, Names(deletedHosts), d.hosts),
       groups := Entries(NormalizeNode, Names(deletedKeys), d.groups),
       accessKeys := Entries(NormalizeKey, Names(deletedKeys), d.accessKeys),
       serverGroups := GroupsWithout(Names(deletedHosts), Groups(d.serverGroups)),
       notificationGroups := NotificationGroups(d.notificationGroups),
       alertRules := RulesWithout(Names(deletedHosts), Rules(d.alertRules)),
       deletedHosts := deletedHosts,
       deletedAccessKeys := deletedKeys,
       installTokens := UsableTokens(d.installTokens, now))
  }

  // ---------- well-formed settings ----------

  predicate DistinctIds<T>(id: T -> string, xs: seq<T>) {
    forall i, j :: 0 <= i < j < |xs| ==> id(xs[i]) != id(xs[j])
  }

  predicate Avoids(xs: seq<string>, names: set<string>) {
    forall x :: x in xs ==> x !in names
  }

  /** Ids are unique, no name is blank, and nothing names a deleted host or a deleted access key. */
  predicate WellFormed(d: AdminData) {
    && (forall k :: k in d.hosts ==> !Blank(k))
    && (forall k :: k in d.accessKeys ==> !Blank(k)) && (forall k :: k in d.groups ==> !Blank(k))
    && DistinctIds(GroupId, d.serverGroups)
    && DistinctIds(NotificationGroupId, d.notificationGroups)
    && DistinctIds(RuleId, d.alertRules)
    && Ascending(d.deletedHosts) && AllTrimmed(d.deletedHosts)
    && Ascending(d.deletedAccessKeys) && AllTrimmed(d.deletedAccessKeys)
    && d.hosts.Keys !! Names(d.deletedHosts)
    && d.accessKeys.Keys !! Names(d.deletedAccessKeys) && d.groups.Keys !! Names(d.deletedAccessKeys)
    && (forall i :: 0 <= i < |d.serverGroups| ==> Avoids(d.serverGroups[i].servers, Names(d.deletedHosts)))
    && (forall i :: 0 <= i < |d.alertRules| ==> Avoids(d.alertRules[i].servers, Names(d.deletedHosts)))
  }

  /** Normalising makes any settings well formed. */
  lemma NormalizeIsWellFormed(d: AdminData, now: nat)
    ensures WellFormed(Normalize(d, now))
  {
    hide NormalizeNode, NormalizeKey, Groups, Rules, NotificationGroups, NormalizedStrings, GroupsWithout, RulesWithout, Ascending,
         AllTrimmed, NormalizePath, NormalizeTgbot, NormalizeBark, NormalizeWechat, NormalizeEmail, NormalizeWebhook, UsableTokens;
    NormalizedIs(d.deletedHosts);
    NormalizedIs(d.deletedAccessKeys);
    ListsAreDistinct(d);
    var n := Normalize(d, now);
    GroupsWithoutDistinct(Names(n.deletedHosts), Groups(d.serverGroups));
    RulesWithoutDistinct(Names(n.deletedHosts), Rules(d.alertRules));
  }

  lemma ListsAreDistinct(d: AdminData)
    ensures DistinctIds(GroupId, Groups(d.serverGroups)) && DistinctIds(RuleId, Rules(d.alertRules))
    ensures DistinctIds(NotificationGroupId, NotificationGroups(d.notificationGroups))
  {
  }

  lemma GroupsWithoutDistinct(names: set<string>, xs: seq<ServerGroup>)
    requires DistinctIds(GroupId, xs)
    ensures DistinctIds(GroupId, GroupsWithout(names, xs))
    ensures forall i :: 0 <= i < |GroupsWithout(names, xs)| ==> Avoids(GroupsWithout(names, xs)[i].servers, names)
  {
  }

  lemma RulesWithoutDistinct(names: set<string>, xs: seq<AlertRule>)
    requires DistinctIds(RuleId, xs)
    ensures DistinctIds(RuleId, RulesWithout(names, xs))
    ensures forall i :: 0 <= i < |RulesWithout(names, xs)| ==> Avoids(RulesWithout(names, xs)[i].servers, names)
  {
  }

  // ---------- normalised parts stay normalised ----------

  lemma {:induction false} KeepAscending(p: string -> bool, xs: seq<string>)
    requires Ascending(xs)
    ensures Ascending(Keep(p, xs))
  {
    if xs != [] {
      KeepAscending(p, xs[1..]);
      var rest := Keep(p, xs[1..]);
      forall j | 0 <= j < |rest|
        ensures TextLeq(xs[0], rest[j]) && xs[0] != rest[j]
      {
        assert rest[j] in xs[1..];
      }
    }
  }

  lemma NotInKeepsAscending(names: set<string>, xs: seq<string>)
    requires Ascending(xs)
    ensures Ascending(NotIn(names, xs))
  {
    KeepAscending(x => x !in names, xs);
  }

  /** A list that is some normalised list less some names is normalised itself. */
  lemma FilteredIsNormalized(xs: seq<string>, names: set<string>)
    requires NotIn(names, NormalizedStrings(xs)) == xs
    ensures NormalizedStrings(xs) == xs
  {
    NormalizedIs(xs);
    NotInKeepsAscending(names, NormalizedStrings(xs));
    AscendingIsNormalized(xs);
  }

  lemma SettledGroups(xs: seq<ServerGroup>, names: set<string>)
    requires GroupsWithout(names, Groups(xs)) == xs
    ensures Groups(xs) == xs
  {
    var normalized := MapAll(NormalizeGroup, xs);
    assert Groups(xs) == normalized;
    forall i | 0 <= i < |xs|
      ensures normalized[i] == xs[i]
    {
      assert GroupWithout(names, normalized[i]) == xs[i];
      FilteredIsNormalized(xs[i].servers, names);
    }
  }

  lemma SettledRules(xs: seq<AlertRule>, names: set<string>)
    requires RulesWithout(names, Rules(xs)) == xs
    ensures Rules(xs) == xs
  {
    var normalized := MapAll(NormalizeRule, xs);
    assert Rules(xs) == normalized;
    forall i | 0 <= i < |xs|
      ensures normalized[i] == xs[i]
    {
      assert RuleWithout(names, normalized[i]) == xs[i];
      FilteredIsNormalized(xs[i].servers, names);
    }
  }

  function Less<V>(m: map<string, V>, names: set<string>): map<string, V> {
    map k | k in m && k !in names :: m[k]
  }

  lemma SettledEntries<V>(normalize: V -> V, names: set<string>, m: map<string, V>, names': set<string>)
    requires Entries(normalize, names, m) == m
    ensures Entries(normalize, names', m) == Less(m, names')
  {
    forall k | k in m
      ensures !Blank(k) && normalize(m[k]) == m[k]
    {
      assert k in Entries(normalize, names, m);
    }
  }

  lemma {:induction false} DedupOfDistinct<T(!new)>(id: T -> string, xs: seq<T>, seen: set<string>)
    requires DistinctIds(id, xs) && forall x :: x in xs ==> id(x) !in seen
    ensures DedupFrom(id, xs, seen) == xs
  {
    if xs != [] {
      assert xs == [xs[0]] + xs[1..];
      forall x | x in xs[1..]
        ensures id(x) !in seen + {id(xs[0])}
      {
        var i :| 0 <= i < |xs| - 1 && xs[1..][i] == x;
        assert xs[i + 1] == x;
      }
      DedupOfDistinct(id, xs[1..], seen + {id(xs[0])});
    }
  }

  lemma GroupWithoutStays(g: ServerGroup, names: set<string>)
    requires NormalizeGroup(g) == g
    ensures NormalizeGroup(GroupWithout(names, g)) == GroupWithout(names, g)
  {
    hide Trim, NormalizedStrings, NotIn;
    SettledNames(g.servers, names);
  }

  lemma RuleWithoutStays(r: AlertRule, names: set<string>)
    requires NormalizeRule(r) == r
    ensures NormalizeRule(RuleWithout(names, r)) == RuleWithout(names, r)
  {
    hide Trim, NormalizedStrings, NotIn, NormalizeThreshold;
    SettledNames(r.servers, names);
  }

  lemma SettledGroupsWithout(xs: seq<ServerGroup>, names: set<string>)
    requires Groups(xs) == xs
    ensures Groups(GroupsWithout(names, xs)) == GroupsWithout(names, xs)
  {
    hide NormalizeGroup;
    var ys := GroupsWithout(names, xs);
    assert MapAll(NormalizeGroup, xs) == xs;
    forall i | 0 <= i < |xs|
      ensures NormalizeGroup(ys[i]) == ys[i] && CompleteGroup(ys[i])
    {
      assert NormalizeGroup(xs[i]) == xs[i] && xs[i] in Keep(CompleteGroup, xs);
      GroupWithoutStays(xs[i], names);
    }
    assert MapAll(NormalizeGroup, ys) == ys && Keep(CompleteGroup, ys) == ys;
    DedupOfDistinct(GroupId, ys, {});
  }

  lemma SettledRulesWithout(xs: seq<AlertRule>, names: set<string>)
    requires Rules(xs) == xs
    ensures Rules(RulesWithout(names, xs)) == RulesWithout(names, xs)
  {
    hide NormalizeRule;
    var ys := RulesWithout(names, xs);
    assert MapAll(NormalizeRule, xs) == xs;
    forall i | 0 <= i < |xs|
      ensures NormalizeRule(ys[i]) == ys[i] && CompleteRule(ys[i])
    {
      assert NormalizeRule(xs[i]) == xs[i] && xs[i] in Keep(CompleteRule, xs);
      RuleWithoutStays(xs[i], names);
    }
    assert MapAll(NormalizeRule, ys) == ys && Keep(CompleteRule, ys) == ys;
    DedupOfDistinct(RuleId, ys, {});
  }

  lemma SettledNames(xs: seq<string>, names: set<string>)
    requires NormalizedStrings(xs) == xs
    ensures NormalizedStrings(NotIn(names, xs)) == NotIn(names, xs)
  {
    NormalizedIs(xs);
    NotInKeepsAscending(names, xs);
    AscendingIsNormalized(NotIn(names, xs));
  }

  lemma AvoidedGroups(xs: seq<ServerGroup>, names: set<string>, without: set<string>)
    requires GroupsWithout(names, xs) == xs
    ensures forall fewer: set<string> :: fewer <= names ==> GroupsWithout(fewer, GroupsWithout(without, xs)) == GroupsWithout(without, xs)
  {
    forall fewer: set<string> | fewer <= names
      ensures GroupsWithout(fewer, GroupsWithout(without, xs)) == GroupsWithout(without, xs)
    {
      forall i | 0 <= i < |xs|
        ensures GroupWithout(fewer, GroupWithout(without, xs[i])) == GroupWithout(without, xs[i])
      {
        assert GroupWithout(names, xs[i]) == xs[i];
      }
    }
  }

  lemma AvoidedRules(xs: seq<AlertRule>, names: set<string>, without: set<string>)
    requires RulesWithout(names, xs) == xs
    ensures forall fewer: set<string> :: fewer <= names ==> RulesWithout(fewer, RulesWithout(without, xs)) == RulesWithout(without, xs)
  {
    forall fewer: set<string> | fewer <= names
      ensures RulesWithout(fewer, RulesWithout(without, xs)) == RulesWithout(without, xs)
    {
      forall i | 0 <= i < |xs|
        ensures RuleWithout(fewer, RuleWithout(without, xs[i])) == RuleWithout(without, xs[i])
      {
        assert RuleWithout(names, xs[i]) == xs[i];
      }
    }
  }

  lemma SettledHosts(hosts: map<string, NodeOverride>, deleted: set<string>, fewer: set<string>, names: set<string>)
    requires Entries(NormalizeNode, deleted, hosts) == hosts && fewer <= deleted
    ensures Entries(NormalizeNode, fewer, Less(hosts, names)) == Less(hosts, names)
  {
    SettledEntries(NormalizeNode, deleted, hosts, names);
    forall k | k in hosts
      ensures !Blank(k) && k !in deleted && NormalizeNode(hosts[k]) == hosts[k]
    {
      assert k in Entries(NormalizeNode, deleted, hosts);
    }
  }
}
