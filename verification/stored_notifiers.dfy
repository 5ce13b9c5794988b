/** What an accepted replacement stores of the notifiers, field by field, and which replacements are refused. */
module StoredNotifiers {
  import opened Wrappers
  import opened Text
  import opened Settings
  import opened AdminNormalize
  import opened AdminReplace
  import opened Credentials
  import opened StoredFields

  // ---------- secrets ----------

  /** The characters a browser shows in place of a secret. */
  const MASK := "*\U{2022}\U{25CF}\U{B7}"

  /** The administrator typed something that is not all mask. */
  predicate Typed(value: string) {
    exists i :: 0 <= i < |Trim(value)| && Trim(value)[i] !in MASK
  }

  /** A secret that is typed is kept as typed; one left alone is the stored one, if there is one; clearing empties it. */
  predicate KeptAs(submitted: Secret, stored: Option<Secret>, clear: bool, value: string) {
    if submitted.clear then clear && value == ""
    else if Typed(submitted.value) then !clear && value == submitted.value
    else if stored.None? then !clear && value == ""
    else (clear <==> stored.value.clear) && value == if clear || !Typed(stored.value.value) then "" else stored.value.value
  }

  predicate SecretStored(submitted: Secret, stored: Option<Secret>, saved: Secret) {
    KeptAs(submitted, stored, saved.clear, saved.value)
  }

  /** An address that is secret is trimmed besides. */
  predicate UrlSecretStored(submitted: Secret, stored: Option<Secret>, saved: Secret, kept: string) {
    KeptAs(submitted, stored, saved.clear, kept) && saved.value == Trim(kept)
  }

  lemma UntypedIsNotTyped(value: string)
    ensures Untyped(value) <==> !Typed(value)
  {
    var t := Trim(value);
    if Untyped(value) && t != "" {
      assert forall i :: 0 <= i < |t| ==> t[i] in t;
    }
    forall c
      ensures IsMaskChar(c) <==> c in MASK
    {
      assert MASK[0] == '*' && MASK[1] == '\U{2022}' && MASK[2] == '\U{25CF}' && MASK[3] == '\U{B7}';
    }
    if !Typed(value) && t != "" {
      forall c | c in t
        ensures IsMaskChar(c)
      {
        var i :| 0 <= i < |t| && t[i] == c;
      }
    }
  }

  function MergedWith(next: Secret, prev: Option<Secret>): Secret {
    match prev
    case None => next
    case Some(secret) => MergeSecret(next, secret)
  }

  lemma SecretIsStored(next: Secret, prev: Option<Secret>)
    ensures SecretStored(next, prev, NormalizeSecret(MergedWith(next, prev)))
  {
    hide Trim, Typed, Untyped;
    UntypedIsNotTyped(next.value);
    if prev.Some? {
      UntypedIsNotTyped(prev.value.value);
    }
  }

  lemma UrlSecretIsStored(next: Secret, prev: Option<Secret>)
    ensures var merged := MergedWith(next, prev);
            var saved := NormalizeSecret(merged.(value := Trim(merged.value)));
            UrlSecretStored(next, prev, saved, NormalizeSecret(merged).value)
  {
    var merged := MergedWith(next, prev);
    SecretIsStored(next, prev);
    TrimIdempotent(merged.value);
    TrimFixed("");
    hide Trim, KeptAs, MergedWith;
  }

  // ---------- chat and mail ----------

  predicate TgbotStored(submitted: Tgbot, stored: Option<Tgbot>, saved: Tgbot) {
    && saved.enabled == submitted.enabled && saved.title == submitted.title && saved.templates == submitted.templates
    && SecretStored(submitted.botToken, if stored.Some? then Some(stored.value.botToken) else None, saved.botToken)
    && SecretStored(submitted.chatId, if stored.Some? then Some(stored.value.chatId) else None, saved.chatId)
  }

  predicate WechatStored(submitted: Wechat, stored: Option<Wechat>, saved: Wechat) {
    && saved.enabled == submitted.enabled && saved.templates == submitted.templates
    && saved.corpId == Trim(submitted.corpId) && saved.agentId == Trim(submitted.agentId) && saved.title == Trim(submitted.title)
    && SecretStored(submitted.corpSecret, if stored.Some? then Some(stored.value.corpSecret) else None, saved.corpSecret)
  }

  predicate EmailStored(submitted: Email, stored: Option<Email>, saved: Email) {
    && saved.enabled == submitted.enabled && saved.templates == submitted.templates
    && saved.server == Trim(submitted.server) && saved.username == Trim(submitted.username) && saved.to == Trim(submitted.to)
    && saved.subject == Trim(submitted.subject) && saved.title == Trim(submitted.title)
    && SecretStored(submitted.password, if stored.Some? then Some(stored.value.password) else None, saved.password)
  }

  lemma TgbotIsStored(next: Tgbot, prev: Option<Tgbot>)
    ensures TgbotStored(next, prev, NormalizeTgbot(if prev.Some? then MergeTgbot(next, prev.value) else next))
  {
    hide SecretStored, NormalizeSecret, MergeSecret;
    SecretIsStored(next.botToken, if prev.Some? then Some(prev.value.botToken) else None);
    SecretIsStored(next.chatId, if prev.Some? then Some(prev.value.chatId) else None);
  }

  lemma WechatIsStored(next: Wechat, prev: Option<Wechat>)
    ensures WechatStored(next, prev, NormalizeWechat(if prev.Some? then MergeWechat(next, prev.value) else next))
  {
    hide SecretStored, NormalizeSecret, MergeSecret, Trim;
    SecretIsStored(next.corpSecret, if prev.Some? then Some(prev.value.corpSecret) else None);
  }

  lemma EmailIsStored(next: Email, prev: Option<Email>)
    ensures EmailStored(next, prev, NormalizeEmail(if prev.Some? then MergeEmail(next, prev.value) else next))
  {
    hide SecretStored, NormalizeSecret, MergeSecret, Trim;
    SecretIsStored(next.password, if prev.Some? then Some(prev.value.password) else None);
  }

  // ---------- Bark ----------

  /** The key is the first segment of the path that is not blank, trimmed. */
  predicate IsSegment(path: string, a: nat, b: nat) {
    && a < b <= |path| && (a == 0 || path[a - 1] == '/') && (b == |path| || path[b] == '/')
    && forall i :: a <= i < b ==> path[i] != '/'
  }

  predicate NothingBefore(path: string, a: nat) {
    a <= |path| && forall i :: 0 <= i < a ==> path[i] == '/' || IsSpace(path[i])
  }

  predicate KeyAt(path: string, a: nat, b: nat, key: string) {
    IsSegment(path, a, b) && NothingBefore(path, a) && key != "" && key == Trim(path[a..b])
  }

  ghost predicate KeyInPath(path: string, key: string) {
    exists a: nat, b: nat :: KeyAt(path, a, b, key)
  }

  lemma {:induction false} SplitOnceIs(s: string, sep: char)
    ensures var r := SplitOnce(s, sep);
            && (r.None? <==> sep !in s)
            && (r.Some? ==> s == r.value.0 + [sep] + r.value.1 && sep !in r.value.0)
  {
    if s != "" && s[0] != sep {
      SplitOnceIs(s[1..], sep);
      assert s == [s[0]] + s[1..];
    }
  }

  lemma BlankIsAllSpace(s: string)
    ensures Blank(s) <==> forall i :: 0 <= i < |s| ==> IsSpace(s[i])
  {
    var a, b := TrimIs(s);
    if !Blank(s) {
      assert !IsSpace(s[a]);
    }
  }

  lemma {:induction false} FirstSegmentIsKey(path: string, key: string)
    ensures FirstSegment(path) == Some(key) <==> KeyInPath(path, key)
    decreases |path|
  {
    SplitOnceIs(path, '/');
    SplitOnceShorter(path, '/');
    BlankIsAllSpace(path);
    match SplitOnce(path, '/') {
      case None => OnlySegment(path, key);
      case Some(parts) =>
        BlankIsAllSpace(parts.0);
        if Blank(parts.0) {
          FirstSegmentIsKey(parts.1, key);
          LaterSegment(path, parts.0, parts.1, key);
        } else {
          FrontSegment(path, parts.0, parts.1, key);
        }
    }
  }

  lemma OnlySegment(path: string, key: string)
    requires '/' !in path && (Blank(path) <==> forall i :: 0 <= i < |path| ==> IsSpace(path[i]))
    ensures (if Blank(path) then None else Some(Trim(path))) == Some(key) <==> KeyInPath(path, key)
  {
    hide Trim, IsSpace;
    assert path[0..|path|] == path;
    if !Blank(path) && Trim(path) == key {
      assert forall i :: 0 <= i < |path| ==> path[i] in path;
      assert KeyAt(path, 0, |path|, key);
    }
    if KeyInPath(path, key) {
      var a: nat, b: nat :| KeyAt(path, a, b, key);
      assert a == 0 && b == |path|;
    }
  }

  predicate Parts(path: string, front: string, rest: string) {
    path == front + "/" + rest && '/' !in front
  }

  lemma AtFront(path: string, front: string, rest: string, b: nat)
    requires Parts(path, front, rest) && IsSegment(path, 0, b)
    ensures b == |front| && path[..b] == front
  {
    assert path[|front|] == '/';
    assert forall i :: 0 <= i < |front| ==> path[i] == front[i] && front[i] in front;
  }

  /** Where the two parts stand in the whole. */
  lemma FrontAt(path: string, front: string, rest: string)
    requires Parts(path, front, rest)
    ensures |path| == |front| + 1 + |rest| && path[|front|] == '/'
    ensures forall i :: 0 <= i < |front| ==> path[i] == front[i] && front[i] != '/'
  {
    assert forall i :: 0 <= i < |front| ==> front[i] in front;
  }

  lemma RestAt(path: string, front: string, rest: string, j: nat)
    requires Parts(path, front, rest) && j < |rest|
    ensures j + |front| + 1 < |path| && path[j + |front| + 1] == rest[j]
  {
  }

  /** A segment that starts after the first slash is a segment of the rest. */
  lemma PastFront(path: string, front: string, rest: string, a: nat, b: nat)
    requires Parts(path, front, rest) && IsSegment(path, a, b) && a > 0
    ensures |front| < a < b && IsSegment(rest, a - |front| - 1, b - |front| - 1)
    ensures path[a..b] == rest[a - |front| - 1..b - |front| - 1]
  {
    FrontAt(path, front, rest);
    var n := |front| + 1;
    assert a >= n by {
      assert path[a - 1] == '/';
    }
    assert path[n..] == rest;
    assert path[a..b] == path[n..][a - n..b - n];
    hide Parts;
    forall i | a - n <= i < b - n
      ensures rest[i] != '/'
    {
      assert path[i + n] == path[n..][i];
    }
  }

  /** With nothing before it there, there is nothing before it in the whole but the spaces of the first part. */
  lemma NothingBeforeRest(path: string, front: string, rest: string, a: nat)
    requires Parts(path, front, rest) && NothingBefore(path, a) && a > |front|
    ensures NothingBefore(rest, a - |front| - 1) && forall i :: 0 <= i < |front| ==> IsSpace(front[i])
  {
    FrontAt(path, front, rest);
    hide IsSpace;
    forall j | 0 <= j < a - |front| - 1
      ensures rest[j] == '/' || IsSpace(rest[j])
    {
      RestAt(path, front, rest, j);
    }
  }

  lemma ShiftedKey(path: string, front: string, rest: string, a: nat, b: nat, key: string)
    requires Parts(path, front, rest) && KeyAt(rest, a, b, key) && forall i :: 0 <= i < |front| ==> IsSpace(front[i])
    ensures KeyAt(path, a + |front| + 1, b + |front| + 1, key)
  {
    hide Trim, IsSpace;
    var n := |front| + 1;
    FrontAt(path, front, rest);
    assert path[n..] == rest;
    assert path[a + n..b + n] == path[n..][a..b];
    hide Parts;
    forall i | a + n <= i < b + n
      ensures path[i] != '/'
    {
      assert path[i] == path[n..][i - n];
    }
    forall i | 0 <= i < a + n
      ensures path[i] == '/' || IsSpace(path[i])
    {
      assert i >= n ==> path[i] == path[n..][i - n];
    }
  }

  lemma LaterSegment(path: string, front: string, rest: string, key: string)
    requires Parts(path, front, rest) && Blank(front) && forall i :: 0 <= i < |front| ==> IsSpace(front[i])
    ensures KeyInPath(rest, key) <==> KeyInPath(path, key)
  {
    hide IsSpace, IsSegment, NothingBefore, Parts;
    if KeyInPath(rest, key) {
      var a: nat, b: nat :| KeyAt(rest, a, b, key);
      ShiftedKey(path, front, rest, a, b, key);
    }
    if KeyInPath(path, key) {
      var a: nat, b: nat :| KeyAt(path, a, b, key);
      if a == 0 {
        AtFront(path, front, rest, b);
      } else {
        PastFront(path, front, rest, a, b);
        NothingBeforeRest(path, front, rest, a);
        assert KeyAt(rest, a - |front| - 1, b - |front| - 1, key);
      }
    }
  }

  lemma FrontSegment(path: string, front: string, rest: string, key: string)
    requires Parts(path, front, rest) && !Blank(front) && exists i :: 0 <= i < |front| && !IsSpace(front[i])
    ensures Trim(front) == key <==> KeyInPath(path, key)
  {
    hide IsSpace, Trim;
    if Trim(front) == key {
      assert path[..|front|] == front;
      assert forall i :: 0 <= i < |front| ==> path[i] == front[i] && front[i] in front;
      assert KeyAt(path, 0, |front|, key);
    }
    if KeyInPath(path, key) {
      hide IsSegment, NothingBefore, Parts;
      var a: nat, b: nat :| KeyAt(path, a, b, key);
      if a == 0 {
        AtFront(path, front, rest, b);
      } else {
        PastFront(path, front, rest, a, b);
        NothingBeforeRest(path, front, rest, a);
      }
    }
  }

  /** The address is a scheme, a host and a path with a device key, and not the push endpoint of some server. */
  predicate CarriesParts(address: string, server: string, key: string, scheme: string, host: string, path: string) {
    && (scheme == "https://" || scheme == "http://") && '/' !in host
    && address == scheme + host + "/" + path && server == scheme + host
    && Lower(key) != "push" && (Lower(host) == "api.day.app" || |key| >= 12)
  }

  ghost predicate Carries(address: string, server: string, key: string) {
    exists scheme, host, path :: CarriesParts(address, server, key, scheme, host, path) && KeyInPath(path, key)
  }

  lemma SchemesDiffer(value: string)
    ensures !("https://" <= value && "http://" <= value)
  {
    assert "https://"[4] == 's' && "http://"[4] == ':';
  }

  lemma HostEnds(host: string, path: string, otherHost: string, otherPath: string)
    requires host + "/" + path == otherHost + "/" + otherPath && '/' !in host && '/' !in otherHost
    ensures host == otherHost && path == otherPath
  {
    FirstSlash(host, path);
    FirstSlash(otherHost, otherPath);
    var s := host + "/" + path;
    assert s[..|host|] == host && s[..|otherHost|] == otherHost;
    assert s[|host| + 1..] == path && s[|otherHost| + 1..] == otherPath;
  }

  lemma FirstSlash(host: string, path: string)
    requires '/' !in host
    ensures var s := host + "/" + path; s[|host|] == '/' && forall i :: 0 <= i < |host| ==> s[i] != '/'
  {
    assert forall i :: 0 <= i < |host| ==> host[i] in host;
  }

  /** The parts of an address are its own. */
  lemma PartsAreUnique(
    address: string, server: string, key: string, scheme: string, host: string, path: string,
    ownScheme: string, ownHost: string, ownPath: string)
    requires CarriesParts(address, server, key, scheme, host, path)
    requires (ownScheme == "https://" || ownScheme == "http://") && '/' !in ownHost
    requires address == ownScheme + ownHost + "/" + ownPath
    ensures scheme == ownScheme && host == ownHost && path == ownPath
  {
    hide Lower;
    assert scheme <= address && ownScheme <= address;
    SchemesDiffer(address);
    assert address[|scheme|..] == host + "/" + path && address[|ownScheme|..] == ownHost + "/" + ownPath;
    HostEnds(host, path, ownHost, ownPath);
  }

  /** The server and key of a device address, in terms of its text. */
  lemma SplitBarkServerTells(input: string, server: string, key: string)
    ensures SplitBarkServer(input) == Some((server, key)) <==> Carries(NormalizeBaseUrl(input), server, key)
  {
    hide TrimSlashes, Trim, FirstSegment, SplitOnce, KeyInPath, Lower;
    var value := NormalizeBaseUrl(input);
    var scheme := if HTTPS <= value then HTTPS else HTTP;
    if scheme <= value {
      var rest := value[|scheme|..];
      assert value == scheme + rest;
      SplitOnceIs(rest, '/');
      match SplitOnce(rest, '/') {
        case None =>
          SchemesDiffer(value);
          CarriedHasPath(value, server, key);
        case Some(parts) =>
          FirstSegmentIsKey(parts.1, key);
          assert value == scheme + parts.0 + "/" + parts.1;
          if Carries(value, server, key) {
            var s, h, p :| CarriesParts(value, server, key, s, h, p) && KeyInPath(p, key);
            PartsAreUnique(value, server, key, s, h, p, scheme, parts.0, parts.1);
          }
          if SplitBarkServer(input) == Some((server, key)) {
            assert CarriesParts(value, server, key, scheme, parts.0, parts.1);
          }
      }
    } else {
      CarriedHasPath(value, server, key);
    }
  }

  lemma CarriedHasPath(value: string, server: string, key: string)
    ensures Carries(value, server, key) ==>
              ("https://" <= value && '/' in value[8..]) || ("http://" <= value && '/' in value[7..])
  {
    hide Lower, KeyInPath;
    if Carries(value, server, key) {
      var scheme, host, path :| CarriesParts(value, server, key, scheme, host, path) && KeyInPath(path, key);
      assert scheme <= value && value[|scheme|..] == host + "/" + path;
      assert value[|scheme|..][|host|] == '/';
    }
  }

  /** An address that carries a key is stored without it, and the key is the device key unless one is given or kept. */
  ghost predicate BarkStored(submitted: Bark, stored: Option<Bark>, saved: Bark, address: string, kept: Secret) {
    && saved.enabled == submitted.enabled && saved.title == submitted.title && saved.group == submitted.group
    && saved.icon == submitted.icon && saved.sound == submitted.sound && saved.url == submitted.url
    && saved.timeout == submitted.timeout && saved.templates == submitted.templates
    && UrlStored(submitted.server, address)
    && SecretStored(submitted.deviceKey, if stored.Some? then Some(stored.value.deviceKey) else None, kept)
    && (forall server, key :: Carries(NormalizeBaseUrl(address), server, key) ==>
          && saved.server == server
          && saved.deviceKey == if !kept.clear && kept.value == "" then kept.(value := key) else kept)
    && ((forall server, key :: !Carries(NormalizeBaseUrl(address), server, key)) ==>
          saved.server == address && saved.deviceKey == kept)
  }

  lemma BarkIsStored(next: Bark, prev: Option<Bark>) returns (address: string, kept: Secret)
    ensures BarkStored(next, prev, NormalizeBark(if prev.Some? then MergeBark(next, prev.value) else next), address, kept)
  {
    hide SecretStored, NormalizeSecret, MergeSecret, SplitBarkServer, Carries, UrlStored, Trim, TrimSlashes;
    address := NormalizeBaseUrl(next.server);
    UrlIsStored(next.server);
    var key := if prev.Some? then Some(prev.value.deviceKey) else None;
    kept := NormalizeSecret(MergedWith(next.deviceKey, key));
    SecretIsStored(next.deviceKey, key);
    forall server, key {
      SplitBarkServerTells(address, server, key);
    }
    if SplitBarkServer(address).Some? {
      var parts := SplitBarkServer(address).value;
      assert Carries(NormalizeBaseUrl(address), parts.0, parts.1);
    }
  }

  // ---------- webhooks ----------

  predicate FirstHeader(headers: seq<Header>, name: string, k: nat) {
    && k < |headers| && Lower(Trim(headers[k].name)) == Lower(name)
    && forall j :: 0 <= j < k ==> Lower(Trim(headers[j].name)) != Lower(name)
  }

  predicate FirstReceiver(receivers: seq<Receiver>, id: string, k: nat) {
    k < |receivers| && Trim(receivers[k].id) == id && forall j :: 0 <= j < k ==> Trim(receivers[j].id) != id
  }

  lemma {:induction false} FindHeaderIs(headers: seq<Header>, name: string) returns (k: nat)
    ensures var r := FindHeader(headers, name);
            && (r.Some? ==> FirstHeader(headers, name, k) && r.value == headers[k])
            && (r.None? ==> forall j :: 0 <= j < |headers| ==> Lower(Trim(headers[j].name)) != Lower(name))
  {
    hide Trim, Lower;
    k := 0;
    if headers != [] && Lower(Trim(headers[0].name)) != Lower(name) {
      var rest := FindHeaderIs(headers[1..], name);
      k := rest + 1;
      assert forall j :: 1 <= j < |headers| ==> headers[1..][j - 1] == headers[j];
    }
  }

  lemma {:induction false} FindReceiverIs(receivers: seq<Receiver>, id: string) returns (k: nat)
    ensures var r := FindReceiver(receivers, id);
            && (r.Some? ==> FirstReceiver(receivers, id, k) && r.value == receivers[k])
            && (r.None? ==> forall j :: 0 <= j < |receivers| ==> Trim(receivers[j].id) != id)
  {
    hide Trim;
    k := 0;
    if receivers != [] && Trim(receivers[0].id) != id {
      var rest := FindReceiverIs(receivers[1..], id);
      k := rest + 1;
      assert forall j :: 1 <= j < |receivers| ==> receivers[1..][j - 1] == receivers[j];
    }
  }

  predicate NoHeader(headers: seq<Header>, name: string) {
    forall j :: 0 <= j < |headers| ==> Lower(Trim(headers[j].name)) != Lower(name)
  }

  predicate NoReceiver(receivers: seq<Receiver>, id: string) {
    forall j :: 0 <= j < |receivers| ==> Trim(receivers[j].id) != id
  }

  /** A header keeps the secret of the first stored header of its name, in any letter case. */
  predicate HeaderStored(submitted: Header, stored: seq<Header>, saved: Header) {
    && saved.name == Trim(submitted.name)
    && (forall k :: 0 <= k < |stored| && FirstHeader(stored, Trim(submitted.name), k) ==>
          SecretStored(submitted.value, Some(stored[k].value), saved.value))
    && (NoHeader(stored, Trim(submitted.name)) ==> SecretStored(submitted.value, None, saved.value))
  }

  lemma HeaderIsStored(h: Header, stored: seq<Header>)
    ensures HeaderStored(h, stored, NormalizeHeader(MergeHeader(TrimHeaderName(h), stored)))
  {
    hide Trim, Lower, SecretStored, NormalizeSecret, MergeSecret;
    var name := Trim(h.name);
    TrimIdempotent(h.name);
    var first := FindHeaderIs(stored, name);
    SecretIsStored(h.value, None);
    if FindHeader(stored, name).Some? {
      SecretIsStored(h.value, Some(stored[first].value));
      assert Lower(Trim(stored[first].name)) == Lower(name);
      assert forall k :: 0 <= k < |stored| && FirstHeader(stored, name, k) ==> k == first;
    }
  }

  /** The parts of a receiver that do not depend on what is stored. */
  predicate ReceiverPlain(submitted: Receiver, saved: Receiver) {
    && saved.id == Trim(submitted.id) && saved.name == Trim(submitted.name) && saved.username == Trim(submitted.username)
    && saved.enabled == submitted.enabled && saved.timeout == submitted.timeout && saved.bodyTemplate == submitted.bodyTemplate
    && |saved.headers| == |submitted.headers|
  }

  /** Its secrets, next to those of the stored receiver with its id, if there is one. */
  predicate ReceiverSecrets(submitted: Receiver, stored: Option<Receiver>, saved: Receiver, url: string) {
    && UrlSecretStored(submitted.url, if stored.Some? then Some(stored.value.url) else None, saved.url, url)
    && SecretStored(submitted.password, if stored.Some? then Some(stored.value.password) else None, saved.password)
    && forall j :: 0 <= j < |submitted.headers| && j < |saved.headers| ==>
         HeaderStored(submitted.headers[j], if stored.Some? then stored.value.headers else [], saved.headers[j])
  }

  ghost predicate ReceiverStored(submitted: Receiver, stored: seq<Receiver>, saved: Receiver) {
    && ReceiverPlain(submitted, saved)
    && (forall k :: 0 <= k < |stored| && FirstReceiver(stored, Trim(submitted.id), k) ==>
          exists url :: ReceiverSecrets(submitted, Some(stored[k]), saved, url))
    && (NoReceiver(stored, Trim(submitted.id)) ==> exists url :: ReceiverSecrets(submitted, None, saved, url))
  }

  function MergedReceiver(next: Receiver, prev: Option<Receiver>): Receiver {
    match prev
    case None => next
    case Some(receiver) =>
      next.(url := MergeSecret(next.url, receiver.url), password := MergeSecret(next.password, receiver.password),
            headers := MapAll(h => MergeHeader(h, receiver.headers), next.headers))
  }

  lemma HeadersAreStored(next: Receiver, prev: Option<Receiver>)
    ensures var saved := NormalizeReceiver(MergedReceiver(TrimReceiverId(next), prev)).headers;
            && |saved| == |next.headers|
            && forall j :: 0 <= j < |next.headers| ==>
                 HeaderStored(next.headers[j], if prev.Some? then prev.value.headers else [], saved[j])
  {
    hide Trim, HeaderStored, NormalizeHeader, NormalizeSecret, MergeSecret, MergeHeader, TrimHeaderName;
    var headers := if prev.Some? then prev.value.headers else [];
    forall j | 0 <= j < |next.headers|
      ensures HeaderStored(next.headers[j], headers, NormalizeHeader(MergeHeader(TrimHeaderName(next.headers[j]), headers)))
    {
      HeaderIsStored(next.headers[j], headers);
    }
    forall j | 0 <= j < |next.headers|
      ensures MergeHeader(TrimHeaderName(next.headers[j]), []) == TrimHeaderName(next.headers[j])
    {
      NothingToMerge(TrimHeaderName(next.headers[j]));
    }
  }

  lemma NothingToMerge(h: Header)
    ensures MergeHeader(h, []) == h
  {
  }

  lemma ReceiverSecretsAreStored(next: Receiver, prev: Option<Receiver>) returns (url: string)
    ensures var saved := NormalizeReceiver(MergedReceiver(TrimReceiverId(next), prev));
            ReceiverPlain(next, saved) && ReceiverSecrets(next, prev, saved, url)
  {
    hide Trim, HeaderStored, NormalizeHeader, NormalizeSecret, MergeSecret, MergeHeader, TrimHeaderName, SecretStored,
         UrlSecretStored;
    var prevUrl := if prev.Some? then Some(prev.value.url) else None;
    url := NormalizeSecret(MergedWith(next.url, prevUrl)).value;
    UrlSecretIsStored(next.url, prevUrl);
    SecretIsStored(next.password, if prev.Some? then Some(prev.value.password) else None);
    HeadersAreStored(next, prev);
    TrimIdempotent(next.id);
  }

  lemma ReceiverIsStored(next: Receiver, stored: seq<Receiver>)
    ensures ReceiverStored(next, stored, NormalizeReceiver(MergeReceiver(TrimReceiverId(next), stored)))
  {
    hide Trim, ReceiverPlain, ReceiverSecrets, NormalizeReceiver;
    var id := Trim(next.id);
    var first := FindReceiverIs(stored, id);
    var prev := FindReceiver(stored, id);
    var url := ReceiverSecretsAreStored(next, prev);
    assert MergeReceiver(TrimReceiverId(next), stored) == MergedReceiver(TrimReceiverId(next), prev);
    assert forall k :: 0 <= k < |stored| && FirstReceiver(stored, id, k) && prev.Some? ==> k == first;
  }

  ghost predicate WebhookStored(submitted: Webhook, stored: Option<Webhook>, saved: Webhook) {
    && saved.enabled == submitted.enabled && |saved.receivers| == |submitted.receivers|
    && forall i :: 0 <= i < |submitted.receivers| ==>
         ReceiverStored(submitted.receivers[i], if stored.Some? then stored.value.receivers else [], saved.receivers[i])
  }

  lemma WebhookIsStored(next: Webhook, prev: Option<Webhook>)
    ensures var trimmed := TrimIdentities(next);
            WebhookStored(next, prev, NormalizeWebhook(if prev.Some? then MergeWebhook(trimmed, prev.value) else trimmed))
  {
    hide ReceiverStored, NormalizeReceiver, MergeReceiver, TrimReceiverId;
    var stored := if prev.Some? then prev.value.receivers else [];
    forall i | 0 <= i < |next.receivers|
      ensures ReceiverStored(next.receivers[i], stored, NormalizeReceiver(MergeReceiver(TrimReceiverId(next.receivers[i]), stored)))
    {
      ReceiverIsStored(next.receivers[i], stored);
    }
    forall r
      ensures MergeReceiver(r, []) == r
    {
      NoneToMerge(r);
    }
  }

  lemma NoneToMerge(r: Receiver)
    ensures MergeReceiver(r, []) == r
  {
  }

  // ---------- a replacement ----------

  ghost predicate NotifiersStored(submitted: AdminData, stored: AdminData, saved: AdminData, address: string, kept: Secret) {
    && (saved.tgbot.Some? <==> submitted.tgbot.Some?) && (saved.bark.Some? <==> submitted.bark.Some?)
    && (saved.wechat.Some? <==> submitted.wechat.Some?) && (saved.email.Some? <==> submitted.email.Some?)
    && (saved.webhook.Some? <==> submitted.webhook.Some?) && saved.log == submitted.log
    && (submitted.tgbot.Some? ==> TgbotStored(submitted.tgbot.value, stored.tgbot, saved.tgbot.value))
    && (submitted.bark.Some? ==> BarkStored(submitted.bark.value, stored.bark, saved.bark.value, address, kept))
    && (submitted.wechat.Some? ==> WechatStored(submitted.wechat.value, stored.wechat, saved.wechat.value))
    && (submitted.email.Some? ==> EmailStored(submitted.email.value, stored.email, saved.email.value))
    && (submitted.webhook.Some? ==> WebhookStored(submitted.webhook.value, stored.webhook, saved.webhook.value))
  }

  /** Exactly the stored install tokens that are complete and have not run out stay. */
  predicate TokensStored(stored: AdminData, saved: AdminData, now: nat) {
    && (forall k :: k in stored.installTokens ==>
          var t := stored.installTokens[k];
          k in saved.installTokens <==>
          && k != EmptyDigest && Trim(t.gid) != "" && Trim(t.uid) != "" && t.tokenHash != EmptyDigest && now <= t.expiresAt)
    && forall k :: k in saved.installTokens ==> k in stored.installTokens && saved.installTokens[k] == stored.installTokens[k]
  }

  /** The settings a replacement would store, if they are accepted. */
  function Candidate(d: AdminData, stored: AdminData, now: nat): AdminData {
    Normalize(MergeSensitive(WithTrimmedIdentities(d), stored), now)
  }

  lemma CandidateParts(d: AdminData, stored: AdminData, now: nat)
    ensures var c := Candidate(d, stored, now);
            && c.tgbot == OptionMap(NormalizeTgbot, Merged(MergeTgbot, d.tgbot, stored.tgbot))
            && c.bark == OptionMap(NormalizeBark, Merged(MergeBark, d.bark, stored.bark))
            && c.wechat == OptionMap(NormalizeWechat, Merged(MergeWechat, d.wechat, stored.wechat))
            && c.email == OptionMap(NormalizeEmail, Merged(MergeEmail, d.email, stored.email))
            && c.webhook == OptionMap(NormalizeWebhook, Merged(MergeWebhook, OptionMap(TrimIdentities, d.webhook), stored.webhook))
            && c.log == d.log && c.adminPath == NormalizePath(d.adminPath)
            && c.installTokens == UsableTokens(stored.installTokens, now)
  {
    hide OptionMap, Merged, NormalizedStrings, Groups, Rules, NotificationGroups, Entries, NormalizePath, MergeKeys, TrimOption,
         UsableTokens, GroupsWithout, RulesWithout;
  }

  lemma CandidateStoresNotifiers(d: AdminData, stored: AdminData, now: nat) returns (address: string, kept: Secret)
    ensures NotifiersStored(d, stored, Candidate(d, stored, now), address, kept)
  {
    hide TgbotStored, BarkStored, WechatStored, EmailStored, WebhookStored, NormalizeTgbot, NormalizeBark, NormalizeWechat,
         NormalizeEmail, NormalizeWebhook, MergeTgbot, MergeBark, MergeWechat, MergeEmail, MergeWebhook, TrimIdentities,
         Candidate, UsableTokens;
    address, kept := "", Secret("", false, false);
    CandidateParts(d, stored, now);
    if d.tgbot.Some? { TgbotIsStored(d.tgbot.value, stored.tgbot); }
    if d.bark.Some? { address, kept := BarkIsStored(d.bark.value, stored.bark); }
    if d.wechat.Some? { WechatIsStored(d.wechat.value, stored.wechat); }
    if d.email.Some? { EmailIsStored(d.email.value, stored.email); }
    if d.webhook.Some? { WebhookIsStored(d.webhook.value, stored.webhook); }
  }

  lemma CandidateStoresTokens(d: AdminData, stored: AdminData, now: nat)
    ensures TokensStored(stored, Candidate(d, stored, now), now)
  {
    hide Candidate, Trim, OptionMap, Merged, NormalizePath;
    CandidateParts(d, stored, now);
  }

  /** An accepted replacement stores every field of every notifier as it was submitted, and secrets left alone as they were. */
  lemma ReplacementStoresNotifiers(d: AdminData, stored: AdminData, now: nat, checks: Checks)
    returns (address: string, kept: Secret)
    requires Prepare(d, stored, now, checks).Ok?
    ensures var saved := Prepare(d, stored, now, checks).value;
            NotifiersStored(d, stored, saved, address, kept) && TokensStored(stored, saved, now)
  {
    hide TgbotStored, BarkStored, WechatStored, EmailStored, WebhookStored, Normalize, MergeSensitive, Prepare, NormalizeBaseUrl;
    address, kept := CandidateStoresNotifiers(d, stored, now);
    CandidateStoresTokens(d, stored, now);
    PreparedIs(d, stored, now, checks);
  }

  // ---------- refusals ----------

  predicate AlphaNumeric(c: char) {
    'a' <= c <= 'z' || 'A' <= c <= 'Z' || '0' <= c <= '9'
  }

  /** Up to 64 letters, digits, hyphens and underscores, of which the first is a letter or digit. */
  predicate GoodId(id: string) {
    && 1 <= |id| <= 64 && AlphaNumeric(id[0])
    && forall i :: 0 <= i < |id| ==> AlphaNumeric(id[i]) || id[i] in "-_"
  }

  predicate GoodHeaders(headers: seq<Header>, checks: Checks) {
    && (forall j :: 0 <= j < |headers| ==> Trim(headers[j].name) != "" && checks.headerName(Trim(headers[j].name)))
    && forall i, j :: 0 <= i < j < |headers| ==> Lower(Trim(headers[i].name)) != Lower(Trim(headers[j].name))
  }

  /** Receivers have good ids, each its own, and so have their headers names. */
  predicate GoodIdentities(receivers: seq<Receiver>, checks: Checks) {
    && (forall i :: 0 <= i < |receivers| ==> GoodId(Trim(receivers[i].id)) && GoodHeaders(receivers[i].headers, checks))
    && forall i, j :: 0 <= i < j < |receivers| ==> Trim(receivers[i].id) != Trim(receivers[j].id)
  }

  lemma IdIsGood(id: string)
    ensures StableId(id) <==> GoodId(id)
  {
  }

  lemma HeadersAreGood(r: Receiver, checks: Checks)
    ensures GoodHeaders(r.headers, checks) <==>
            var headers := TrimReceiverId(r).headers;
            && DistinctIds(HeaderKey, headers)
            && forall j :: 0 <= j < |headers| ==> headers[j].name != "" && checks.headerName(headers[j].name)
  {
    hide Trim, Lower;
    var headers := TrimReceiverId(r).headers;
    assert forall j :: 0 <= j < |headers| ==> headers[j].name == Trim(r.headers[j].name);
  }

  lemma IdentitiesAreGood(w: Webhook, checks: Checks)
    ensures ValidIdentities(TrimIdentities(w), checks) <==> GoodIdentities(w.receivers, checks)
  {
    hide Trim, StableId, GoodId, GoodHeaders, TrimHeaderName, DistinctIds;
    var trimmed := TrimIdentities(w).receivers;
    forall i | 0 <= i < |w.receivers|
      ensures trimmed[i].id == Trim(w.receivers[i].id)
      ensures GoodHeaders(w.receivers[i].headers, checks) <==>
              && DistinctIds(HeaderKey, trimmed[i].headers)
              && forall j :: 0 <= j < |trimmed[i].headers| ==>
                   trimmed[i].headers[j].name != "" && checks.headerName(trimmed[i].headers[j].name)
      ensures StableId(trimmed[i].id) <==> GoodId(Trim(w.receivers[i].id))
    {
      HeadersAreGood(w.receivers[i], checks);
      IdIsGood(trimmed[i].id);
    }
    IdsAreOwn(w);
  }

  lemma IdsAreOwn(w: Webhook)
    ensures DistinctIds(ReceiverId, TrimIdentities(w).receivers) <==>
            forall i, j :: 0 <= i < j < |w.receivers| ==> Trim(w.receivers[i].id) != Trim(w.receivers[j].id)
  {
    hide Trim;
    var trimmed := TrimIdentities(w).receivers;
    assert forall i :: 0 <= i < |trimmed| ==> trimmed[i].id == Trim(w.receivers[i].id);
  }

  predicate GoodTemplates(templates: seq<string>, checks: Checks) {
    forall i :: 0 <= i < |templates| && templates[i] != "" ==> checks.template(templates[i])
  }

  predicate GoodReceiver(r: Receiver, checks: Checks) {
    && r.name != "" && 1 <= r.timeout <= 60
    && (r.enabled ==> r.url.value != "" && r.bodyTemplate != "")
    && (r.url.value != "" ==> checks.httpUrl(r.url.value)) && (r.bodyTemplate != "" ==> checks.template(r.bodyTemplate))
    && forall j :: 0 <= j < |r.headers| && r.headers[j].value.value != "" ==> checks.headerValue(r.headers[j].value.value)
  }

  /** What can be used is filled in and passes the parsers; an enabled webhook or log has what it needs. */
  predicate GoodNotifiers(c: AdminData, checks: Checks) {
    && (c.wechat.Some? ==> GoodTemplates(c.wechat.value.templates, checks))
    && (c.email.Some? ==>
          var e := c.email.value;
          && GoodTemplates(e.templates, checks) && (e.server == "" || checks.relay(e.server))
          && (e.username == "" || checks.address(e.username)) && (e.to == "" || checks.recipients(e.to)))
    && (c.webhook.Some? ==> forall i :: 0 <= i < |c.webhook.value.receivers| ==> GoodReceiver(c.webhook.value.receivers[i], checks))
    && (c.log.Some? ==>
          var template := c.log.value.template;
          && !(c.log.value.enabled && Trim(template) == "") && (template == "" || checks.template(template))
          && !checks.usesLoader(template))
  }

  lemma TemplatesAreGood(templates: seq<string>, checks: Checks)
    ensures ValidTemplates(templates, checks) <==> GoodTemplates(templates, checks)
  {
    if GoodTemplates(templates, checks) {
      forall t | t in templates && t != ""
        ensures checks.template(t)
      {
        var i :| 0 <= i < |templates| && templates[i] == t;
      }
    }
  }

  /** Ids and header names are those submitted, trimmed. */
  predicate KeepsNames(next: Receiver, saved: Receiver) {
    && saved.id == Trim(next.id) && |saved.headers| == |next.headers|
    && forall j :: 0 <= j < |next.headers| ==> saved.headers[j].name == Trim(next.headers[j].name)
  }

  lemma ReceiverKeepsNames(next: Receiver, prev: Option<Receiver>)
    ensures KeepsNames(next, NormalizeReceiver(MergedReceiver(TrimReceiverId(next), prev)))
  {
    HeadersAreStored(next, prev);
    TrimIdempotent(next.id);
    hide Trim, NormalizeHeader, MergeHeader, TrimHeaderName, SecretStored, NormalizeSecret, MergeSecret, FirstHeader, NoHeader;
  }

  lemma CandidateKeepsNames(d: AdminData, stored: AdminData, now: nat)
    requires d.webhook.Some?
    ensures var saved := Candidate(d, stored, now).webhook;
            && saved.Some? && |saved.value.receivers| == |d.webhook.value.receivers|
            && forall i :: 0 <= i < |saved.value.receivers| ==> KeepsNames(d.webhook.value.receivers[i], saved.value.receivers[i])
  {
    hide Candidate, NormalizeReceiver, TrimReceiverId, KeepsNames, MergedReceiver, UsableTokens, NormalizePath, FindReceiver;
    CandidateParts(d, stored, now);
    var receivers := d.webhook.value.receivers;
    forall i | 0 <= i < |receivers|
      ensures KeepsNames(receivers[i], NormalizeReceiver(TrimReceiverId(receivers[i])))
      ensures stored.webhook.Some? ==>
                KeepsNames(receivers[i], NormalizeReceiver(MergeReceiver(TrimReceiverId(receivers[i]), stored.webhook.value.receivers)))
    {
      MergesWithNone(TrimReceiverId(receivers[i]));
      ReceiverKeepsNames(receivers[i], None);
      if stored.webhook.Some? {
        var prev := FindReceiver(stored.webhook.value.receivers, TrimReceiverId(receivers[i]).id);
        MergesWithFound(TrimReceiverId(receivers[i]), stored.webhook.value.receivers);
        ReceiverKeepsNames(receivers[i], prev);
      }
    }
  }

  lemma MergesWithNone(r: Receiver)
    ensures MergedReceiver(r, None) == r
  {
  }

  lemma MergesWithFound(r: Receiver, stored: seq<Receiver>)
    ensures MergeReceiver(r, stored) == MergedReceiver(r, FindReceiver(stored, r.id))
  {
  }

  /** Merging and normalising keep the identities that were found good. */
  lemma IdentitiesStayGood(d: AdminData, stored: AdminData, now: nat, checks: Checks)
    requires d.webhook.Some? && GoodIdentities(d.webhook.value.receivers, checks)
    ensures ValidIdentities(Candidate(d, stored, now).webhook.value, checks)
  {
    hide Candidate, Trim, StableId, GoodId, Lower;
    CandidateKeepsNames(d, stored, now);
    var next := d.webhook.value.receivers;
    forall i | 0 <= i < |next|
      ensures StableId(Trim(next[i].id))
    {
      IdIsGood(Trim(next[i].id));
    }
  }

  lemma WebhooksAgree(d: AdminData, stored: AdminData, now: nat)
    ensures Candidate(d, stored, now).webhook.Some? <==> d.webhook.Some?
  {
    hide Candidate, NormalizeWebhook, MergeWebhook, TrimIdentities, UsableTokens, NormalizePath;
    CandidateParts(d, stored, now);
  }

  lemma CandidateIsValid(c: AdminData, checks: Checks)
    requires c.webhook.Some? ==> ValidIdentities(c.webhook.value, checks)
    ensures ValidData(c, checks) <==> GoodNotifiers(c, checks)
  {
    hide Trim, ValidIdentities, ValidTemplates, GoodTemplates;
    if c.wechat.Some? { TemplatesAreGood(c.wechat.value.templates, checks); }
    if c.email.Some? { TemplatesAreGood(c.email.value.templates, checks); }
  }

  lemma TrimmedWebhook(d: AdminData)
    ensures WithTrimmedIdentities(d).webhook == if d.webhook.Some? then Some(TrimIdentities(d.webhook.value)) else None
  {
  }

  /**
  A replacement is refused for the first of these that holds: bad ids or header names of its receivers, a bad entry
  path, and notifiers that, as they would be stored, are not usable.
  */
  lemma ReplacementRefusedExactlyWhen(d: AdminData, stored: AdminData, now: nat, checks: Checks)
    ensures var c, r := Candidate(d, stored, now), Prepare(d, stored, now, checks);
            var identities := d.webhook.None? || GoodIdentities(d.webhook.value.receivers, checks);
            && (r == Err(InvalidIdentities) <==> !identities)
            && (r == Err(InvalidPath) <==> identities && !GoodPath(NormalizePath(d.adminPath)))
            && (r == Err(InvalidData) <==> identities && GoodPath(NormalizePath(d.adminPath)) && !GoodNotifiers(c, checks))
            && (r.Ok? <==> identities && GoodPath(NormalizePath(d.adminPath)) && GoodNotifiers(c, checks))
  {
    hide Normalize, MergeSensitive, ValidIdentities, GoodIdentities, PathError, GoodPath, ValidData, GoodNotifiers, NormalizePath,
         TrimIdentities, NormalizeBaseUrl, Merged, UsableTokens, OptionMap;
    CandidateParts(d, stored, now);
    WebhooksAgree(d, stored, now);
    TrimmedWebhook(d);
    if d.webhook.Some? {
      IdentitiesAreGood(d.webhook.value, checks);
      if GoodIdentities(d.webhook.value.receivers, checks) {
        IdentitiesStayGood(d, stored, now, checks);
      }
    }
    PathIsGood(NormalizePath(d.adminPath));
    NormalizedPathIsTrimmed(d.adminPath);
    if d.webhook.None? || GoodIdentities(d.webhook.value.receivers, checks) {
      CandidateIsValid(Candidate(d, stored, now), checks);
    }
  }
}
