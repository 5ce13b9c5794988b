/** Which credential updates the server refuses, and what it asks of a new user, path and password. */
module Credentials {
  import opened Wrappers
  import opened Text
  import opened Settings
  import opened AdminNormalize
  import opened AdminReplace
  import opened AdminStore

  // ---------- what is asked for ----------

  predicate NonBlank(o: Option<string>) {
    o.Some? && Trim(o.value) != ""
  }

  /** The user in force: the stored one, else the configured one, else "admin". */
  function UserInForce(d: AdminData, c: Change): string {
    if NonBlank(d.adminUser) then Trim(d.adminUser.value)
    else if NonBlank(c.baseUser) then Trim(c.baseUser.value)
    else "admin"
  }

  function UserAsked(d: AdminData, c: Change): string {
    if NonBlank(c.user) then Trim(c.user.value) else UserInForce(d, c)
  }

  /** The entry path that is asked for, or the stored one, with its single leading slash. */
  function PathAsked(d: AdminData, c: Change): string {
    NormalizePath(if c.path.Some? then c.path.value else d.adminPath)
  }

  // ---------- what is accepted ----------

  /** The current password is that of the stored hash, or, if none is stored, the configured one; never the empty one. */
  predicate KnowsPassword(d: AdminData, c: Change) {
    && c.current != ""
    && if d.passwordHash.None? || d.passwordHash == Some(BlankHash) then c.basePassword == Some(c.current)
       else d.passwordHash == Some(HashOf(c.current))
  }

  predicate GoodUser(name: string) {
    && 1 <= |name| <= 64
    && forall i :: 0 <= i < |name| ==>
         'a' <= name[i] <= 'z' || 'A' <= name[i] <= 'Z' || '0' <= name[i] <= '9' || name[i] in "_-.@"
  }

  /** One segment of 1 to 63 letters, digits, underscores and hyphens, not one of the server's own. */
  predicate GoodSegment(segment: string) {
    && 1 <= |segment| <= 63
    && (forall i :: 0 <= i < |segment| ==>
          'a' <= segment[i] <= 'z' || 'A' <= segment[i] <= 'Z' || '0' <= segment[i] <= '9' || segment[i] in "_-")
    && segment != "api" && segment != "static" && segment != "report" && segment != "json" && segment != "detail"
    && segment != "map" && segment != "i"
  }

  predicate GoodPath(path: string) {
    path != "" && path[0] == '/' && GoodSegment(path[1..])
  }

  /** How many characters come at or after `limit`. */
  function CountFrom(s: string, limit: char): nat {
    if s == "" then 0 else CountFrom(s[1..], limit) + if s[0] >= limit then 1 else 0
  }

  /** The bytes of a text in UTF-8: one a character, and one more from each of three points on. */
  function Bytes(s: string): nat {
    |s| + CountFrom(s, '\U{80}') + CountFrom(s, '\U{800}') + CountFrom(s, '\U{10000}')
  }

  lemma {:induction false} BytesAreUtf8(s: string)
    ensures Utf8Length(s) == Bytes(s)
  {
    if s != "" {
      BytesAreUtf8(s[1..]);
    }
  }

  lemma {:induction false} AsciiIsOneByte(s: string)
    requires forall i :: 0 <= i < |s| ==> s[i] < '\U{80}'
    ensures Bytes(s) == |s|
  {
    if s != "" {
      AsciiIsOneByte(s[1..]);
    }
  }

  lemma UserIsGood(name: string)
    requires Trim(name) == name
    ensures ValidUsername(name) <==> GoodUser(name)
  {
    hide Trim, Utf8Length, CountFrom;
    BytesAreUtf8(name);
    if forall i :: 0 <= i < |name| ==> IsUserChar(name[i]) {
      AsciiIsOneByte(name);
    }
    if GoodUser(name) {
      forall c | c in name
        ensures IsUserChar(c)
      {
        var i :| 0 <= i < |name| && name[i] == c;
      }
    }
    if forall c :: c in name ==> IsUserChar(c) {
      forall i | 0 <= i < |name|
        ensures IsUserChar(name[i])
      {
        assert name[i] in name;
      }
    }
  }

  /** Which entry paths are accepted. */
  lemma PathIsGood(path: string)
    ensures !PathError(path) <==> GoodPath(Trim(path))
  {
    var p := Trim(path);
    hide Trim;
    if p != "" && p[0] == '/' {
      forall i | 1 <= i < |p|
        ensures p[1..][i - 1] == p[i]
      {
      }
      ReservedSegments(p[1..]);
      if GoodPath(p) {
        forall i | 1 <= i < |p|
          ensures IsPathChar(p[i])
        {
          assert p[i] == p[1..][i - 1];
        }
      }
      if !PathError(path) {
        forall i | 0 <= i < |p| - 1
          ensures IsPathChar(p[1..][i])
        {
          assert p[1..][i] == p[i + 1];
        }
      }
    }
  }

  /** The two reserved names with a dot are no segments anyway. */
  lemma ReservedSegments(segment: string)
    ensures segment in RESERVED_PATHS && (forall i :: 0 <= i < |segment| ==> IsPathChar(segment[i])) ==>
              segment in {"api", "static", "report", "json", "detail", "map", "i"}
  {
    assert "admin.html"[5] == '.' && "index.html"[5] == '.';
  }

  // ---------- refusals ----------

  /** An update is refused for the first reason that holds, in this order. */
  lemma RefusedExactlyWhen(d: AdminData, c: Change, hashes: bool, now: nat)
    ensures var r := CredentialsUpdated(d, c, hashes, now);
            var known, user, path := KnowsPassword(d, c), GoodUser(UserAsked(d, c)), GoodPath(PathAsked(d, c));
            var asked := NonBlank(c.password);
            var password := if asked then Trim(c.password.value) else "";
            var fits := 12 <= |password| && Bytes(password) <= 256 && password != c.current;
            var same := !asked && UserAsked(d, c) == UserInForce(d, c) && PathAsked(d, c) == NormalizePath(d.adminPath);
            && (r == Err(WrongCurrentPassword) <==> !known)
            && (r == Err(InvalidUsername) <==> known && !user)
            && (r == Err(InvalidAdminPath) <==> known && user && !path)
            && (r == Err(NewPasswordTooShort) <==> known && user && path && asked && |password| < 12)
            && (r == Err(NewPasswordTooLong) <==> known && user && path && asked && |password| >= 12 && Bytes(password) > 256)
            && (r == Err(NewPasswordUnchanged) <==>
                known && user && path && asked && |password| >= 12 && Bytes(password) <= 256 && password == c.current)
            && (r == Err(HashFailed) <==> known && user && path && asked && fits && !hashes)
            && (r == Err(NothingChanged) <==> known && user && path && same)
            && (r.Ok? <==> known && user && path && if asked then fits && hashes else !same)
  {
    hide Trim, ValidUsername, GoodUser, PathError, GoodPath, NormalizePath, Bytes, Utf8Length, NewSession;
    NamesAreTrimmed(d, c);
    UserIsGood(UserAsked(d, c));
    NormalizedPathIsTrimmed(if c.path.Some? then c.path.value else d.adminPath);
    PathIsGood(PathAsked(d, c));
    if NonBlank(c.password) {
      BytesAreUtf8(Trim(c.password.value));
    }
  }

  lemma NamesAreTrimmed(d: AdminData, c: Change)
    ensures Trim(UserAsked(d, c)) == UserAsked(d, c)
  {
    hide Trim;
    TrimFixed("admin");
    if d.adminUser.Some? {
      TrimIdempotent(d.adminUser.value);
    }
    if c.baseUser.Some? {
      TrimIdempotent(c.baseUser.value);
    }
    if c.user.Some? {
      TrimIdempotent(c.user.value);
    }
  }
}
