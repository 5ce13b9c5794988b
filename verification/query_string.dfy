/** The query of an install link, written by the server and read back when the link is used. */
module QueryString {

  type Byte = b: int | 0 <= b < 256

  type Bytes = seq<Byte>

  const PERCENT: Byte := 37
  const AMPERSAND: Byte := 38
  const PLUS: Byte := 43
  const EQUALS: Byte := 61
  const QUESTION: Byte := 63
  const HASH: Byte := 35
  const SPACE: Byte := 32

  predicate IsDigit(b: Byte) { 48 <= b <= 57 }

  /** The unreserved characters of RFC 3986, section 2.3. */
  predicate IsUnreserved(b: Byte) {
    IsDigit(b) || 65 <= b <= 90 || 97 <= b <= 122 || b == 45 || b == 95 || b == 46 || b == 126
  }

  function HexDigit(n: nat): Byte
    requires n < 16
  {
    if n < 10 then 48 + n else 55 + n
  }

  /** Two upper-case hex digits after a percent sign: RFC 3986, section 2.1. */
  function EncodeByte(b: Byte): Bytes {
    if IsUnreserved(b) then [b] else [PERCENT, HexDigit(b / 16), HexDigit(b % 16)]
  }

  function Encode(value: Bytes): Bytes {
    if value == [] then [] else EncodeByte(value[0]) + Encode(value[1..])
  }

  lemma {:induction false} EncodeAppends(a: Bytes, b: Bytes)
    ensures Encode(a + b) == Encode(a) + Encode(b)
  {
    if a == [] {
      assert a + b == b;
    } else {
      assert (a + b)[1..] == a[1..] + b;
      EncodeAppends(a[1..], b);
    }
  }

  method QueryEncode(value: Bytes) returns (encoded: Bytes)
    ensures encoded == Encode(value)
  {
    encoded := [];
    for i := 0 to |value|
      invariant encoded == Encode(value[..i])
    {
      EncodeAppends(value[..i], [value[i]]);
      assert value[..i + 1] == value[..i] + [value[i]] && [value[i]][1..] == [];
      if IsUnreserved(value[i]) {
        encoded := encoded + [value[i]];
      } else {
        encoded := encoded + [PERCENT, HexDigit(value[i] / 16), HexDigit(value[i] % 16)];
      }
    }
    assert value[..|value|] == value;
  }

  function Pair(key: Bytes, value: Bytes): Bytes {
    Encode(key) + [EQUALS] + Encode(value)
  }

  method PushQueryPair(query: seq<Bytes>, key: Bytes, value: Bytes) returns (r: seq<Bytes>)
    ensures r == query + [Pair(key, value)]
  {
    var k := QueryEncode(key);
    var v := QueryEncode(value);
    r := query + [k + [EQUALS] + v];
  }

  function Join(parts: seq<Bytes>, sep: Byte): Bytes {
    if parts == [] then []
    else if |parts| == 1 then parts[0]
    else parts[0] + [sep] + Join(parts[1..], sep)
  }

  type Pairs = seq<(Bytes, Bytes)>

  function Encoded(pairs: Pairs): seq<Bytes> {
    seq(|pairs|, i requires 0 <= i < |pairs| => Pair(pairs[i].0, pairs[i].1))
  }

  /** The query of the install link: one push per pair, joined by `&`. */
  method InstallQuery(pairs: Pairs) returns (query: Bytes)
    ensures query == Join(Encoded(pairs), AMPERSAND)
  {
    var parts: seq<Bytes> := [];
    for i := 0 to |pairs|
      invariant parts == Encoded(pairs)[..i]
    {
      parts := PushQueryPair(parts, pairs[i].0, pairs[i].1);
    }
    assert parts == Encoded(pairs);
    query := Join(parts, AMPERSAND);
  }

  // ---------- reading a query ----------

  predicate IsHex(b: Byte) {
    IsDigit(b) || 65 <= b <= 70 || 97 <= b <= 102
  }

  function HexValue(b: Byte): (n: nat)
    requires IsHex(b)
    ensures n < 16
  {
    if IsDigit(b) then b - 48 else if b <= 70 then b - 55 else b - 87
  }

  /** A plus is a space; a percent sign that no two hex digits follow stands for itself. */
  function Decode(s: Bytes): Bytes {
    if s == [] then []
    else if s[0] == PLUS then [SPACE] + Decode(s[1..])
    else if s[0] == PERCENT && |s| >= 3 && IsHex(s[1]) && IsHex(s[2]) then
      [16 * HexValue(s[1]) + HexValue(s[2])] + Decode(s[3..])
    else [s[0]] + Decode(s[1..])
  }

  /** The text before the first separator, and the text after it. */
  function Cut(s: Bytes, sep: Byte): (r: (Bytes, Bytes))
    ensures |r.0| <= |s| && |r.1| <= |s| && (s != [] ==> |r.1| < |s|)
  {
    if s == [] then ([], [])
    else if s[0] == sep then ([], s[1..])
    else
      var rest := Cut(s[1..], sep);
      ([s[0]] + rest.0, rest.1)
  }

  /** Pieces between ampersands, empty ones skipped, each cut at its first equals sign. */
  function Parse(query: Bytes): Pairs
    decreases |query|
  {
    if query == [] then []
    else
      var piece := Cut(query, AMPERSAND);
      if piece.0 == [] then Parse(piece.1)
      else
        var pair := Cut(piece.0, EQUALS);
        [(Decode(pair.0), Decode(pair.1))] + Parse(piece.1)
  }

  /** What lies between the first question mark of a URL and its fragment. */
  function QueryOf(url: Bytes): Bytes {
    Cut(Cut(url, HASH).0, QUESTION).1
  }

  // ---------- round trips ----------

  lemma HexComesBack(n: nat)
    requires n < 16
    ensures IsHex(HexDigit(n)) && HexValue(HexDigit(n)) == n
  {
  }

  lemma ByteComesBack(b: Byte, rest: Bytes)
    ensures Decode(EncodeByte(b) + rest) == [b] + Decode(rest)
  {
    var s := EncodeByte(b) + rest;
    if IsUnreserved(b) {
      assert s[1..] == rest;
    } else {
      HexComesBack(b / 16);
      HexComesBack(b % 16);
      assert s[3..] == rest && s[0] == PERCENT && s[1] == HexDigit(b / 16) && s[2] == HexDigit(b % 16);
    }
  }

  lemma {:induction false} DecodeEncoded(value: Bytes, rest: Bytes)
    ensures Decode(Encode(value) + rest) == value + Decode(rest)
  {
    hide EncodeByte, Decode;
    if value == [] {
      assert Encode(value) + rest == rest && value + Decode(rest) == Decode(rest);
    } else {
      var tail := Encode(value[1..]) + rest;
      ByteComesBack(value[0], tail);
      DecodeEncoded(value[1..], rest);
      assert Encode(value) + rest == EncodeByte(value[0]) + tail;
      assert [value[0]] + (value[1..] + Decode(rest)) == value + Decode(rest);
    }
  }

  lemma EncodedComesBack(value: Bytes)
    ensures Decode(Encode(value)) == value
  {
    DecodeEncoded(value, []);
    assert Encode(value) + [] == Encode(value) && value + Decode([]) == value;
  }

  /** Encoding leaves nothing that separates or ends a query. */
  lemma {:induction false} EncodedIsPlain(value: Bytes)
    ensures forall b :: b in Encode(value) ==> IsUnreserved(b) || b == PERCENT
  {
    if value != [] {
      EncodedIsPlain(value[1..]);
    }
  }

  lemma {:induction false} CutAtSeparator(a: Bytes, sep: Byte, b: Bytes)
    requires sep !in a
    ensures Cut(a + [sep] + b, sep) == (a, b) && Cut(a, sep) == (a, [])
  {
    if a == [] {
      assert a + [sep] + b == [sep] + b;
    } else {
      assert (a + [sep] + b)[1..] == a[1..] + [sep] + b && a == [a[0]] + a[1..];
      CutAtSeparator(a[1..], sep, b);
    }
  }

  lemma PairIsPlain(key: Bytes, value: Bytes)
    ensures AMPERSAND !in Pair(key, value) && QUESTION !in Pair(key, value) && HASH !in Pair(key, value)
    ensures Cut(Pair(key, value), EQUALS) == (Encode(key), Encode(value))
    ensures Decode(Encode(key)) == key && Decode(Encode(value)) == value
  {
    hide Encode, Decode, Cut;
    EncodedIsPlain(key);
    EncodedIsPlain(value);
    CutAtSeparator(Encode(key), EQUALS, Encode(value));
    EncodedComesBack(key);
    EncodedComesBack(value);
  }

  /** Reading the query gives back every pair that was pushed, in order, whatever bytes it holds. */
  lemma {:induction false} QueryComesBack(pairs: Pairs)
    ensures Parse(Join(Encoded(pairs), AMPERSAND)) == pairs
    decreases |pairs|
  {
    if pairs != [] {
      var first := Pair(pairs[0].0, pairs[0].1);
      PairIsPlain(pairs[0].0, pairs[0].1);
      assert Encoded(pairs)[1..] == Encoded(pairs[1..]);
      var rest := Join(Encoded(pairs[1..]), AMPERSAND);
      CutAtSeparator(first, AMPERSAND, rest);
      QueryComesBack(pairs[1..]);
      assert pairs == [pairs[0]] + pairs[1..];
      if |pairs| == 1 {
        assert Join(Encoded(pairs), AMPERSAND) == first;
      } else {
        assert Join(Encoded(pairs), AMPERSAND) == first + [AMPERSAND] + rest;
      }
    }
  }

  lemma {:induction false} JoinedIsPlain(pairs: Pairs)
    ensures QUESTION !in Join(Encoded(pairs), AMPERSAND) && HASH !in Join(Encoded(pairs), AMPERSAND)
    decreases |pairs|
  {
    if pairs != [] {
      PairIsPlain(pairs[0].0, pairs[0].1);
      assert Encoded(pairs)[1..] == Encoded(pairs[1..]);
      JoinedIsPlain(pairs[1..]);
    }
  }

  /** The whole install link: the base address, the path `/i`, and the query. */
  function InstallUrl(base: Bytes, pairs: Pairs): Bytes {
    base + [47, 105] + [QUESTION] + Join(Encoded(pairs), AMPERSAND)
  }

  // ---------- base addresses with a query or a fragment of their own ----------

  /** What the link adds to its base address, up to the query. */
  const PATH: Bytes := [47, 105, QUESTION]

  /** A percent sign starts an escape in `y` if and only if it does in a longer text that goes on with a slash. */
  predicate Escapes(s: Bytes) {
    |s| >= 3 && s[0] == PERCENT && IsHex(s[1]) && IsHex(s[2])
  }

  lemma EscapesAlike(y: Bytes, rest: Bytes)
    requires y != [] && rest != [] && rest[0] == 47
    ensures Escapes(y + rest) == Escapes(y)
  {
    assert (y + rest)[|y|] == 47 && !IsHex(47);
    assert forall i :: 0 <= i < |y| ==> (y + rest)[i] == y[i];
  }

  lemma DecodeStep(s: Bytes)
    requires s != []
    ensures Decode(s) == if s[0] != PLUS && Escapes(s) then [16 * HexValue(s[1]) + HexValue(s[2])] + Decode(s[3..])
                         else [if s[0] == PLUS then SPACE else s[0]] + Decode(s[1..])
  {
  }

  /** A slash is no hex digit, so decoding can stop before one. */
  lemma {:induction false} DecodeSplits(y: Bytes, rest: Bytes)
    requires rest != [] && rest[0] == 47
    ensures Decode(y + rest) == Decode(y) + Decode(rest)
    decreases |y|
  {
    hide Decode, IsHex, HexValue;
    if y == [] {
      NothingDecodes();
      assert y + rest == rest && [] + Decode(rest) == Decode(rest);
    } else {
      var s := y + rest;
      DecodeStep(s);
      DecodeStep(y);
      EscapesAlike(y, rest);
      assert s[0] == y[0];
      if s[0] != PLUS && Escapes(s) {
        assert s[3..] == y[3..] + rest && s[1] == y[1] && s[2] == y[2];
        DecodeSplits(y[3..], rest);
      } else {
        assert s[1..] == y[1..] + rest;
        DecodeSplits(y[1..], rest);
      }
    }
  }

  lemma NothingDecodes()
    ensures Decode([]) == []
  {
  }

  lemma PathDecodes(e: Bytes)
    ensures Decode(PATH + e) == PATH + Decode(e)
  {
    hide Decode;
    var s := PATH + e;
    var s1, s2 := [105, QUESTION] + e, [QUESTION] + e;
    assert s[1..] == s1 && s1[1..] == s2 && s2[1..] == e;
    DecodeStep(s);
    DecodeStep(s1);
    DecodeStep(s2);
    assert [47] + ([105] + ([QUESTION] + Decode(e))) == PATH + Decode(e);
  }

  /** Whatever stands before the path goes into the first pair: its key or its value gets longer. */
  lemma PathSpoilsPair(x: Bytes, key: Bytes, value: Bytes)
    requires AMPERSAND !in x
    ensures var pair := Cut(x + PATH + Pair(key, value), EQUALS); (Decode(pair.0), Decode(pair.1)) != (key, value)
  {
    hide Encode, Decode, Cut;
    EncodedIsPlain(key);
    var k, v := Encode(key), Encode(value);
    if EQUALS in x {
      var parts := CutParts(x, EQUALS);
      assert x + PATH + Pair(key, value) == parts.0 + [EQUALS] + (parts.1 + (PATH + (k + ([EQUALS] + v))));
      CutAtSeparator(parts.0, EQUALS, parts.1 + (PATH + (k + ([EQUALS] + v))));
      DecodeSplits(parts.1, PATH + (k + ([EQUALS] + v)));
      PathDecodes(k + ([EQUALS] + v));
      DecodeEncoded(key, [EQUALS] + v);
      EqualsDecodes(v);
      EncodedComesBack(value);
    } else {
      assert EQUALS !in x + PATH + k;
      assert x + PATH + Pair(key, value) == (x + PATH + k) + [EQUALS] + v;
      CutAtSeparator(x + PATH + k, EQUALS, v);
      assert x + PATH + k == x + (PATH + k);
      DecodeSplits(x, PATH + k);
      PathDecodes(k);
      EncodedComesBack(key);
    }
  }

  lemma EqualsDecodes(v: Bytes)
    ensures Decode([EQUALS] + v) == [EQUALS] + Decode(v)
  {
    assert ([EQUALS] + v)[1..] == v;
  }

  /** The two parts around the first separator. */
  lemma {:induction false} CutParts(s: Bytes, sep: Byte) returns (parts: (Bytes, Bytes))
    requires sep in s
    ensures s == parts.0 + [sep] + parts.1 && sep !in parts.0 && Cut(s, sep) == parts
  {
    if s[0] == sep {
      parts := ([], s[1..]);
    } else {
      assert s == [s[0]] + s[1..];
      var rest := CutParts(s[1..], sep);
      parts := ([s[0]] + rest.0, rest.1);
    }
  }

  /** A query after which the link was put gives back at least as many pairs, and not the pushed ones. */
  lemma {:induction false} PathSpoilsQuery(x: Bytes, pairs: Pairs)
    ensures var read := Parse(x + PATH + Join(Encoded(pairs), AMPERSAND)); |read| >= |pairs| && |read| > 0 && read != pairs
    decreases |x|
  {
    hide Decode, Encode, Cut, Pair;
    var query := Join(Encoded(pairs), AMPERSAND);
    var s := x + PATH + query;
    if AMPERSAND in x {
      var parts := CutParts(x, AMPERSAND);
      assert s == parts.0 + [AMPERSAND] + (parts.1 + PATH + query);
      CutAtSeparator(parts.0, AMPERSAND, parts.1 + PATH + query);
      PathSpoilsQuery(parts.1, pairs);
    } else if pairs == [] {
      assert s == x + PATH;
      CutAtSeparator(s, AMPERSAND, []);
    } else {
      var first := Pair(pairs[0].0, pairs[0].1);
      var rest := Join(Encoded(pairs[1..]), AMPERSAND);
      PairIsPlain(pairs[0].0, pairs[0].1);
      PathSpoilsPair(x, pairs[0].0, pairs[0].1);
      QueryComesBack(pairs[1..]);
      assert Encoded(pairs)[1..] == Encoded(pairs[1..]);
      CutAtSeparator(x + PATH + first, AMPERSAND, rest);
      if |pairs| == 1 {
        assert s == x + PATH + first;
      } else {
        assert s == (x + PATH + first) + [AMPERSAND] + rest;
      }
    }
  }

  /**
  The whole link gives back its pairs, if and only if the base address has neither query nor fragment, or has a
  fragment, which swallows the link, and happens to ask for the same pairs before it.
  */
  lemma InstallUrlComesBack(base: Bytes, pairs: Pairs)
    ensures Parse(QueryOf(InstallUrl(base, pairs))) == pairs <==>
            (QUESTION !in base && HASH !in base) || (HASH in base && Parse(QueryOf(base)) == pairs)
  {
    hide Parse, Encode, Decode, Cut;
    var query := Join(Encoded(pairs), AMPERSAND);
    var url := InstallUrl(base, pairs);
    JoinedIsPlain(pairs);
    assert [47, 105] + [QUESTION] == PATH;
    if HASH in base {
      var parts := CutParts(base, HASH);
      assert url == parts.0 + [HASH] + (parts.1 + [47, 105] + [QUESTION] + query);
      CutAtSeparator(parts.0, HASH, parts.1 + [47, 105] + [QUESTION] + query);
    } else {
      CutAtSeparator(url, HASH, []);
      if QUESTION in base {
        var parts := CutParts(base, QUESTION);
        assert url == parts.0 + [QUESTION] + (parts.1 + PATH + query);
        CutAtSeparator(parts.0, QUESTION, parts.1 + PATH + query);
        PathSpoilsQuery(parts.1, pairs);
      } else {
        CutAtSeparator(base + [47, 105], QUESTION, query);
        QueryComesBack(pairs);
      }
    }
  }
}
