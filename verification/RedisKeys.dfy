/** The keys of the Redis store. Strings are byte strings: every character stands for one byte. */
module RedisKeys {

  predicate IsByte(c: char) {
    c as int < 256
  }

  type Bytes = s: string | forall c :: c in s ==> IsByte(c)

  /** A normalized login subject, byte by byte. */
  datatype Subject = Subject(loginType: Bytes, loginID: Bytes)

  // ----- the unpadded URL-safe encoding of RFC 4648, section 5

  function Digit(n: int): (c: char)
    requires 0 <= n < 64
  {
    if n < 26 then 'A' + n as char
    else if n < 52 then 'a' + (n - 26) as char
    else if n < 62 then '0' + (n - 52) as char
    else if n == 62 then '-' else '_'
  }

  function ValueOf(c: char): (n: int)
    ensures 0 <= n < 64
  {
    if 'A' <= c <= 'Z' then c as int - 'A' as int
    else if 'a' <= c <= 'z' then c as int - 'a' as int + 26
    else if '0' <= c <= '9' then c as int - '0' as int + 52
    else if c == '-' then 62 else 63
  }

  lemma DigitValue(n: int)
    requires 0 <= n < 64
    ensures ValueOf(Digit(n)) == n && Digit(n) != ':'
  {
  }

  /** Three bytes make four digits. */
  function EncodeGroup(x: char, y: char, z: char): (t: string)
    requires IsByte(x) && IsByte(y) && IsByte(z)
    ensures |t| == 4
  {
    var a, b, c := x as int, y as int, z as int;
    [Digit(a / 4), Digit(a % 4 * 16 + b / 16), Digit(b % 16 * 4 + c / 64), Digit(c % 64)]
  }

  /** One or two bytes left over make two or three digits, without padding. */
  function EncodeLast(s: Bytes): (t: string)
    requires |s| < 3
    ensures |t| < 4
  {
    if |s| == 0 then ""
    else if |s| == 1 then
      var a := s[0] as int;
      [Digit(a / 4), Digit(a % 4 * 16)]
    else
      var a, b := s[0] as int, s[1] as int;
      [Digit(a / 4), Digit(a % 4 * 16 + b / 16), Digit(b % 16 * 4)]
  }

  function Encode(s: Bytes): string {
    if |s| < 3 then EncodeLast(s) else EncodeGroup(s[0], s[1], s[2]) + Encode(s[3..])
  }

  function First(p: int, q: int): char
    requires 0 <= p < 64 && 0 <= q < 64
  {
    (p * 4 + q / 16) as char
  }

  function Second(q: int, r: int): char
    requires 0 <= q < 64 && 0 <= r < 64
  {
    (q % 16 * 16 + r / 4) as char
  }

  function Third(r: int, v: int): char
    requires 0 <= r < 64 && 0 <= v < 64
  {
    (r % 4 * 64 + v) as char
  }

  function DecodeGroup(t: string): string
    requires |t| == 4
  {
    var p, q, r, v := ValueOf(t[0]), ValueOf(t[1]), ValueOf(t[2]), ValueOf(t[3]);
    [First(p, q), Second(q, r), Third(r, v)]
  }

  function DecodeLast(t: string): string
    requires |t| < 4
  {
    if |t| < 2 then ""
    else if |t| == 2 then [First(ValueOf(t[0]), ValueOf(t[1]))]
    else [First(ValueOf(t[0]), ValueOf(t[1])), Second(ValueOf(t[1]), ValueOf(t[2]))]
  }

  function Decode(t: string): string {
    if |t| < 4 then DecodeLast(t) else DecodeGroup(t[..4]) + Decode(t[4..])
  }

  lemma Sextets(a: int, b: int, c: int)
    requires 0 <= a < 256 && 0 <= b < 256 && 0 <= c < 256
    ensures var q, r := a % 4 * 16 + b / 16, b % 16 * 4 + c / 64;
            && a / 4 * 4 + q / 16 == a && q % 16 * 16 + r / 4 == b && r % 4 * 64 + c % 64 == c
  {
  }

  lemma GroupRoundTrip(x: char, y: char, z: char)
    requires IsByte(x) && IsByte(y) && IsByte(z)
    ensures DecodeGroup(EncodeGroup(x, y, z)) == [x, y, z] && ':' !in EncodeGroup(x, y, z)
  {
    var a, b, c := x as int, y as int, z as int;
    hide Digit, ValueOf;
    DigitValue(a / 4);
    DigitValue(a % 4 * 16 + b / 16);
    DigitValue(b % 16 * 4 + c / 64);
    DigitValue(c % 64);
    Sextets(a, b, c);
  }

  lemma LastRoundTrip(s: Bytes)
    requires |s| < 3
    ensures DecodeLast(EncodeLast(s)) == s && ':' !in EncodeLast(s)
  {
    hide Digit, ValueOf;
    if |s| > 0 {
      var a, b := s[0] as int, if |s| == 1 then 0 else s[1] as int;
      DigitValue(a / 4);
      DigitValue(a % 4 * 16 + b / 16);
      DigitValue(b % 16 * 4);
      Sextets(a, b, 0);
    }
  }

  /** Encoding loses nothing, and never produces the separator of the keys. */
  lemma {:induction false} RoundTrip(s: Bytes)
    ensures Decode(Encode(s)) == s
    ensures ':' !in Encode(s)
    decreases |s|
  {
    hide EncodeLast, DecodeLast, EncodeGroup, DecodeGroup, IsByte;
    if |s| < 3 {
      LastRoundTrip(s);
    } else {
      GroupRoundTrip(s[0], s[1], s[2]);
      RoundTrip(s[3..]);
      var group := EncodeGroup(s[0], s[1], s[2]);
      assert Encode(s)[..4] == group && Encode(s)[4..] == Encode(s[3..]);
      assert s == [s[0], s[1], s[2]] + s[3..];
    }
  }

  // ----- keys

  /** The keys of one store. A token is the digest it is stored under. */
  datatype Key =
    | TokenKey(token: Bytes)
    | ConsumedMarkerKey(token: Bytes)
    | IndexKey(subject: Subject)
    | SessionKey(subject: Subject)
    | LegacyIndexKey(subject: Subject)
    | LegacySessionKey(subject: Subject)

  function Encoded(s: Subject): string {
    Encode(s.loginType) + ":" + Encode(s.loginID)
  }

  function Joined(s: Subject): string {
    s.loginType + ":" + s.loginID
  }

  /** The text of a key after the prefix. */
  function Suffix(k: Key): string {
    match k
    case TokenKey(t) => ":token:" + t
    case ConsumedMarkerKey(t) => ":token:" + t + ":consumed"
    case IndexKey(s) => ":v2:index:" + Encoded(s)
    case SessionKey(s) => ":v2:session:" + Encoded(s)
    case LegacyIndexKey(s) => ":index:" + Joined(s)
    case LegacySessionKey(s) => ":session:" + Joined(s)
  }

  function Text(prefix: string, k: Key): string {
    prefix + Suffix(k)
  }

  lemma {:induction false} SameAfterPrefix(a: string, b: string, c: string, d: string)
    requires |a| == |c| && a + b == c + d
    ensures a == c && b == d
  {
    assert a == (a + b)[..|a|] && c == (c + d)[..|c|];
    assert b == (a + b)[|a|..] && d == (c + d)[|c|..];
  }

  /** Text is split in one way only at its first separator. */
  lemma {:induction false} SplitOnce(a: string, b: string, c: string, d: string)
    requires ':' !in a && ':' !in c && a + ":" + b == c + ":" + d
    ensures a == c && b == d
  {
    var t := a + ":" + b;
    assert t[|a|] == ':' && t[|c|] == ':';
    assert forall i :: 0 <= i < |a| ==> t[i] != ':';
    assert forall i :: 0 <= i < |c| ==> t[i] != ':';
    SameAfterPrefix(a + ":", b, c + ":", d);
    assert a == (a + ":")[..|a|] && c == (c + ":")[..|c|];
  }

  /** Different subjects never share a v2 key. */
  lemma EncodedIsInjective(s: Subject, t: Subject)
    requires Encoded(s) == Encoded(t)
    ensures s == t
  {
    hide Encode, Decode;
    RoundTrip(s.loginType);
    RoundTrip(t.loginType);
    RoundTrip(s.loginID);
    RoundTrip(t.loginID);
    SplitOnce(Encode(s.loginType), Encode(s.loginID), Encode(t.loginType), Encode(t.loginID));
  }

  const DIGEST_LENGTH := 64

  predicate IsDigest(token: Bytes) {
    |token| == DIGEST_LENGTH && forall c :: c in token ==> '0' <= c <= '9' || 'a' <= c <= 'f'
  }

  predicate HoldsDigest(k: Key) {
    k.TokenKey? || k.ConsumedMarkerKey? ==> IsDigest(k.token)
  }

  predicate Legacy(k: Key) {
    k.LegacyIndexKey? || k.LegacySessionKey?
  }

  predicate SameFamily(j: Key, k: Key) {
    match j
    case TokenKey(_) => k.TokenKey?
    case ConsumedMarkerKey(_) => k.ConsumedMarkerKey?
    case IndexKey(_) => k.IndexKey?
    case SessionKey(_) => k.SessionKey?
    case LegacyIndexKey(_) => k.LegacyIndexKey?
    case LegacySessionKey(_) => k.LegacySessionKey?
  }

  lemma FamiliesDiffer(j: Key, k: Key)
    requires HoldsDigest(j) && HoldsDigest(k) && Suffix(j) == Suffix(k)
    ensures SameFamily(j, k)
  {
    var t, u := Suffix(j), Suffix(k);
    assert t[1] == u[1];
    assert j.TokenKey? ==> |t| == 7 + DIGEST_LENGTH;
    assert k.TokenKey? ==> |u| == 7 + DIGEST_LENGTH;
    assert (j.IndexKey? || j.SessionKey?) && (k.IndexKey? || k.SessionKey?) ==> t[4] == u[4];
  }

  /** Within one store two v2, token or marker keys are the same text only if they are the same key;
      two legacy keys exactly when they are of one family and join to the same text. */
  lemma KeysAreDistinct(prefix: string, j: Key, k: Key)
    requires HoldsDigest(j) && HoldsDigest(k)
    ensures Text(prefix, j) == Text(prefix, k) <==>
            if Legacy(j) && Legacy(k) then SameFamily(j, k) && Joined(j.subject) == Joined(k.subject) else j == k
  {
    hide Encode;
    if Text(prefix, j) == Text(prefix, k) {
      SameAfterPrefix(prefix, Suffix(j), prefix, Suffix(k));
      FamiliesDiffer(j, k);
      match j
      case TokenKey(t) => SameAfterPrefix(":token:", t, ":token:", k.token);
      case ConsumedMarkerKey(t) =>
        SameAfterPrefix(":token:" + t, ":consumed", ":token:" + k.token, ":consumed");
        SameAfterPrefix(":token:", t, ":token:", k.token);
      case IndexKey(s) =>
        SameAfterPrefix(":v2:index:", Encoded(s), ":v2:index:", Encoded(k.subject));
        EncodedIsInjective(s, k.subject);
      case SessionKey(s) =>
        SameAfterPrefix(":v2:session:", Encoded(s), ":v2:session:", Encoded(k.subject));
        EncodedIsInjective(s, k.subject);
      case LegacyIndexKey(s) => SameAfterPrefix(":index:", Joined(s), ":index:", Joined(k.subject));
      case LegacySessionKey(s) => SameAfterPrefix(":session:", Joined(s), ":session:", Joined(k.subject));
    }
  }

  /** The longer login type continues the shorter one through a separator that the other keeps in its ID. */
  ghost predicate Straddles(s: Subject, t: Subject) {
    exists between: Bytes ::
      t.loginType == s.loginType + ":" + between && s.loginID == between + ":" + t.loginID
  }

  /** The legacy layout does not separate subjects: two different ones share a key exactly when one
      straddles the separator of the other. In particular none do if login types have no colon. */
  lemma LegacyKeysCollideIff(s: Subject, t: Subject)
    ensures Joined(s) == Joined(t) <==> s == t || Straddles(s, t) || Straddles(t, s)
    ensures ':' !in s.loginType && ':' !in t.loginType ==> (Joined(s) == Joined(t) <==> s == t)
  {
    if Joined(s) == Joined(t) {
      if |s.loginType| < |t.loginType| {
        StraddlingJoin(s, t);
      } else if |t.loginType| < |s.loginType| {
        StraddlingJoin(t, s);
      } else {
        assert Joined(s) == s.loginType + (":" + s.loginID) && Joined(t) == t.loginType + (":" + t.loginID);
        SameAfterPrefix(s.loginType, ":" + s.loginID, t.loginType, ":" + t.loginID);
        SameAfterPrefix(":", s.loginID, ":", t.loginID);
      }
    }
    if Straddles(s, t) {
      StraddlingCollides(s, t);
    }
    if Straddles(t, s) {
      StraddlingCollides(t, s);
    }
  }

  lemma StraddlingJoin(s: Subject, t: Subject)
    requires Joined(s) == Joined(t) && |s.loginType| < |t.loginType|
    ensures Straddles(s, t) && ':' in t.loginType
  {
    var j, n := Joined(s), |s.loginType|;
    var between: Bytes := t.loginType[n + 1..];
    assert j[..n] == s.loginType == t.loginType[..n];
    assert j[n] == ':' == t.loginType[n];
    assert t.loginType == s.loginType + ":" + between;
    assert j[n + 1..] == s.loginID;
    assert j[n + 1..] == between + ":" + t.loginID;
  }

  lemma StraddlingCollides(s: Subject, t: Subject)
    requires Straddles(s, t)
    ensures Joined(s) == Joined(t) && ':' in t.loginType
  {
    var between: Bytes :| t.loginType == s.loginType + ":" + between && s.loginID == between + ":" + t.loginID;
    assert t.loginType[|s.loginType|] == ':';
    assert Joined(s) == s.loginType + ":" + between + ":" + t.loginID;
  }

  /** Two users of different login types that the legacy layout confuses and the v2 layout does not. */
  lemma LegacyKeysCollide()
    ensures exists s: Subject, t: Subject ::
              s != t && LegacyIndexKey(s) != LegacyIndexKey(t)
              && Suffix(LegacyIndexKey(s)) == Suffix(LegacyIndexKey(t)) && Encoded(s) != Encoded(t)
  {
    hide Encode, Decode;
    var between: Bytes := "admin";
    var s, t := Subject("login", "admin:7"), Subject("login:admin", "7");
    assert |s.loginType| != |t.loginType|;
    assert t.loginType == s.loginType + ":" + between && s.loginID == between + ":" + t.loginID;
    StraddlingCollides(s, t);
    if Encoded(s) == Encoded(t) {
      EncodedIsInjective(s, t);
    }
  }
}
