/** The token state model: the values that every store keeps and every Manager
    operation reads and rewrites. Times are instants and durations in nanoseconds. */
module Tokens {

  datatype Option<+T> = None | Some(value: T)

  type TokenValue = string

  datatype Kind = NoKind | Access | Refresh | Nonce | OtherKind(name: string)

  datatype Status = NoStatus | Active | Revoked | Consumed | OtherStatus(name: string)

  datatype RefreshInfo = RefreshInfo(
    accessToken: TokenValue, rotatedFrom: TokenValue, rotatedTo: TokenValue,
    lastUsedAt: Option<int>, revokedAt: Option<int>)

  datatype NonceInfo = NonceInfo(purpose: string, consumedAt: Option<int>)

  datatype OnlineInfo = OnlineInfo(
    onlineAt: Option<int>, offlineAt: Option<int>, connectionID: string, userAgent: string, ip: string)

  const DEFAULT_LOGIN_TYPE := "login"

  /** White space as Unicode defines it. */
  const WHITE_SPACE :=
    "\t\n\U{0B}\U{0C}\r \U{85}\U{A0}\U{1680}\U{2000}\U{2001}\U{2002}\U{2003}\U{2004}\U{2005}\U{2006}\U{2007}" +
    "\U{2008}\U{2009}\U{200A}\U{2028}\U{2029}\U{202F}\U{205F}\U{3000}"

  predicate IsSpace(c: char) {
    c in WHITE_SPACE
  }

  /** The text without leading and trailing white space. */
  function TrimSpace(s: string): string {
    if s == "" then ""
    else if IsSpace(s[0]) then TrimSpace(s[1..])
    else if IsSpace(s[|s| - 1]) then TrimSpace(s[..|s| - 1])
    else s
  }

  datatype LoginSubject = LoginSubject(loginID: string, loginType: string) {
    function Normalize(): LoginSubject {
      var loginType := TrimSpace(loginType);
      LoginSubject(TrimSpace(loginID), if loginType == "" then DEFAULT_LOGIN_TYPE else loginType)
    }

    predicate IsZero() {
      TrimSpace(loginID) == ""
    }
  }

  /** A deadline is exclusive: the state is expired from that instant on. */
  predicate Passed(deadline: Option<int>, now: int) {
    deadline.Some? && deadline.value <= now
  }

  /** The earlier of the two deadlines a saved state has: now + ttl (a ttl that is not positive
      sets none) and its own expiry. */
  function EffectiveExpiresAt(expiresAt: Option<int>, now: int, ttl: int): (effective: Option<int>)
    ensures forall t :: Passed(effective, t) <==> (ttl > 0 && now + ttl <= t) || Passed(expiresAt, t)
  {
    if ttl <= 0 then expiresAt
    else if expiresAt.Some? && expiresAt.value < now + ttl then expiresAt
    else Some(now + ttl)
  }

  datatype TokenState = TokenState(
    token: TokenValue,
    kind: Kind,
    loginID: string,
    loginType: string,
    device: string,
    createdAt: int,
    lastActiveAt: int,
    expiresAt: Option<int>,
    status: Status,
    metadata: string,
    refresh: Option<RefreshInfo>,
    nonce: Option<NonceInfo>,
    online: Option<OnlineInfo>)
  {
    function Normalize(): TokenState {
      this.(kind := if kind == NoKind then Access else kind,
            status := if status == NoStatus then Active else status,
            loginType := if loginType == "" then DEFAULT_LOGIN_TYPE else loginType)
    }

    predicate IsNormal() {
      kind != NoKind && status != NoStatus && loginType != ""
    }

    predicate IsExpired(now: int) {
      Passed(expiresAt, now)
    }

    predicate IsActive(now: int) {
      !IsExpired(now) && (status == NoStatus || status == Active)
    }

    function Subject(): LoginSubject {
      LoginSubject(loginID, loginType)
    }

    function Touch(now: int): TokenState {
      this.(lastActiveAt := now)
    }

    function MarkRevoked(now: int): TokenState {
      this.(status := Revoked,
            refresh := match refresh case None => None case Some(i) => Some(i.(revokedAt := Some(now))))
    }

    function MarkConsumed(now: int): TokenState {
      this.(status := Consumed,
            nonce := match nonce case None => None case Some(i) => Some(i.(consumedAt := Some(now))))
    }

    function MarkOnline(now: int, info: OnlineInfo): TokenState {
      var offline := if info.offlineAt.None? && online.Some? then online.value.offlineAt else info.offlineAt;
      this.(online := Some(info.(onlineAt := Some(now), offlineAt := offline)),
            status := Active,
            lastActiveAt := now)
    }

    function MarkOffline(now: int): TokenState {
      var info := if online.Some? then online.value else OnlineInfo(None, None, "", "", "");
      this.(online := Some(info.(offlineAt := Some(now))), lastActiveAt := now)
    }
  }

  /** The digest that turns a plaintext token into the key it is stored under. */
  type Digest = string -> TokenValue

  /** The storage key of a plaintext token: a digest of the trimmed text, or "" when nothing is left. */
  function StoreKey(digest: Digest, token: TokenValue): TokenValue {
    var trimmed := TrimSpace(token);
    if trimmed == "" then "" else digest(trimmed)
  }

  /** What a caller gets back: the state with its key replaced by the plaintext they hold. */
  function WithPlaintext(state: TokenState, plaintext: TokenValue): TokenState {
    state.(token := TrimSpace(plaintext))
  }

  function RemainingTTL(now: int, state: TokenState): (ttl: int) {
    if state.expiresAt.None? || state.expiresAt.value <= now then 0 else state.expiresAt.value - now
  }

  /** t is s[i..j], everything cut off is white space, and t does not begin or end with any. */
  ghost predicate IsTrimOf(s: string, t: string, i: nat, j: nat) {
    && i <= j <= |s| && t == s[i..j]
    && (forall k :: 0 <= k < i || j <= k < |s| ==> IsSpace(s[k]))
    && (t != "" ==> !IsSpace(t[0]) && !IsSpace(t[|t| - 1]))
  }

  /** Trimming removes white space at the ends only, and all of it. */
  lemma {:induction false} TrimmedText(s: string) returns (i: nat, j: nat)
    ensures IsTrimOf(s, TrimSpace(s), i, j)
  {
    hide IsSpace;
    if s == "" {
      return 0, 0;
    } else if IsSpace(s[0]) {
      i, j := TrimmedText(s[1..]);
      i, j := i + 1, j + 1;
    } else if IsSpace(s[|s| - 1]) {
      i, j := TrimmedText(s[..|s| - 1]);
    } else {
      return 0, |s|;
    }
  }

  /** Trimming twice is trimming once, so a trimmed token keeps its storage key. */
  lemma TrimIdempotent(s: string)
    ensures TrimSpace(TrimSpace(s)) == TrimSpace(s)
  {
    var _, _ := TrimmedText(s);
  }

  /** Only the status tells it from the state before, and when a nonce was spent. */
  predicate IsConsumed(was: TokenState, state: TokenState, now: int) {
    && state.status == Consumed && (state.nonce.Some? <==> was.nonce.Some?)
    && (was.nonce.Some? ==>
          state.nonce.value.consumedAt == Some(now) && state.nonce.value.purpose == was.nonce.value.purpose)
    && state.(status := was.status, nonce := was.nonce) == was
  }

  predicate IsRevoked(was: TokenState, state: TokenState, now: int) {
    && state.status == Revoked && (state.refresh.Some? <==> was.refresh.Some?)
    && (was.refresh.Some? ==>
          && state.refresh.value.revokedAt == Some(now)
          && state.refresh.value.(revokedAt := was.refresh.value.revokedAt) == was.refresh.value)
    && state.(status := was.status, refresh := was.refresh) == was
  }

  lemma MarkedAsSaid(state: TokenState, now: int)
    ensures IsConsumed(state, state.MarkConsumed(now), now) && IsRevoked(state, state.MarkRevoked(now), now)
  {
  }

  /** What a state lacks is made up for: a state of no kind is an access state, one of no status is active, one of no
      login type has the default one; otherwise it is the same, and as active as before. */
  lemma NormalMeans(state: TokenState)
    ensures var n := state.Normalize();
            && n.IsNormal() && n.Normalize() == n && (state.IsNormal() ==> n == state)
            && n.(kind := state.kind, status := state.status, loginType := state.loginType) == state
            && (state.kind == NoKind ==> n.kind == Access) && (state.loginType == "" ==> n.loginType == "login")
            && (state.kind != NoKind ==> n.kind == state.kind)
            && (state.loginType != "" ==> n.loginType == state.loginType)
            && (state.status != NoStatus ==> n.status == state.status)
            && forall now :: n.IsActive(now) <==> state.IsActive(now)
  {
  }

  /** Two subjects are the same if their texts are, white space around them aside and with blank types meaning
      "login". */
  lemma SubjectsAreTexts(s: LoginSubject, t: LoginSubject)
    ensures s.Normalize() == t.Normalize() <==>
              && TrimSpace(s.loginID) == TrimSpace(t.loginID)
              && (if TrimSpace(s.loginType) == "" then "login" else TrimSpace(s.loginType))
                 == (if TrimSpace(t.loginType) == "" then "login" else TrimSpace(t.loginType))
    ensures s.IsZero() <==> s.Normalize().loginID == ""
  {
    hide TrimSpace;
  }

  /** Storage keys tell texts apart when the digest does. */
  lemma KeysAreTexts(digest: Digest, t: TokenValue, u: TokenValue)
    requires digest(TrimSpace(t)) != "" && digest(TrimSpace(u)) != ""
    requires digest(TrimSpace(t)) == digest(TrimSpace(u)) ==> TrimSpace(t) == TrimSpace(u)
    ensures StoreKey(digest, t) == StoreKey(digest, u) <==> TrimSpace(t) == TrimSpace(u)
    ensures StoreKey(digest, t) == "" <==> TrimSpace(t) == ""
  {
    hide TrimSpace;
  }

  lemma NormalizeTwice(subject: LoginSubject)
    ensures subject.Normalize().Normalize() == subject.Normalize()
  {
    hide TrimSpace;
    TrimIdempotent(subject.loginID);
    TrimIdempotent(subject.loginType);
    DefaultIsTrimmed();
  }

  lemma DefaultIsTrimmed()
    ensures TrimSpace(DEFAULT_LOGIN_TYPE) == DEFAULT_LOGIN_TYPE
  {
  }
}
