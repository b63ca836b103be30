/** Single-use credentials of the sign-in service: refresh tokens, which are replaced at every
    use, and phone verification challenges with a bounded number of attempts. */
module Credentials {
  import opened Options

  type UserId = nat
  type DeviceId = nat
  type Digest = nat
  type Time = int

  // ---- refresh tokens ----

  datatype Token = Token(user: UserId, device: Option<DeviceId>, expiresAt: Time, revoked: bool)

  /** The table, by token digest. */
  type Tokens = map<Digest, Token>

  predicate Usable(t: Token, now: Time) {
    !t.revoked && t.expiresAt > now
  }

  predicate Concerned(t: Token, user: UserId, device: Option<DeviceId>) {
    t.user == user && (device.Some? ==> t.device == device)
  }

  function Issue(ts: Tokens, user: UserId, device: Option<DeviceId>, digest: Digest, ttl: int, now: Time): Tokens {
    ts[digest := Token(user, device, now + ttl, false)]
  }

  /** The table after a refresh with the token of `digest`, or none when it is refused. */
  function Refresh(ts: Tokens, digest: Digest, replacement: Digest, ttl: int, now: Time): Option<Tokens> {
    if digest !in ts || !Usable(ts[digest], now) then None
    else
      var t := ts[digest];
      Some(ts[digest := t.(revoked := true)][replacement := Token(t.user, t.device, now + ttl, false)])
  }

  /** A logout of one device, or of all of them when none is named. */
  function Revoke(ts: Tokens, user: UserId, device: Option<DeviceId>): Tokens {
    map d | d in ts :: if Concerned(ts[d], user, device) then ts[d].(revoked := true) else ts[d]
  }

  class TokenTable {
    var tokens: Tokens

    constructor ()
      ensures tokens == map[]
    {
      tokens := map[];
    }

    method RefreshTokens(digest: Digest, replacement: Digest, ttl: int, now: Time) returns (ok: bool)
      modifies this
      ensures match Refresh(old(tokens), digest, replacement, ttl, now)
              case None => !ok && tokens == old(tokens)
              case Some(ts) => ok && tokens == ts
    {
      if digest !in tokens || tokens[digest].revoked || tokens[digest].expiresAt <= now {
        return false;
      }
      var user, device := tokens[digest].user, tokens[digest].device;
      tokens := tokens[digest := tokens[digest].(revoked := true)];
      tokens := tokens[replacement := Token(user, device, now + ttl, false)];
      return true;
    }

    /** The rows are revoked one after the other, in no particular order. */
    method RevokeRefreshTokens(user: UserId, device: Option<DeviceId>)
      modifies this
      ensures tokens == Revoke(old(tokens), user, device)
    {
      ghost var before := tokens;
      var rows := set d | d in tokens && Concerned(tokens[d], user, device) && !tokens[d].revoked;
      ghost var all := rows;
      while rows != {}
        invariant rows <= all && tokens.Keys == before.Keys
        invariant forall d :: d in tokens ==> tokens[d] == if d in all - rows then before[d].(revoked := true) else before[d]
        decreases |rows|
      {
        var d :| d in rows;
        tokens := tokens[d := tokens[d].(revoked := true)];
        rows := rows - {d};
      }
      assert forall d :: d in tokens ==> tokens[d] == Revoke(before, user, device)[d];
    }
  }

  /** The digests of the tokens a device can still use. */
  function Live(ts: Tokens, user: UserId, device: Option<DeviceId>, now: Time): set<Digest> {
    set d | d in ts && ts[d].user == user && ts[d].device == device && Usable(ts[d], now)
  }

  /** A refresh keeps the number of usable tokens of its device exactly when the new token has a
      positive lifetime, and otherwise costs one; no other device gains or loses a token. */
  lemma RefreshConserves(ts: Tokens, digest: Digest, replacement: Digest, ttl: int, now: Time, user: UserId, device: Option<DeviceId>)
    requires replacement !in ts && Refresh(ts, digest, replacement, ttl, now).Some?
    ensures var before, after := Live(ts, user, device, now), Live(Refresh(ts, digest, replacement, ttl, now).value, user, device, now);
            if user == ts[digest].user && device == ts[digest].device then
              |after| == if ttl > 0 then |before| else |before| - 1
            else after == before
  {
    hide Live, Refresh;
    LiveAfterRefresh(ts, digest, replacement, ttl, now, user, device);
  }

  lemma LiveAfterRefresh(ts: Tokens, digest: Digest, replacement: Digest, ttl: int, now: Time, user: UserId, device: Option<DeviceId>)
    requires replacement !in ts && Refresh(ts, digest, replacement, ttl, now).Some?
    ensures digest in ts && replacement !in Live(ts, user, device, now)
    ensures var before, after := Live(ts, user, device, now), Live(Refresh(ts, digest, replacement, ttl, now).value, user, device, now);
            if user == ts[digest].user && device == ts[digest].device then
              digest in before && after == if ttl > 0 then before - {digest} + {replacement} else before - {digest}
            else after == before
  {
  }

  datatype Request =
    | SigningIn(user: UserId, device: Option<DeviceId>, digest: Digest, ttl: int, now: Time)
    | Refreshing(digest: Digest, replacement: Digest, ttl: int, now: Time)
    | LoggingOut(user: UserId, device: Option<DeviceId>)

  /** Generated tokens are new. */
  predicate Enabled(ts: Tokens, r: Request) {
    match r
    case SigningIn(_, _, digest, _, _) => digest !in ts
    case Refreshing(_, replacement, _, _) => replacement !in ts
    case LoggingOut(_, _) => true
  }

  function Next(ts: Tokens, r: Request): Tokens {
    match r
    case SigningIn(user, device, digest, ttl, now) => Issue(ts, user, device, digest, ttl, now)
    case Refreshing(digest, replacement, ttl, now) =>
      (match Refresh(ts, digest, replacement, ttl, now)
       case None => ts
       case Some(next) => next)
    case LoggingOut(user, device) => Revoke(ts, user, device)
  }

  function After(rs: seq<Request>, k: nat): Tokens
    requires k <= |rs|
  {
    if k == 0 then map[] else Next(After(rs, k - 1), rs[k - 1])
  }

  predicate IsRun(rs: seq<Request>) {
    forall i :: 0 <= i < |rs| ==> Enabled(After(rs, i), rs[i])
  }

  predicate Accepted(rs: seq<Request>, i: nat, digest: Digest)
    requires i < |rs|
  {
    && rs[i].Refreshing? && rs[i].digest == digest
    && Refresh(After(rs, i), digest, rs[i].replacement, rs[i].ttl, rs[i].now).Some?
  }

  lemma OneStep(rs: seq<Request>, k: nat)
    requires k < |rs| && IsRun(rs)
    ensures After(rs, k + 1) == Next(After(rs, k), rs[k]) && Enabled(After(rs, k), rs[k])
  {
  }

  lemma RevokedStep(ts: Tokens, r: Request, digest: Digest)
    requires Enabled(ts, r) && digest in ts && ts[digest].revoked
    ensures digest in Next(ts, r) && Next(ts, r)[digest].revoked
  {
  }

  /** A revoked token stays in the table and stays revoked. */
  lemma {:induction false} RevokedForGood(rs: seq<Request>, j: nat, k: nat, digest: Digest)
    requires j <= k <= |rs| && IsRun(rs)
    requires digest in After(rs, j) && After(rs, j)[digest].revoked
    ensures digest in After(rs, k) && After(rs, k)[digest].revoked
    decreases k
  {
    hide After, Next, Enabled, IsRun;
    if j < k {
      RevokedForGood(rs, j, k - 1, digest);
      OneStep(rs, k - 1);
      RevokedStep(After(rs, k - 1), rs[k - 1], digest);
    }
  }

  lemma AcceptedRevokes(ts: Tokens, r: Request)
    requires Enabled(ts, r) && r.Refreshing? && Refresh(ts, r.digest, r.replacement, r.ttl, r.now).Some?
    ensures r.digest in Next(ts, r) && Next(ts, r)[r.digest].revoked
  {
  }

  /** Over every run each refresh token is accepted at most once. */
  lemma AcceptedOnce(rs: seq<Request>, j: nat, k: nat, digest: Digest)
    requires j < |rs| && k < |rs| && IsRun(rs) && Accepted(rs, j, digest) && Accepted(rs, k, digest)
    ensures j == k
  {
    hide After, Next, Enabled, IsRun;
    var first, second := if j < k then j else k, if j < k then k else j;
    if first < second {
      OneStep(rs, first);
      AcceptedRevokes(After(rs, first), rs[first]);
      RevokedForGood(rs, first + 1, second, digest);
    }
  }

  /** The tokens of a device that have been neither used nor revoked. */
  function Unspent(ts: Tokens, user: UserId, device: Option<DeviceId>): set<Digest> {
    set d | d in ts && ts[d].user == user && ts[d].device == device && !ts[d].revoked
  }

  /** How often the device has signed in since the last logout that concerned it. */
  function SignIns(rs: seq<Request>, k: nat, user: UserId, device: Option<DeviceId>): nat
    requires k <= |rs|
  {
    if k == 0 then 0
    else
      var before, r := SignIns(rs, k - 1, user, device), rs[k - 1];
      if r.SigningIn? && r.user == user && r.device == device then before + 1
      else if r.LoggingOut? && r.user == user && (r.device.None? || r.device == device) then 0
      else before
  }

  /** Conservation: however often tokens are refreshed, a device holds exactly one unspent token
      for each sign-in since its last logout. */
  lemma {:induction false} OneTokenPerSignIn(rs: seq<Request>, k: nat, user: UserId, device: Option<DeviceId>)
    requires k <= |rs| && IsRun(rs)
    ensures |Unspent(After(rs, k), user, device)| == SignIns(rs, k, user, device)
  {
    hide After, Next, Enabled, IsRun, Unspent;
    if k == 0 {
      NothingUnspent(rs, user, device);
    } else {
      OneTokenPerSignIn(rs, k - 1, user, device);
      OneStep(rs, k - 1);
      UnspentStep(After(rs, k - 1), rs[k - 1], user, device);
    }
  }

  lemma NothingUnspent(rs: seq<Request>, user: UserId, device: Option<DeviceId>)
    ensures Unspent(After(rs, 0), user, device) == {}
  {
  }

  lemma UnspentStep(ts: Tokens, r: Request, user: UserId, device: Option<DeviceId>)
    requires Enabled(ts, r)
    ensures |Unspent(Next(ts, r), user, device)|
         == if r.SigningIn? && r.user == user && r.device == device then |Unspent(ts, user, device)| + 1
            else if r.LoggingOut? && r.user == user && (r.device.None? || r.device == device) then 0
            else |Unspent(ts, user, device)|
  {
    hide Unspent, Next;
    match r
    case SigningIn(_, _, _, _, _) => UnspentAfterSignIn(ts, r, user, device);
    case Refreshing(_, _, _, _) => UnspentAfterRefresh(ts, r, user, device);
    case LoggingOut(_, _) => UnspentAfterLogout(ts, r, user, device);
  }

  lemma UnspentAfterSignIn(ts: Tokens, r: Request, user: UserId, device: Option<DeviceId>)
    requires r.SigningIn? && Enabled(ts, r)
    ensures r.digest !in Unspent(ts, user, device)
    ensures Unspent(Next(ts, r), user, device)
         == if r.user == user && r.device == device then Unspent(ts, user, device) + {r.digest} else Unspent(ts, user, device)
  {
  }

  lemma Swapped(s: set<Digest>, x: Digest, y: Digest)
    requires x in s && y !in s
    ensures |s - {x} + {y}| == |s|
  {
  }

  /** An accepted refresh replaces the token in the set of its own device, any other set stays. */
  lemma UnspentReplaced(ts: Tokens, digest: Digest, replacement: Digest, ttl: int, now: Time, user: UserId, device: Option<DeviceId>)
    requires replacement !in ts && digest in ts && Usable(ts[digest], now)
    ensures replacement !in Unspent(ts, user, device)
    ensures var before := Unspent(ts, user, device);
            Unspent(Refresh(ts, digest, replacement, ttl, now).value, user, device)
            == if digest in before then before - {digest} + {replacement} else before
  {
    var t, next := ts[digest], Refresh(ts, digest, replacement, ttl, now).value;
    assert next[digest].revoked && next[replacement] == Token(t.user, t.device, now + ttl, false);
    assert forall d :: d in ts && d != digest ==> next[d] == ts[d];
  }

  lemma UnspentAfterRefresh(ts: Tokens, r: Request, user: UserId, device: Option<DeviceId>)
    requires r.Refreshing? && Enabled(ts, r)
    ensures |Unspent(Next(ts, r), user, device)| == |Unspent(ts, user, device)|
  {
    hide Unspent, Usable;
    if r.digest in ts && Usable(ts[r.digest], r.now) {
      UnspentReplaced(ts, r.digest, r.replacement, r.ttl, r.now, user, device);
      if r.digest in Unspent(ts, user, device) {
        Swapped(Unspent(ts, user, device), r.digest, r.replacement);
      }
    }
  }

  lemma UnspentAfterLogout(ts: Tokens, r: Request, user: UserId, device: Option<DeviceId>)
    requires r.LoggingOut?
    ensures Unspent(Next(ts, r), user, device)
         == if r.user == user && (r.device.None? || r.device == device) then {} else Unspent(ts, user, device)
  {
  }

  /** Request `j` issued the token: a sign-in of the user and device, or an accepted refresh with a token
      of the same user and device. It expires one lifetime after that. */
  predicate IssuedAt(rs: seq<Request>, j: nat, d: Digest, t: Token)
    requires j < |rs|
  {
    match rs[j]
    case SigningIn(user, device, digest, ttl, now) =>
      digest == d && t.user == user && t.device == device && t.expiresAt == now + ttl
    case Refreshing(digest, replacement, ttl, now) =>
      && replacement == d && Accepted(rs, j, digest) && t.expiresAt == now + ttl
      && digest in After(rs, j) && After(rs, j)[digest].user == t.user && After(rs, j)[digest].device == t.device
    case LoggingOut(_, _) => false
  }

  lemma IssuedStep(ts: Tokens, r: Request, d: Digest)
    requires Enabled(ts, r) && d in Next(ts, r)
    ensures if d in ts then Next(ts, r)[d] == ts[d].(revoked := Next(ts, r)[d].revoked)
            else match r
                 case SigningIn(user, device, digest, ttl, now) => d == digest && Next(ts, r)[d] == Token(user, device, now + ttl, false)
                 case Refreshing(digest, replacement, ttl, now) =>
                   && d == replacement && Refresh(ts, digest, replacement, ttl, now).Some? && digest in ts
                   && Next(ts, r)[d] == Token(ts[digest].user, ts[digest].device, now + ttl, false)
                 case LoggingOut(_, _) => false
  {
  }

  /** Over every run each token was issued by one of the requests, and its user, device and expiry are
      still those it was issued with. */
  lemma {:induction false} TokenOrigin(rs: seq<Request>, k: nat, d: Digest)
    requires k <= |rs| && IsRun(rs) && d in After(rs, k)
    ensures exists j :: 0 <= j < k && IssuedAt(rs, j, d, After(rs, k)[d])
  {
    hide IsRun, Next, Enabled, Refresh;
    if k > 0 {
      OneStep(rs, k - 1);
      IssuedStep(After(rs, k - 1), rs[k - 1], d);
      if d in After(rs, k - 1) {
        TokenOrigin(rs, k - 1, d);
        var j :| 0 <= j < k - 1 && IssuedAt(rs, j, d, After(rs, k - 1)[d]);
        assert IssuedAt(rs, j, d, After(rs, k)[d]);
      } else {
        assert IssuedAt(rs, k - 1, d, After(rs, k)[d]);
      }
    }
  }

  /** After a logout without a device the user has no usable token until the next sign-in. */
  lemma {:induction false} LogoutLeavesNone(rs: seq<Request>, j: nat, k: nat, user: UserId)
    requires j < k <= |rs| && IsRun(rs) && rs[j] == LoggingOut(user, None)
    requires forall i :: j < i < k ==> !(rs[i].SigningIn? && rs[i].user == user)
    ensures forall d :: d in After(rs, k) && After(rs, k)[d].user == user ==> After(rs, k)[d].revoked
    decreases k
  {
    hide After, IsRun;
    OneStep(rs, k - 1);
    if j + 1 < k {
      LogoutLeavesNone(rs, j, k - 1, user);
    }
  }

  // ---- phone verification challenges ----

  datatype Challenge = Challenge(code: Digest, attempts: nat, expiresAt: Time, consumed: bool)

  type Challenges = map<nat, Challenge>

  datatype Outcome = NotFound | Expired | InvalidCode | Verified

  datatype Checked = Checked(challenges: Challenges, outcome: Outcome)

  function Verify(cs: Challenges, id: nat, code: Digest, now: Time): Checked {
    if id !in cs || cs[id].consumed then Checked(cs, NotFound)
    else
      var c := cs[id];
      if now > c.expiresAt then Checked(cs, Expired)
      else if c.attempts <= 0 || code != c.code then
        Checked(cs[id := c.(attempts := if c.attempts > 0 then c.attempts - 1 else 0)], InvalidCode)
      else Checked(cs[id := c.(consumed := true)], Verified)
  }

  class ChallengeTable {
    var challenges: Challenges

    constructor ()
      ensures challenges == map[]
    {
      challenges := map[];
    }

    method VerifyPhone(id: nat, code: Digest, now: Time) returns (outcome: Outcome)
      modifies this
      ensures Checked(challenges, outcome) == Verify(old(challenges), id, code, now)
    {
      if id !in challenges || challenges[id].consumed {
        return NotFound;
      }
      var row := challenges[id];
      if now > row.expiresAt {
        return Expired;
      }
      if row.attempts <= 0 || code != row.code {
        var left := row.attempts - 1;
        if left < 0 {
          left := 0;
        }
        challenges := challenges[id := row.(attempts := left)];
        return InvalidCode;
      }
      challenges := challenges[id := row.(consumed := true)];
      return Verified;
    }
  }

  datatype Attempt = Attempt(id: nat, code: Digest, now: Time)

  /** The challenges after the first `k` attempts. */
  function Tried(cs: Challenges, attempts: seq<Attempt>, k: nat): Challenges
    requires k <= |attempts|
  {
    if k == 0 then cs
    else Verify(Tried(cs, attempts, k - 1), attempts[k - 1].id, attempts[k - 1].code, attempts[k - 1].now).challenges
  }

  function OutcomeOf(cs: Challenges, attempts: seq<Attempt>, i: nat): Outcome
    requires i < |attempts|
  {
    Verify(Tried(cs, attempts, i), attempts[i].id, attempts[i].code, attempts[i].now).outcome
  }

  /** Wrong codes entered in time among the first `k` attempts on `id`. */
  function WrongCodes(cs: Challenges, attempts: seq<Attempt>, k: nat, id: nat): nat
    requires k <= |attempts|
  {
    if k == 0 then 0
    else WrongCodes(cs, attempts, k - 1, id)
         + if attempts[k - 1].id == id && id in cs && attempts[k - 1].now <= cs[id].expiresAt && attempts[k - 1].code != cs[id].code
           then 1 else 0
  }

  predicate VerifiedBefore(cs: Challenges, attempts: seq<Attempt>, k: nat, id: nat)
    requires k <= |attempts|
  {
    exists i :: 0 <= i < k && attempts[i].id == id && OutcomeOf(cs, attempts, i) == Verified
  }

  lemma {:induction false} ChallengeState(cs: Challenges, attempts: seq<Attempt>, k: nat, id: nat)
    requires k <= |attempts| && id in cs && !cs[id].consumed
    ensures var now := Tried(cs, attempts, k);
            && id in now && now[id].code == cs[id].code && now[id].expiresAt == cs[id].expiresAt
            && (now[id].consumed <==> VerifiedBefore(cs, attempts, k, id))
            && now[id].attempts <= cs[id].attempts
            && (!now[id].consumed ==>
                  now[id].attempts == if WrongCodes(cs, attempts, k, id) >= cs[id].attempts then 0
                                      else cs[id].attempts - WrongCodes(cs, attempts, k, id))
  {
    if k > 0 {
      ChallengeState(cs, attempts, k - 1, id);
      assert VerifiedBefore(cs, attempts, k, id)
        <==> VerifiedBefore(cs, attempts, k - 1, id) || (attempts[k - 1].id == id && OutcomeOf(cs, attempts, k - 1) == Verified);
    }
  }

  /** An attempt is accepted exactly when it enters the right code in time, no attempt was accepted
      before, and fewer wrong codes than the challenge allows were entered before. */
  lemma AcceptedExactly(cs: Challenges, attempts: seq<Attempt>, i: nat)
    requires i < |attempts| && attempts[i].id in cs && !cs[attempts[i].id].consumed
    ensures var a := attempts[i];
            OutcomeOf(cs, attempts, i) == Verified
            <==> && a.code == cs[a.id].code && a.now <= cs[a.id].expiresAt
                 && !VerifiedBefore(cs, attempts, i, a.id)
                 && WrongCodes(cs, attempts, i, a.id) < cs[a.id].attempts
  {
    ChallengeState(cs, attempts, i, attempts[i].id);
  }
}
