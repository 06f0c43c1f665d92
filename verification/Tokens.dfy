/** Access tokens, rotating refresh tokens and bans (internal/auth/token.go), first call by call, then as any
    number of calls interleaved command by command. Times are in nanoseconds. */
module Tokens {
  import opened Basics
  import opened Redis

  const SECOND: int := 1_000_000_000
  const MINUTE: int := 60 * SECOND

  /** A JWT's times are whole seconds. */
  function NumericDate(t: int): (d: int)
    ensures d <= t < d + SECOND && d % SECOND == 0
  {
    t / SECOND * SECOND
  }

  /** A signed access token: who, with which rights, and from when until when. */
  datatype Access = Access(user: nat, isAdmin: bool, issuedAt: int, expiresAt: int)

  function Signed(user: nat, isAdmin: bool, now: int, accessTTL: int): Access {
    Access(user, isAdmin, NumericDate(now), NumericDate(now + accessTTL))
  }

  /** What a token says: its user, the flag it was given, and whole-second times no more than a second early. */
  predicate Says(x: Access, user: nat, isAdmin: bool, now: int, accessTTL: int) {
    && x.user == user && x.isAdmin == isAdmin
    && x.issuedAt % SECOND == 0 && x.issuedAt <= now < x.issuedAt + SECOND
    && x.expiresAt % SECOND == 0 && x.expiresAt <= now + accessTTL < x.expiresAt + SECOND
  }

  /** Signature and issuer taken as right: the times, then the ban. */
  predicate Verifies(x: Access, bans: map<nat, int>, now: int) {
    x.issuedAt <= now < x.expiresAt && !Banned(bans, now, x.user)
  }

  datatype AuthError = TokenInvalid | TokenReused | UserSuspended | UserUnknown | BanUnknown

  datatype Pair = Pair(access: Access, refresh: string)

  class TokenService {
    const accessTTL: int
    const refreshTTL: int
    const redis: Client

    constructor (accessTTL: int, refreshTTL: int, redis: Client)
      ensures this.accessTTL == accessTTL && this.refreshTTL == refreshTTL && this.redis == redis
    {
      this.accessTTL, this.refreshTTL, this.redis := accessTTL, refreshTTL, redis;
    }

    /** `jti` is the fresh random name of the new refresh token. */
    method IssueWithFamily(user: nat, isAdmin: bool, family: string, jti: string) returns (pair: Pair)
      modifies redis`refresh
      ensures Says(pair.access, user, isAdmin, redis.now, accessTTL) && pair.refresh == jti
      ensures pair.access == Signed(user, isAdmin, redis.now, accessTTL)
      ensures redis.refresh == old(redis.refresh)[jti := Refresh(user, family, redis.now + refreshTTL)]
    {
      var access := Signed(user, isAdmin, redis.now, accessTTL);
      redis.PutRefresh(jti, user, family, refreshTTL);
      return Pair(access, jti);
    }

    /** `authentic`: the signature, the issuer and the subject hold up. `reachable`: the ban lookup is answered; when it
        is not, the token is refused. */
    method VerifyAccess(x: Access, authentic: bool, reachable: bool) returns (r: Result<Access, AuthError>)
      ensures r.Ok? <==>
                && authentic && reachable && x.issuedAt <= redis.now < x.expiresAt
                && !(x.user in redis.bans && redis.now < redis.bans[x.user])
      ensures r.Ok? <==> authentic && reachable && Verifies(x, redis.bans, redis.now)
      ensures r.Ok? ==> r.value == x
      ensures r == Err(TokenInvalid) <==> !authentic || !(x.issuedAt <= redis.now < x.expiresAt)
      ensures r == Err(BanUnknown) <==> authentic && x.issuedAt <= redis.now < x.expiresAt && !reachable
    {
      if !authentic || redis.now < x.issuedAt || redis.now >= x.expiresAt {
        return Err(TokenInvalid);
      }
      if !reachable {
        return Err(BanUnknown);
      }
      var banned := redis.IsBanned(x.user);
      return if banned then Err(UserSuspended) else Ok(x);
    }

    /** `lookup` is what the account lookup answers: the present admin flag, or nothing. The presented token is gone
        whatever the answer. */
    method Rotate(token: string, lookup: Option<bool>, jti: string) returns (r: Result<Pair, AuthError>)
      modifies redis`refresh
      ensures var live := token in old(redis.refresh) && redis.now < old(redis.refresh)[token].expires;
              && (r == Err(TokenReused) <==> !live)
              && (live ==>
                    var user := old(redis.refresh)[token].user;
                    var banned := user in redis.bans && redis.now < redis.bans[user];
                    && (r == Err(UserSuspended) <==> banned)
                    && (r == Err(UserUnknown) <==> !banned && lookup == None)
                    && (r.Ok? <==> !banned && lookup.Some?)
                    && (r.Ok? ==> Says(r.value.access, user, lookup.value, redis.now, accessTTL) && r.value.refresh == jti))
      ensures r.Err? ==> redis.refresh == old(redis.refresh) - {token}
      ensures r.Ok? ==>
                var found := old(redis.refresh)[token];
                redis.refresh == (old(redis.refresh) - {token})[jti := Refresh(found.user, found.family, redis.now + refreshTTL)]
    {
      var found := redis.ConsumeRefresh(token);
      if found == None {
        return Err(TokenReused);
      }
      var banned := redis.IsBanned(found.value.user);
      if banned {
        return Err(UserSuspended);
      }
      if lookup == None {
        return Err(UserUnknown);
      }
      var pair := IssueWithFamily(found.value.user, lookup.value, found.value.family, jti);
      return Ok(pair);
    }

    method Revoke(token: string)
      modifies redis`refresh
      ensures redis.refresh == old(redis.refresh) - {token}
    {
      redis.DelRefresh(token);
    }

    method RevokeAll(user: nat)
      modifies redis`bans
      ensures redis.bans == old(redis.bans)[user := redis.now + accessTTL + MINUTE]
    {
      redis.BanUser(user, accessTTL + MINUTE);
    }

    method AllowAgain(user: nat)
      modifies redis`bans
      ensures redis.bans == old(redis.bans) - {user}
    {
      redis.UnbanUser(user);
    }
  }

  /******* The calls interleaved *******/

  /** Where an access token comes from: a login, or a rotation whose ban check was at the given time. */
  datatype Source = Login | Rotation(checkedAt: int)

  datatype Minted = Minted(token: Access, source: Source, mintedAt: int)

  /** A call between two commands. */
  datatype Call =
    | Checking(user: nat, family: string)                       // token consumed, ban not yet looked up
    | Ready(user: nat, family: string, source: Source)          // about to read the clock and sign
    | Putting(user: nat, family: string)                        // signed, refresh token not yet stored

  datatype Auth = Auth(
    now: int,
    refresh: map<string, Refresh>,
    bans: map<nat, int>,
    calls: map<nat, Call>,
    minted: set<Minted>,
    families: set<string>,        // every family ever started
    stored: set<string>,          // every refresh token ever stored
    redeemed: seq<string>,        // in order
    revoked: set<string>)

  datatype Event =
    | Issue(pid: nat, user: nat, family: string)
    | Consume(pid: nat, jti: string)
    | CheckBan(pid: nat)
    | Sign(pid: nat, isAdmin: bool)
    | Put(pid: nat, jti: string, ttl: int)
    | Abandon(pid: nat)           // an error or a crash
    | Revoke(jti: string)
    | RevokeAll(user: nat)
    | AllowAgain(user: nat)
    | Tick(elapsed: nat)

  function Occurs(accessTTL: int, a: Auth, e: Event): Option<Auth> {
    match e
    case Issue(pid, user, family) =>
      if pid in a.calls || family in a.families then None
      else Some(a.(calls := a.calls[pid := Ready(user, family, Login)], families := a.families + {family}))
    case Consume(pid, jti) => (
      if pid in a.calls then None else
      match LiveRefresh(a.refresh, a.now, jti)
      case None => Some(a.(refresh := a.refresh - {jti}))
      case Some(found) =>
        Some(a.(refresh := a.refresh - {jti}, redeemed := a.redeemed + [jti],
                calls := a.calls[pid := Checking(found.user, found.family)])))
    case CheckBan(pid) =>
      if pid !in a.calls || !a.calls[pid].Checking? then None
      else
        var user, family := a.calls[pid].user, a.calls[pid].family;
        if Banned(a.bans, a.now, user) then Some(a.(calls := a.calls - {pid}))
        else Some(a.(calls := a.calls[pid := Ready(user, family, Rotation(a.now))]))
    case Sign(pid, isAdmin) =>
      if pid !in a.calls || !a.calls[pid].Ready? then None
      else
        var Ready(user, family, source) := a.calls[pid];
        Some(a.(calls := a.calls[pid := Putting(user, family)],
                minted := a.minted + {Minted(Signed(user, isAdmin, a.now, accessTTL), source, a.now)}))
    case Put(pid, jti, ttl) =>
      if pid !in a.calls || !a.calls[pid].Putting? || jti in a.stored then None
      else
        var Putting(user, family) := a.calls[pid];
        Some(a.(calls := a.calls - {pid}, stored := a.stored + {jti},
                refresh := a.refresh[jti := Refresh(user, family, a.now + ttl)]))
    case Abandon(pid) => Some(a.(calls := a.calls - {pid}))
    case Revoke(jti) => Some(a.(refresh := a.refresh - {jti}, revoked := a.revoked + ({jti} * a.stored)))
    case RevokeAll(user) => Some(a.(bans := a.bans[user := a.now + accessTTL + MINUTE]))
    case AllowAgain(user) => Some(a.(bans := a.bans - {user}))
    case Tick(d) => Some(a.(now := a.now + d))
  }

  function History(accessTTL: int, a: Auth, es: seq<Event>): Option<Auth> {
    if es == [] then Some(a) else
    match History(accessTTL, a, es[..|es| - 1])
    case None => None
    case Some(b) => Occurs(accessTTL, b, es[|es| - 1])
  }

  predicate Fresh(a: Auth) {
    a.refresh == map[] && a.calls == map[] && a.minted == {} && a.families == {} && a.stored == {}
    && a.redeemed == [] && a.revoked == {}
  }

  /******* Refresh tokens *******/

  /** Redeemed and revoked tokens are out of the store, and only tokens once stored are ever in it. */
  predicate Spent(a: Auth) {
    && a.refresh.Keys <= a.stored
    && (forall j | j in a.redeemed :: j in a.stored && j !in a.refresh)
    && (forall j | j in a.revoked :: j in a.stored && j !in a.refresh)
    && forall i, k | 0 <= i < k < |a.redeemed| :: a.redeemed[i] != a.redeemed[k]
  }

  predicate InFamily(a: Auth, family: string, holder: Holder) {
    match holder
    case Token(jti) => jti in a.refresh && a.refresh[jti].family == family
    case Rotating(pid) => pid in a.calls && a.calls[pid].family == family
  }

  /** Who can speak for a family: a stored token, or a call that will store the next one. */
  datatype Holder = Token(jti: string) | Rotating(pid: nat)

  ghost predicate OneHolder(a: Auth) {
    forall f, h, g | InFamily(a, f, h) && InFamily(a, f, g) :: h == g
  }

  ghost predicate FamiliesKnown(a: Auth) {
    forall f, h | InFamily(a, f, h) :: f in a.families
  }

  ghost predicate RefreshInv(a: Auth) {
    Spent(a) && OneHolder(a) && FamiliesKnown(a)
  }

  lemma EventKeepsSpent(accessTTL: int, a: Auth, e: Event)
    requires Spent(a) && Occurs(accessTTL, a, e).Some?
    ensures Spent(Occurs(accessTTL, a, e).value)
  {
  }

  /** A holder after the event stands where one stood before, unless a login has just started its family. */
  function Before(e: Event, h: Holder): Holder {
    match e
    case Consume(pid, jti) => if h == Rotating(pid) then Token(jti) else h
    case Put(pid, jti, _) => if h == Token(jti) then Rotating(pid) else h
    case _ => h
  }

  lemma HolderBefore(accessTTL: int, a: Auth, e: Event, f: string, h: Holder)
    requires Spent(a) && Occurs(accessTTL, a, e).Some? && InFamily(Occurs(accessTTL, a, e).value, f, h)
    ensures e.Issue? && h == Rotating(e.pid) ==> f == e.family && f !in a.families
    ensures !(e.Issue? && h == Rotating(e.pid)) ==> InFamily(a, f, Before(e, h))
  {
  }

  lemma HoldersStayApart(accessTTL: int, a: Auth, e: Event, f: string, h: Holder, g: Holder)
    requires Spent(a) && Occurs(accessTTL, a, e).Some? && Before(e, h) == Before(e, g)
    requires InFamily(Occurs(accessTTL, a, e).value, f, h) && InFamily(Occurs(accessTTL, a, e).value, f, g)
    ensures h == g
  {
  }

  lemma EventKeepsRefreshInv(accessTTL: int, a: Auth, e: Event)
    requires RefreshInv(a) && Occurs(accessTTL, a, e).Some?
    ensures RefreshInv(Occurs(accessTTL, a, e).value)
  {
    var b := Occurs(accessTTL, a, e).value;
    EventKeepsSpent(accessTTL, a, e);
    forall f, h | InFamily(b, f, h) ensures f in b.families {
      HolderBefore(accessTTL, a, e, f, h);
    }
    forall f, h, g | InFamily(b, f, h) && InFamily(b, f, g) ensures h == g {
      HolderBefore(accessTTL, a, e, f, h);
      HolderBefore(accessTTL, a, e, f, g);
      if !(e.Issue? && (h == Rotating(e.pid) || g == Rotating(e.pid))) {
        HoldersStayApart(accessTTL, a, e, f, h, g);
      }
    }
  }

  lemma {:induction false} HistoryKeepsRefreshInv(accessTTL: int, a: Auth, es: seq<Event>)
    requires RefreshInv(a) && History(accessTTL, a, es).Some?
    ensures RefreshInv(History(accessTTL, a, es).value)
  {
    if es != [] {
      HistoryKeepsRefreshInv(accessTTL, a, es[..|es| - 1]);
      EventKeepsRefreshInv(accessTTL, History(accessTTL, a, es[..|es| - 1]).value, es[|es| - 1]);
    }
  }

  /** Over any interleaving a refresh token is redeemed at most once, a redeemed or revoked one is never live
      again, and a family never has two tokens, two rotations under way, or one of each. */
  lemma RefreshTokensAreSingleUse(accessTTL: int, a0: Auth, es: seq<Event>)
    requires Fresh(a0) && History(accessTTL, a0, es).Some?
    ensures var a := History(accessTTL, a0, es).value;
            && (forall i, k | 0 <= i < k < |a.redeemed| :: a.redeemed[i] != a.redeemed[k])
            && (forall j | j in a.redeemed || j in a.revoked :: LiveRefresh(a.refresh, a.now, j) == None)
            && (forall f, h, g | InFamily(a, f, h) && InFamily(a, f, g) :: h == g)
  {
    HistoryKeepsRefreshInv(accessTTL, a0, es);
  }

  /******* What is signed *******/

  /** The token was signed by a call of its user's, with the flag and at the time it carries. */
  ghost predicate SignedInState(accessTTL: int, a: Auth, e: Event, m: Minted) {
    && e.Sign? && e.isAdmin == m.token.isAdmin && e.pid in a.calls && a.calls[e.pid].Ready?
    && a.calls[e.pid].user == m.token.user && a.calls[e.pid].source == m.source && a.now == m.mintedAt
    && Says(m.token, m.token.user, e.isAdmin, a.now, accessTTL)
  }

  lemma NewlyMinted(accessTTL: int, a: Auth, e: Event, m: Minted)
    requires Occurs(accessTTL, a, e).Some? && m in Occurs(accessTTL, a, e).value.minted && m !in a.minted
    ensures SignedInState(accessTTL, a, e, m)
  {
  }

  /** Over any history, every access token was signed in it, by a call of its user's, and carries exactly the admin flag
      and the times of that signature. */
  lemma {:induction false} MintedBySigning(accessTTL: int, a0: Auth, es: seq<Event>, m: Minted) returns (i: nat)
    requires Fresh(a0) && History(accessTTL, a0, es).Some? && m in History(accessTTL, a0, es).value.minted
    ensures i < |es| && History(accessTTL, a0, es[..i]).Some?
    ensures SignedInState(accessTTL, History(accessTTL, a0, es[..i]).value, es[i], m)
  {
    assert es != [];
    var before := es[..|es| - 1];
    var a := History(accessTTL, a0, before).value;
    if m in a.minted {
      i := MintedBySigning(accessTTL, a0, before, m);
      assert before[..i] == es[..i];
    } else {
      i := |es| - 1;
      NewlyMinted(accessTTL, a, es[i], m);
    }
  }

  /** The commands of one rotation, run on end by a call of its own, do what Rotate does in one call. */
  lemma RotatesLikeTheCall(accessTTL: int, a: Auth, pid: nat, token: string, isAdmin: bool, jti: string, ttl: int)
    requires pid !in a.calls && jti !in a.stored
    requires token in a.refresh && a.now < a.refresh[token].expires
    requires var user := a.refresh[token].user; !(user in a.bans && a.now < a.bans[user])
    ensures var found := a.refresh[token];
            var b := History(accessTTL, a, [Consume(pid, token)] + [CheckBan(pid)] + [Sign(pid, isAdmin)] + [Put(pid, jti, ttl)]);
            && b.Some?
            && b.value.refresh == (a.refresh - {token})[jti := Refresh(found.user, found.family, a.now + ttl)]
            && b.value.calls == a.calls && b.value.bans == a.bans && b.value.now == a.now
            && exists m :: m in b.value.minted && b.value.minted == a.minted + {m}
                           && Says(m.token, found.user, isAdmin, a.now, accessTTL) && m.source == Rotation(a.now)
  {
    var found := a.refresh[token];
    var e1, e2, e3, e4 := Consume(pid, token), CheckBan(pid), Sign(pid, isAdmin), Put(pid, jti, ttl);
    var m := Minted(Signed(found.user, isAdmin, a.now, accessTTL), Rotation(a.now), a.now);
    var a1 := Occurs(accessTTL, a, e1).value;
    var a2 := Occurs(accessTTL, a1, e2).value;
    var a3 := Occurs(accessTTL, a2, e3).value;
    var a4 := Occurs(accessTTL, a3, e4).value;
    assert a4.calls == a.calls && a4.minted == a.minted + {m};
    assert Occurs(accessTTL, a1, e2).Some? && Occurs(accessTTL, a2, e3).Some? && Occurs(accessTTL, a3, e4).Some?;
    assert Says(m.token, found.user, isAdmin, a.now, accessTTL);
    assert History(accessTTL, a, []) == Some(a);
    hide History, Occurs, Says, Signed;
    Then(accessTTL, a, [], a, e1, [e1]);
    Then(accessTTL, a, [e1], a1, e2, [e1] + [e2]);
    Then(accessTTL, a, [e1] + [e2], a2, e3, [e1] + [e2] + [e3]);
    Then(accessTTL, a, [e1] + [e2] + [e3], a3, e4, [e1] + [e2] + [e3] + [e4]);
  }

  /** And when Rotate refuses, so do they: a token that is not live is gone and nothing else has happened; one of a banned
      user is gone, and the call ends without signing. */
  lemma RefusesLikeTheCall(accessTTL: int, a: Auth, pid: nat, token: string)
    requires pid !in a.calls
    ensures !(token in a.refresh && a.now < a.refresh[token].expires) ==>
              Occurs(accessTTL, a, Consume(pid, token)) == Some(a.(refresh := a.refresh - {token}))
    ensures token in a.refresh && a.now < a.refresh[token].expires ==>
              var user := a.refresh[token].user;
              user in a.bans && a.now < a.bans[user] ==>
                History(accessTTL, a, [Consume(pid, token)] + [CheckBan(pid)])
                == Some(a.(refresh := a.refresh - {token}, redeemed := a.redeemed + [token]))
  {
    if token in a.refresh && a.now < a.refresh[token].expires {
      var e1, e2 := Consume(pid, token), CheckBan(pid);
      var a1 := Occurs(accessTTL, a, e1).value;
      assert a1.calls - {pid} == a.calls;
      assert History(accessTTL, a, []) == Some(a);
      hide History;
      Then(accessTTL, a, [], a, e1, [e1]);
      Then(accessTTL, a, [e1], a1, e2, [e1] + [e2]);
    }
  }

  lemma {:induction false} OutStaysOut(accessTTL: int, a: Auth, es: seq<Event>, jti: string)
    requires jti in a.stored && jti !in a.refresh && History(accessTTL, a, es).Some?
    ensures jti in History(accessTTL, a, es).value.stored && jti !in History(accessTTL, a, es).value.refresh
  {
    if es != [] {
      OutStaysOut(accessTTL, a, es[..|es| - 1], jti);
    }
  }

  /** A token that is redeemed or revoked while it is in the store never comes back, whatever happens afterwards. */
  lemma TakenOutForGood(accessTTL: int, a0: Auth, before: seq<Event>, e: Event, jti: string, after: seq<Event>)
    requires Fresh(a0) && History(accessTTL, a0, before).Some? && jti in History(accessTTL, a0, before).value.refresh
    requires e == Revoke(jti) || (e.Consume? && e.jti == jti)
    requires var a := History(accessTTL, a0, before).value;
             Occurs(accessTTL, a, e).Some? && History(accessTTL, Occurs(accessTTL, a, e).value, after).Some?
    ensures var a := History(accessTTL, a0, before).value;
            var b := History(accessTTL, Occurs(accessTTL, a, e).value, after).value;
            jti !in b.refresh
  {
    HistoryKeepsRefreshInv(accessTTL, a0, before);
    OutStaysOut(accessTTL, Occurs(accessTTL, History(accessTTL, a0, before).value, e).value, after, jti);
  }

  lemma {:induction false} StaysUnbanned(accessTTL: int, a: Auth, es: seq<Event>, user: nat)
    requires user !in a.bans && RevokeAll(user) !in es && History(accessTTL, a, es).Some?
    ensures user !in History(accessTTL, a, es).value.bans
  {
    if es != [] {
      assert es[|es| - 1] in es;
      StaysUnbanned(accessTTL, a, es[..|es| - 1], user);
    }
  }

  /** AllowAgain ends the ban: until the next RevokeAll, the user's tokens verify whenever their times allow. */
  lemma AllowAgainEndsTheBan(accessTTL: int, a: Auth, user: nat, after: seq<Event>, x: Access)
    requires x.user == user && RevokeAll(user) !in after
    requires Occurs(accessTTL, a, AllowAgain(user)).Some?
    requires History(accessTTL, Occurs(accessTTL, a, AllowAgain(user)).value, after).Some?
    ensures var b := History(accessTTL, Occurs(accessTTL, a, AllowAgain(user)).value, after).value;
            Verifies(x, b.bans, b.now) <==> x.issuedAt <= b.now < x.expiresAt
  {
    StaysUnbanned(accessTTL, Occurs(accessTTL, a, AllowAgain(user)).value, after, user);
  }

  /******* Presenting a rotated token again *******/

  ghost predicate Speaks(a: Auth, family: string) {
    exists h :: InFamily(a, family, h)
  }

  /** Over any interleaving, presenting a token that has been redeemed is answered with an error and changes nothing: the
      family it belonged to speaks on exactly if it did. */
  lemma ReuseChangesNothing(accessTTL: int, a0: Auth, es: seq<Event>, pid: nat, jti: string)
    requires Fresh(a0) && History(accessTTL, a0, es).Some?
    requires var a := History(accessTTL, a0, es).value;
             jti in a.redeemed && pid !in a.calls
    ensures var a := History(accessTTL, a0, es).value;
            && LiveRefresh(a.refresh, a.now, jti) == None && Occurs(accessTTL, a, Consume(pid, jti)) == Some(a)
            && forall f :: Speaks(Occurs(accessTTL, a, Consume(pid, jti)).value, f) <==> Speaks(a, f)
  {
    HistoryKeepsRefreshInv(accessTTL, a0, es);
    var a := History(accessTTL, a0, es).value;
    assert a.refresh - {jti} == a.refresh;
  }

  /** One more event at the end of a history. */
  lemma Then(accessTTL: int, a: Auth, es: seq<Event>, b: Auth, e: Event, es': seq<Event>)
    requires History(accessTTL, a, es) == Some(b) && es' == es + [e]
    ensures History(accessTTL, a, es') == Occurs(accessTTL, b, e)
  {
    assert es'[..|es|] == es;
  }

  /** A store nothing has been done to yet. */
  function Start(now: int): Auth {
    Auth(now, map[], map[], map[], {}, {}, {}, [], {})
  }

  /** A login that ends with its first refresh token stored. */
  function Login1(user: nat): seq<Event> {
    [Issue(1, user, "family"), Sign(1, false), Put(1, "first", 1)]
  }

  function LoggedIn(accessTTL: int, now: int, user: nat): Auth {
    Auth(now, map["first" := Refresh(user, "family", now + 1)], map[], map[],
         {Minted(Signed(user, false, now, accessTTL), Login, now)}, {"family"}, {"first"}, [], {})
  }

  lemma LogsIn(accessTTL: int, now: int, user: nat)
    ensures History(accessTTL, Start(now), Login1(user)) == Some(LoggedIn(accessTTL, now, user))
  {
    var es, a0 := Login1(user), Start(now);
    assert History(accessTTL, a0, []) == Some(a0);
    Then(accessTTL, a0, [], a0, es[0], es[..1]);
    Then(accessTTL, a0, es[..1], Occurs(accessTTL, a0, es[0]).value, es[1], es[..2]);
    Then(accessTTL, a0, es[..2], History(accessTTL, a0, es[..2]).value, es[2], es);
    var a3 := History(accessTTL, a0, es).value;
    assert a3.calls == map[] && a3.refresh == LoggedIn(accessTTL, now, user).refresh;
    assert a3.minted == LoggedIn(accessTTL, now, user).minted && a3.families == {"family"} && a3.stored == {"first"};
  }

  /** The first token redeemed, the ban looked up, and not yet signed. */
  function Checked(user: nat): seq<Event> {
    Login1(user) + [Consume(2, "first")] + [CheckBan(2)]
  }

  function Rotating2(accessTTL: int, now: int, user: nat): Auth {
    LoggedIn(accessTTL, now, user).(
      refresh := map[], redeemed := ["first"], calls := map[2 := Ready(user, "family", Rotation(now))])
  }

  lemma StartsRotating(accessTTL: int, now: int, user: nat)
    ensures History(accessTTL, Start(now), Checked(user)) == Some(Rotating2(accessTTL, now, user))
  {
    LogsIn(accessTTL, now, user);
    var es, a0, a3 := Login1(user), Start(now), LoggedIn(accessTTL, now, user);
    Then(accessTTL, a0, es, a3, Consume(2, "first"), es + [Consume(2, "first")]);
    var a4 := Occurs(accessTTL, a3, Consume(2, "first")).value;
    Then(accessTTL, a0, es + [Consume(2, "first")], a4, CheckBan(2), Checked(user));
    assert a4.refresh == map[] && a4.calls == map[2 := Checking(user, "family")] && a4.redeemed == ["first"];
    assert Occurs(accessTTL, a4, CheckBan(2)).value.calls == Rotating2(accessTTL, now, user).calls;
  }

  /** A history in which a rotated token is presented again and its family still has a live token: reuse does not end
      the family. */
  lemma FamilyOutlivesReuse(accessTTL: int, now: int, user: nat)
    ensures Fresh(Start(now))
    ensures var es := Checked(user) + [Sign(2, false)] + [Put(2, "second", 1)] + [Consume(3, "first")];
            History(accessTTL, Start(now), es).Some?
            && var a := History(accessTTL, Start(now), es).value;
               "first" in a.redeemed && LiveRefresh(a.refresh, a.now, "second") == Some(Refresh(user, "family", now + 1))
  {
    StartsRotating(accessTTL, now, user);
    var es, a0, a5 := Checked(user), Start(now), Rotating2(accessTTL, now, user);
    Then(accessTTL, a0, es, a5, Sign(2, false), es + [Sign(2, false)]);
    var a6 := Occurs(accessTTL, a5, Sign(2, false)).value;
    Then(accessTTL, a0, es + [Sign(2, false)], a6, Put(2, "second", 1), es + [Sign(2, false)] + [Put(2, "second", 1)]);
    var a7 := Occurs(accessTTL, a6, Put(2, "second", 1)).value;
    Then(accessTTL, a0, es + [Sign(2, false)] + [Put(2, "second", 1)], a7, Consume(3, "first"),
         es + [Sign(2, false)] + [Put(2, "second", 1)] + [Consume(3, "first")]);
  }

  /******* Revoking everything *******/

  predicate Fits(accessTTL: int, now: int, m: Minted) {
    && m.token == Signed(m.token.user, m.token.isAdmin, m.mintedAt, accessTTL) && m.mintedAt <= now
    && (m.source.Rotation? ==> m.source.checkedAt <= m.mintedAt)
  }

  predicate TimesRight(accessTTL: int, a: Auth) {
    && (forall m | m in a.minted :: Fits(accessTTL, a.now, m))
    && forall pid | pid in a.calls && a.calls[pid].Ready? && a.calls[pid].source.Rotation? ::
         a.calls[pid].source.checkedAt <= a.now
  }

  lemma EventKeepsTimes(accessTTL: int, a: Auth, e: Event)
    requires TimesRight(accessTTL, a) && Occurs(accessTTL, a, e).Some?
    ensures TimesRight(accessTTL, Occurs(accessTTL, a, e).value)
  {
  }

  lemma {:induction false} HistoryKeepsTimes(accessTTL: int, a: Auth, es: seq<Event>)
    requires TimesRight(accessTTL, a) && History(accessTTL, a, es).Some?
    ensures TimesRight(accessTTL, History(accessTTL, a, es).value)
  {
    if es != [] {
      HistoryKeepsTimes(accessTTL, a, es[..|es| - 1]);
      EventKeepsTimes(accessTTL, History(accessTTL, a, es[..|es| - 1]).value, es[|es| - 1]);
    }
  }

  /** A rotation of the user's was checked before the ban at t, or after it ran out. */
  predicate Outside(accessTTL: int, t: int, source: Source) {
    source.Rotation? ==> source.checkedAt <= t || source.checkedAt >= t + accessTTL + MINUTE
  }

  predicate BannedSince(accessTTL: int, a: Auth, user: nat, t: int) {
    && t <= a.now && user in a.bans && a.bans[user] >= t + accessTTL + MINUTE
    && (forall m | m in a.minted && m.token.user == user :: Outside(accessTTL, t, m.source))
    && forall pid | pid in a.calls && a.calls[pid].Ready? && a.calls[pid].user == user ::
         Outside(accessTTL, t, a.calls[pid].source)
  }

  lemma EventKeepsBan(accessTTL: int, a: Auth, e: Event, user: nat, t: int)
    requires BannedSince(accessTTL, a, user, t) && e != AllowAgain(user) && Occurs(accessTTL, a, e).Some?
    ensures BannedSince(accessTTL, Occurs(accessTTL, a, e).value, user, t)
  {
  }

  lemma {:induction false} HistoryKeepsBan(accessTTL: int, a: Auth, es: seq<Event>, user: nat, t: int)
    requires BannedSince(accessTTL, a, user, t) && AllowAgain(user) !in es && History(accessTTL, a, es).Some?
    ensures BannedSince(accessTTL, History(accessTTL, a, es).value, user, t)
  {
    if es != [] {
      HistoryKeepsBan(accessTTL, a, es[..|es| - 1], user, t);
      EventKeepsBan(accessTTL, History(accessTTL, a, es[..|es| - 1]).value, es[|es| - 1], user, t);
    }
  }

  /** After RevokeAll at time t, as long as nobody lifts the ban: an access token of the user that verifies at any
      later moment was signed more than a minute after t. If it came from a rotation that took at most a minute
      from its ban check to its signature, that check was made after the ban had run out. */
  lemma RevocationHolds(accessTTL: int, a0: Auth, before: seq<Event>, user: nat, after: seq<Event>, m: Minted)
    requires Fresh(a0) && History(accessTTL, a0, before).Some? && AllowAgain(user) !in after
    requires var a1 := Occurs(accessTTL, History(accessTTL, a0, before).value, RevokeAll(user)).value;
             History(accessTTL, a1, after).Some?
             && var a := History(accessTTL, a1, after).value;
                m in a.minted && m.token.user == user && Verifies(m.token, a.bans, a.now)
    ensures var t := History(accessTTL, a0, before).value.now;
            && m.mintedAt > t + MINUTE && NumericDate(m.mintedAt + accessTTL) > t + accessTTL + MINUTE
            && NumericDate(m.mintedAt + accessTTL) > NumericDate(m.mintedAt)
            && (m.source.Rotation? && m.mintedAt - m.source.checkedAt <= MINUTE ==>
                  m.source.checkedAt >= t + accessTTL + MINUTE)
  {
    var a := History(accessTTL, a0, before).value;
    HistoryKeepsTimes(accessTTL, a0, before);
    var a1 := Occurs(accessTTL, a, RevokeAll(user)).value;
    assert TimesRight(accessTTL, a1);
    assert BannedSince(accessTTL, a1, user, a.now) by { PastIsOutside(accessTTL, a1, user, a.now); }
    HistoryKeepsTimes(accessTTL, a1, after);
    HistoryKeepsBan(accessTTL, a1, after, user, a.now);
    assert Fits(accessTTL, History(accessTTL, a1, after).value.now, m);
  }

  lemma PastIsOutside(accessTTL: int, a: Auth, user: nat, t: int)
    requires TimesRight(accessTTL, a) && a.now == t && user in a.bans && a.bans[user] >= t + accessTTL + MINUTE
    ensures BannedSince(accessTTL, a, user, t)
  {
    forall m | m in a.minted && m.token.user == user ensures Outside(accessTTL, t, m.source) {
      assert Fits(accessTTL, a.now, m);
    }
  }

  /** In this history a token of the user's, signed at i after a ban check no later than t, verifies although everything
      was revoked at t and nobody lifted the ban. */
  ghost predicate Outlives(
    accessTTL: int, user: nat, t: int, i: int, a0: Auth, before: seq<Event>, after: seq<Event>, m: Minted)
  {
    && Fresh(a0) && AllowAgain(user) !in after && History(accessTTL, a0, before).Some?
    && History(accessTTL, a0, before).value.now == t
    && m.token.user == user && m.mintedAt == i && m.source.Rotation? && m.source.checkedAt <= t
    && var a1 := Occurs(accessTTL, History(accessTTL, a0, before).value, RevokeAll(user)).value;
       && History(accessTTL, a1, after).Some?
       && var a := History(accessTTL, a1, after).value;
          m in a.minted && Verifies(m.token, a.bans, a.now)
  }

  ghost predicate SomeRotationOutlives(accessTTL: int, user: nat, t: int, i: int) {
    exists a0, before, after, m :: Outlives(accessTTL, user, t, i, a0, before, after, m)
  }

  /** The edge of that minute, exactly: a rotation checked before everything was revoked at t and signed at i yields, in
      some history, a token that is accepted afterwards, if and only if its whole-second expiry lies beyond the ban's
      and beyond its own start. */
  lemma EdgeOfTheBan(accessTTL: int, user: nat, t: int, i: int)
    requires accessTTL > 0
    ensures SomeRotationOutlives(accessTTL, user, t, i) <==>
            NumericDate(i + accessTTL) > t + accessTTL + MINUTE && NumericDate(i + accessTTL) > NumericDate(i)
  {
    if SomeRotationOutlives(accessTTL, user, t, i) {
      var a0, before, after, m :| Outlives(accessTTL, user, t, i, a0, before, after, m);
      RevocationHolds(accessTTL, a0, before, user, after, m);
    }
    if NumericDate(i + accessTTL) > t + accessTTL + MINUTE && NumericDate(i + accessTTL) > NumericDate(i) {
      SlowRotation(accessTTL, user, t, i);
    }
  }

  lemma SlowRotation(accessTTL: int, user: nat, t: int, i: int)
    requires accessTTL > 0
    requires NumericDate(i + accessTTL) > t + accessTTL + MINUTE && NumericDate(i + accessTTL) > NumericDate(i)
    ensures SomeRotationOutlives(accessTTL, user, t, i)
  {
    var late := if i > t + accessTTL + MINUTE then i else t + accessTTL + MINUTE;
    var after: seq<Event> := [Tick(i - t)] + [Sign(2, false)] + [Tick(late - i)];
    var m := Minted(Signed(user, false, i, accessTTL), Rotation(t), i);
    assert Rotating2(accessTTL, t, user).now == t;
    LateTokenVerifies(accessTTL, user, t, i, late);
    hide *;
    StartsRotating(accessTTL, t, user);
    FreshStart(t);
    SignsLate(accessTTL, user, t, i, late);
    ThatOutlives(accessTTL, user, t, i, Start(t), Checked(user), after, m, SignedLate(accessTTL, user, t, i, late));
  }

  lemma FreshStart(t: int)
    ensures Fresh(Start(t))
  {
  }

  lemma ThatOutlives(
    accessTTL: int, user: nat, t: int, i: int, a0: Auth, before: seq<Event>, after: seq<Event>, m: Minted, a: Auth)
    requires Fresh(a0) && AllowAgain(user) !in after && History(accessTTL, a0, before).Some?
    requires History(accessTTL, a0, before).value.now == t
    requires m.token.user == user && m.mintedAt == i && m.source == Rotation(t)
    requires History(accessTTL, Occurs(accessTTL, History(accessTTL, a0, before).value, RevokeAll(user)).value, after) == Some(a)
    requires m in a.minted && Verifies(m.token, a.bans, a.now)
    ensures SomeRotationOutlives(accessTTL, user, t, i)
  {
    hide Fresh, History, Occurs, Verifies;
    assert Outlives(accessTTL, user, t, i, a0, before, after, m);
  }

  lemma LateTokenVerifies(accessTTL: int, user: nat, t: int, i: int, late: int)
    requires NumericDate(i + accessTTL) > t + accessTTL + MINUTE && NumericDate(i + accessTTL) > NumericDate(i)
    requires late == if i > t + accessTTL + MINUTE then i else t + accessTTL + MINUTE
    ensures var m, a := Minted(Signed(user, false, i, accessTTL), Rotation(t), i), SignedLate(accessTTL, user, t, i, late);
            m.token.user == user && m in a.minted && Verifies(m.token, a.bans, a.now)
    ensures accessTTL > 0 ==> t <= i <= late
  {
    LaterSecond(i, i + accessTTL);
    hide NumericDate;
  }

  /** A later whole second lies after the whole of an earlier one. */
  lemma LaterSecond(x: int, y: int)
    requires NumericDate(y) > NumericDate(x)
    ensures NumericDate(x) <= x < NumericDate(y) <= y
  {
    assert NumericDate(x) == x / SECOND * SECOND && NumericDate(y) == y / SECOND * SECOND;
    assert y / SECOND > x / SECOND;
  }

  /** The state once that rotation has signed, and time has gone on. */
  function SignedLate(accessTTL: int, user: nat, t: int, i: int, late: int): Auth {
    Rotating2(accessTTL, t, user).(
      now := late, bans := map[user := t + accessTTL + MINUTE], calls := map[2 := Putting(user, "family")],
      minted := Rotating2(accessTTL, t, user).minted + {Minted(Signed(user, false, i, accessTTL), Rotation(t), i)})
  }

  lemma SignsLate(accessTTL: int, user: nat, t: int, i: int, late: int)
    requires t <= i <= late
    ensures var a1 := Occurs(accessTTL, Rotating2(accessTTL, t, user), RevokeAll(user)).value;
            History(accessTTL, a1, [Tick(i - t)] + [Sign(2, false)] + [Tick(late - i)]) ==
            Some(SignedLate(accessTTL, user, t, i, late))
  {
    var a1 := Occurs(accessTTL, Rotating2(accessTTL, t, user), RevokeAll(user)).value;
    var a2, a3 := a1.(now := i), SignedLate(accessTTL, user, t, i, i);
    var e1, e2, e3 := Tick(i - t), Sign(2, false), Tick(late - i);
    assert a2.bans == a3.bans && a2.calls[2 := Putting(user, "family")] == a3.calls;
    assert Occurs(accessTTL, a1, e1) == Some(a2);
    assert Occurs(accessTTL, a2, e2) == Some(a3);
    assert Occurs(accessTTL, a3, e3) == Some(SignedLate(accessTTL, user, t, i, late));
    assert History(accessTTL, a1, []) == Some(a1);
    hide *;
    Then(accessTTL, a1, [], a1, e1, [e1]);
    Then(accessTTL, a1, [e1], a2, e2, [e1] + [e2]);
    Then(accessTTL, a1, [e1] + [e2], a3, e3, [e1] + [e2] + [e3]);
  }

  /** For instance: with tokens of 15 minutes, a rotation that is revoked between its ban check and its signature two
      minutes later. */
  lemma TwoMinuteRotationOutlivesBan(user: nat)
    ensures SomeRotationOutlives(15 * MINUTE, user, 0, 2 * MINUTE)
  {
    EdgeOfTheBan(15 * MINUTE, user, 0, 2 * MINUTE);
  }
}
