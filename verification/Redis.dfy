/** The keys this program keeps in Redis (internal/rds/rds.go), one field for each key prefix. Every command is
    atomic and sees only keys whose time has not come. */
module Redis {
  import opened Basics

  datatype Refresh = Refresh(user: nat, family: string, expires: int)

  /** A rate counter; a key INCR has just created has no expiry until EXPIRE NX gives it one. */
  datatype Counter = Counter(hits: nat, expires: int)

  datatype Response = Response(body: string, expires: int)

  function LiveRefresh(refresh: map<string, Refresh>, now: int, jti: string): Option<Refresh> {
    if jti in refresh && now < refresh[jti].expires then Some(refresh[jti]) else None
  }

  predicate Banned(bans: map<nat, int>, now: int, user: nat) {
    user in bans && now < bans[user]
  }

  function LiveCounter(counters: map<string, Counter>, now: int, key: string): Option<Counter> {
    if key in counters && now < counters[key].expires then Some(counters[key]) else None
  }

  /** One hit on a fixed-window counter: INCR, then EXPIRE NX. */
  function Hit(counter: Option<Counter>, now: int, window: int): Counter {
    match counter
    case None => Counter(1, now + window)
    case Some(k) => Counter(k.hits + 1, k.expires)
  }

  predicate Admits(counter: Counter, limit: int) {
    counter.hits == 1 || counter.hits <= limit
  }

  /** What one call of the limiter does to its key, entry by entry, and whether it admits. */
  predicate OneHit(
    before: map<string, Counter>, now: int, key: string, limit: int, window: int, after: map<string, Counter>, ok: bool)
  {
    && key in after && after == before[key := after[key]]
    && (if key in before && now < before[key].expires
        then after[key] == Counter(before[key].hits + 1, before[key].expires)
        else after[key] == Counter(1, now + window))
    && (ok <==> after[key].hits == 1 || after[key].hits <= limit)
  }

  class Client {
    var now: int
    var refresh: map<string, Refresh>        // rt:
    var bans: map<nat, int>                  // uban:
    var counters: map<string, Counter>       // rl:
    var responses: map<string, Response>     // idem:

    /******* Refresh tokens *******/

    method PutRefresh(jti: string, user: nat, family: string, ttl: int)
      modifies this`refresh
      ensures refresh == old(refresh)[jti := Refresh(user, family, now + ttl)]
    {
      refresh := refresh[jti := Refresh(user, family, now + ttl)];
    }

    method DelRefresh(jti: string)
      modifies this`refresh
      ensures refresh == old(refresh) - {jti}
    {
      refresh := refresh - {jti};
    }

    /** GETDEL: whoever reads the token has removed it. */
    method ConsumeRefresh(jti: string) returns (found: Option<Refresh>)
      modifies this`refresh
      ensures found.Some? <==> jti in old(refresh) && now < old(refresh)[jti].expires
      ensures found.Some? ==> found.value == old(refresh)[jti]
      ensures found == LiveRefresh(old(refresh), now, jti)
      ensures refresh == old(refresh) - {jti} && LiveRefresh(refresh, now, jti) == None
    {
      found := LiveRefresh(refresh, now, jti);
      refresh := refresh - {jti};
    }

    /******* Bans *******/

    method BanUser(user: nat, ttl: int)
      modifies this`bans
      ensures bans == old(bans)[user := now + ttl]
    {
      bans := bans[user := now + ttl];
    }

    method IsBanned(user: nat) returns (banned: bool)
      ensures banned <==> user in bans && now < bans[user]
    {
      banned := user in bans && now < bans[user];
    }

    method UnbanUser(user: nat)
      modifies this`bans
      ensures bans == old(bans) - {user}
    {
      bans := bans - {user};
    }

    /******* Rate limiting *******/

    /** The expiry is set on the first hit only; a refused hit never moves it, and it says how long to wait. That answer
        takes a second command, `elapsed` later: when it fails, or finds the key gone, the wait is a whole window. */
    method Allow(key: string, limit: int, window: int, elapsed: nat, answered: bool) returns (ok: bool, retryAfter: int)
      requires window > 0
      modifies this`counters, this`now
      ensures OneHit(old(counters), old(now), key, limit, window, counters, ok)
      ensures counters == old(counters)[key := Hit(LiveCounter(old(counters), old(now), key), old(now), window)]
      ensures ok <==> Admits(counters[key], limit)
      ensures ok ==> now == old(now) && retryAfter == 0
      ensures !ok ==>
                && now == old(now) + elapsed && retryAfter > 0
                && retryAfter == if answered && now < counters[key].expires then counters[key].expires - now else window
    {
      var hits, expires := 1, now + window;
      if key in counters && now < counters[key].expires {
        hits, expires := counters[key].hits + 1, counters[key].expires;
      }
      counters := counters[key := Counter(hits, expires)];
      if hits == 1 {
        return true, 0;
      }
      if hits > limit {
        now := now + elapsed;
        return false, if answered && now < expires then expires - now else window;
      }
      return true, 0;
    }

    /******* Idempotency *******/

    /** SETNX, and on a loss a GET, `elapsed` later: an empty answer means the winner has not stored its response yet, or
        that the key has expired in between. */
    method Claim(key: string, ttl: int, elapsed: nat) returns (won: bool, prior: string)
      modifies this`responses, this`now
      ensures won <==> !(key in old(responses) && old(now) < old(responses)[key].expires)
      ensures won ==> now == old(now) && responses == old(responses)[key := Response("", now + ttl)] && prior == ""
      ensures !won ==> now == old(now) + elapsed && responses == old(responses)
      ensures !won ==> prior == if now < responses[key].expires then responses[key].body else ""
    {
      if key !in responses || now >= responses[key].expires {
        responses := responses[key := Response("", now + ttl)];
        return true, "";
      }
      now := now + elapsed;
      if now >= responses[key].expires {
        return false, "";
      }
      return false, responses[key].body;
    }

    method Store(key: string, body: string, ttl: int)
      modifies this`responses
      ensures responses == old(responses)[key := Response(body, now + ttl)]
    {
      responses := responses[key := Response(body, now + ttl)];
    }

    method Release(key: string)
      modifies this`responses
      ensures responses == old(responses) - {key}
    {
      responses := responses - {key};
    }
  }
}
