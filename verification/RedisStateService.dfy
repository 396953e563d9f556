/**
 The gateway's Redis calls as they run undisturbed: INCR and EXPIRE with nothing in between.
 */
module RedisStateService {
  import opened RedisStore
  import opened GatewaySignal

  // INCR, and EXPIRE when the count is new.
  function WindowCall(st: Store, k: string, window: int, rid: nat, call: Call): (t: Store)
    requires Countable(st, k)
    ensures k in t.db && t.db[k].value == Num(NextCount(st, k))
  {
    var t := Incr(st, k, rid, call);
    if NextCount(st, k) == 1 then Expire(t, k, window) else t
  }

  // INCR, and always EXPIRE in fifteen minutes.
  function StreakCall(st: Store, k: string, rid: nat): (t: Store)
    requires Countable(st, k)
    ensures k in t.db && t.db[k].value == Num(NextCount(st, k))
  {
    Expire(Incr(st, k, rid, Streak), k, FIFTEEN_MINUTES)
  }

  // A reset starts the identity's streak afresh and touches nothing else.
  lemma ResetForgets(st: Store, identity: string, k: string)
    ensures var t := Delete(st, StreakKey(identity));
            && Countable(t, StreakKey(identity)) && NextCount(t, StreakKey(identity)) == 1
            && t.now == st.now && t.hits == st.hits
            && (k != "failstreak:" + identity ==> (k in t.db <==> k in st.db) && (k in t.db ==> t.db[k] == st.db[k]))
  {
  }

  class Service {
    const redis: Redis
    const properties: Config

    constructor (redis: Redis, properties: Config)
      ensures this.redis == redis && this.properties == properties
    {
      this.redis, this.properties := redis, properties;
    }

    method IsBlocked(clientIp: string) returns (blocked: bool)
      ensures blocked == Live(redis.View(), BlockKey(clientIp))
    {
      blocked := redis.HasKey(BlockKey(clientIp));
    }

    method BlockImmediately(clientIp: string, reason: string, id: nat)
      modifies redis
      ensures redis.View() == SetEx(old(redis.View()), BlockKey(clientIp), reason, properties.blocklistTtl * SECOND, id)
    {
      redis.Set(BlockKey(clientIp), reason, properties.blocklistTtl * SECOND, id);
    }

    method IncrementWindowCounter(clientIp: string, endpoint: string, window: int, rid: nat, call: Call)
      returns (count: int)
      requires Countable(redis.View(), WindowKey(properties.shared, clientIp, endpoint, call))
      modifies redis
      ensures var k := WindowKey(properties.shared, clientIp, endpoint, call);
              && redis.View() == WindowCall(old(redis.View()), k, window, rid, call)
              && count == NextCount(old(redis.View()), k)
    {
      var key := WindowKey(properties.shared, clientIp, endpoint, call);
      count := redis.Increment(key, rid, call);
      if count == 1 {
        redis.SetExpiry(key, window);
      }
    }

    method IncrementFailedAuthStreak(identityKey: string, rid: nat) returns (count: int)
      requires Countable(redis.View(), StreakKey(identityKey))
      modifies redis
      ensures redis.View() == StreakCall(old(redis.View()), StreakKey(identityKey), rid)
      ensures count == NextCount(old(redis.View()), StreakKey(identityKey))
    {
      var key := StreakKey(identityKey);
      count := redis.Increment(key, rid, Streak);
      redis.SetExpiry(key, FIFTEEN_MINUTES);
    }

    method ResetFailedAuthStreak(identityKey: string)
      modifies redis
      ensures redis.View() == Delete(old(redis.View()), StreakKey(identityKey))
    {
      redis.Remove(StreakKey(identityKey));
    }
  }
}
