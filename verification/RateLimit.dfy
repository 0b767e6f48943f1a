/** Fixed-window rate limiting and brute-force lockout over Redis counters. */
module RateLimit {
  import opened Base
  import opened Stores

  /** The key suffix a failure is counted under. */
  function Scoped(identifier: string, ip: Option<string>): string {
    if ip.Some? && ip.value != "" then Lower(identifier) + ":" + ip.value else Lower(identifier)
  }

  function HitCmds<T>(redis: Cache, now: int, bucket: string, window: int): seq<Command<T>> {
    [Incr(RateLimit(bucket))]
    + if Counter(redis, RateLimit(bucket), now) == 0 then [Expire(RateLimit(bucket), window)] else []
  }

  /** Redis faults deny the request: the limiter fails closed. */
  function HitEnding(redis: Cache, now: int, bucket: string, limit: int, budget: nat): Attempt<()> {
    if budget < |HitCmds<()>(redis, now, bucket, 0)| then Raised(ServiceUnavailable)
    else if limit < Counter(redis, RateLimit(bucket), now) + 1 then Raised(RateLimited)
    else Ok(())
  }

  function FailureCmds<T>(cfg: Config, redis: Cache, now: int, scope: string): seq<Command<T>> {
    var count := Counter(redis, FailCount(scope), now) + 1;
    [Incr(FailCount(scope))]
    + (if count == 1 then [Expire(FailCount(scope), cfg.lockoutSeconds)] else [])
    + (if cfg.maxFailedLogins <= count
       then [Set(Lockout(scope), Mark, cfg.lockoutSeconds), Delete(FailCount(scope))] else [])
  }

  function ClearCmds<T>(scope: string): seq<Command<T>> {
    [Delete(FailCount(scope)), Delete(Lockout(scope))]
  }

  class RateLimiter<T> {
    const cfg: Config
    const conn: Connection<T>

    constructor (cfg: Config, conn: Connection<T>)
      ensures this.cfg == cfg && this.conn == conn
    {
      this.cfg := cfg;
      this.conn := conn;
    }

    method Hit(bucket: string, limit: int, window: int, now: int) returns (r: Attempt<()>)
      modifies conn
      ensures conn.Did(old(conn.Snapshot()), old(conn.budget), now, HitCmds(old(conn.redis), now, bucket, window))
      ensures r == HitEnding(old(conn.redis), now, bucket, limit, old(conn.budget))
    {
      hide Reach;
      ghost var s0, b0 := conn.Snapshot(), conn.budget;
      ghost var incr: seq<Command<T>> := [Incr(RateLimit(bucket))];
      ghost var expire: seq<Command<T>> :=
        if Counter(conn.redis, RateLimit(bucket), now) == 0 then [Expire(RateLimit(bucket), window)] else [];
      ReachConcat(s0, b0, now, incr, expire);
      assert HitCmds(conn.redis, now, bucket, window) == incr + expire;
      assert incr + [] == incr;
      var count := conn.RedisIncr(RateLimit(bucket), now);
      if count.Raised? {
        return Raised(ServiceUnavailable);
      }
      if count.value == 1 {
        var expiring := conn.RedisExpire(RateLimit(bucket), window, now);
        if expiring.Raised? {
          return Raised(ServiceUnavailable);
        }
      }
      if limit < count.value {
        return Raised(RateLimited);
      }
      return Ok(());
    }

    /** Fails closed as well: without an answer from Redis nobody gets in. */
    method EnsureNotLocked(identifier: string, ip: Option<string>, now: int) returns (r: Attempt<()>)
      modifies conn
      ensures conn.Did(old(conn.Snapshot()), old(conn.budget), now, [Exists(Lockout(Scoped(identifier, ip)))])
      ensures r.Ok? ==> conn.Snapshot() == old(conn.Snapshot())
      ensures r == if old(conn.budget) == 0 then Raised(ServiceUnavailable)
                   else if Live(old(conn.redis), Lockout(Scoped(identifier, ip)), now) then Raised(AccountLocked)
                   else Ok(())
    {
      var locked := conn.RedisExists(Lockout(Scoped(identifier, ip)), now);
      if locked.Raised? {
        return Raised(ServiceUnavailable);
      }
      if locked.value {
        return Raised(AccountLocked);
      }
      return Ok(());
    }

    /** Count a failure; a Redis fault ends it silently, wherever it strikes. */
    method RecordFailure(identifier: string, ip: Option<string>, now: int)
      modifies conn
      ensures conn.Did(old(conn.Snapshot()), old(conn.budget), now,
                       FailureCmds(cfg, old(conn.redis), now, Scoped(identifier, ip)))
    {
      hide Reach;
      var key := FailCount(Scoped(identifier, ip));
      ghost var s0, b0 := conn.Snapshot(), conn.budget;
      ghost var incr: seq<Command<T>> := [Incr(key)];
      ghost var expire: seq<Command<T>> := if Counter(conn.redis, key, now) == 0
          then [Expire(key, cfg.lockoutSeconds)] else [];
      ghost var lock: seq<Command<T>> := [Set(Lockout(Scoped(identifier, ip)), Mark, cfg.lockoutSeconds)];
      ghost var forget: seq<Command<T>> := [Delete(key)];
      ReachConcat(s0, b0, now, incr, expire);
      ReachConcat(s0, b0, now, incr + expire, lock);
      ReachConcat(s0, b0, now, incr + expire + lock, forget);
      assert FailureCmds(cfg, conn.redis, now, Scoped(identifier, ip))
          == if cfg.maxFailedLogins <= Counter(conn.redis, key, now) + 1 then incr + expire + lock + forget
              else incr + expire;
      assert incr + [] == incr;
      var count := conn.RedisIncr(key, now);
      if count.Raised? {
        return;
      }
      if count.value == 1 {
        var expiring := conn.RedisExpire(key, cfg.lockoutSeconds, now);
        if expiring.Raised? {
          return;
        }
      }
      assert conn.Did(s0, b0, now, incr + expire);
      if cfg.maxFailedLogins <= count.value {
        var locking := conn.RedisSet(Lockout(Scoped(identifier, ip)), Mark, cfg.lockoutSeconds, now);
        if locking.Raised? {
          return;
        }
        assert conn.Did(s0, b0, now, incr + expire + lock);
        var _ := conn.RedisDelete(key, now);
      }
    }

    method ClearFailures(identifier: string, ip: Option<string>, now: int)
      modifies conn
      ensures conn.Did(old(conn.Snapshot()), old(conn.budget), now, ClearCmds(Scoped(identifier, ip)))
    {
      hide Reach;
      var scope := Scoped(identifier, ip);
      ghost var count: seq<Command<T>> := [Delete(FailCount(scope))];
      ghost var lock: seq<Command<T>> := [Delete(Lockout(scope))];
      ReachConcat(conn.Snapshot(), conn.budget, now, count, lock);
      assert ClearCmds(scope) == count + lock;
      var forgotten := conn.RedisDelete(FailCount(scope), now);
      if forgotten.Raised? {
        return;
      }
      var _ := conn.RedisDelete(Lockout(scope), now);
    }
  }
}
