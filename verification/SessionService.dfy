/** The token and session services and the routes built on them, step by step,
    over one request's connections. Each method is proved to issue exactly the
    commands of its plan, in order, to stop at the first one that fails, and to
    end as the plan says. */
module SessionService {
  import opened Base
  import opened Stores
  import opened SessionPlans

  class TokenService {
    const cfg: Config
    const conn: Connection<Rows>

    constructor (cfg: Config, conn: Connection<Rows>)
      ensures this.cfg == cfg && this.conn == conn
    {
      this.cfg := cfg;
      this.conn := conn;
    }

    method IsRevoked(jti: Uuid, now: int) returns (r: Attempt<bool>)
      modifies conn
      ensures conn.Did(old(conn.Snapshot()), old(conn.budget), now, [Exists(RevokedJti(jti))])
      ensures r == if old(conn.budget) == 0 then Raised(StoreDown) else Ok(Live(old(conn.redis), RevokedJti(jti), now))
    {
      r := conn.RedisExists(RevokedJti(jti), now);
    }

    /** Blacklist a token until its natural expiry. */
    method Revoke(tok: Token, now: int) returns (r: Attempt<()>)
      modifies conn
      ensures conn.Did(old(conn.Snapshot()), old(conn.budget), now, RevokeTokenCmds(tok, now))
      ensures r == Plan(RevokeTokenCmds(tok, now), Ok(())).Ending(old(conn.budget))
    {
      var ttl := tok.exp - now;
      if 0 < ttl {
        var _ :- conn.RedisSet(RevokedJti(tok.jti), Mark, ttl, now);
      }
      return Ok(());
    }

    /** Blacklist a refresh token of which only the id is known. */
    method RevokeJti(jti: Uuid, ttlSeconds: int, now: int) returns (r: Attempt<()>)
      modifies conn
      ensures conn.Did(old(conn.Snapshot()), old(conn.budget), now, RevokeJtiCmds(cfg, jti, ttlSeconds))
      ensures r == Plan(RevokeJtiCmds(cfg, jti, ttlSeconds), Ok(())).Ending(old(conn.budget))
    {
      var ttl := if ttlSeconds != 0 then ttlSeconds else cfg.RefreshSeconds(true);
      r := conn.RedisSet(RevokedJti(jti), Mark, ttl, now);
    }

    method VerifyRefresh(cookie: Option<Token>, now: int) returns (r: Attempt<Token>)
      modifies conn
      ensures var p := VerifyRefreshPlan(old(conn.redis), cookie, now);
              conn.Did(old(conn.Snapshot()), old(conn.budget), now, p.cmds) && r == p.Ending(old(conn.budget))
    {
      var tok :- Decode(cookie, Refresh, now);
      var revoked :- IsRevoked(tok.jti, now);
      if revoked {
        return Raised(TokenReplay);
      }
      return Ok(tok);
    }

    /** Validate a refresh token, blacklist it, and issue a new pair. */
    method Rotate(cookie: Option<Token>, mint: Mint, now: int) returns (r: Attempt<Pair>)
      modifies conn
      ensures var p := RotatePlan(cfg, old(conn.redis), cookie, mint, now);
              conn.Did(old(conn.Snapshot()), old(conn.budget), now, p.cmds) && r == p.Ending(old(conn.budget))
    {
      hide Reach;
      ghost var s0, b0 := conn.Snapshot(), conn.budget;
      ghost var verify := VerifyRefreshPlan(conn.redis, cookie, now);
      if verify.result.Ok? {
        ReachConcat(s0, b0, now, verify.cmds, RevokeTokenCmds(verify.result.value, now));
      }
      var tok :- VerifyRefresh(cookie, now);
      var _ :- Revoke(tok, now);
      return Ok(IssuePair(cfg, now, tok.user, tok.remember, tok.sid, mint));
    }
  }

  /** Revoking a row closes it in the transaction. */
  lemma RevokeWorking(cfg: Config, now: int, s: SessionState, sid: Uuid, reason: string)
    ensures ApplyAll(s, now, RevokeCmds(cfg, now, s.working, sid, reason)).working
         == CloseAll(s.working, now, [sid], reason)
  {
    if sid in s.working {
      var a: seq<SessionCommand> := RevokeJtiCmds(cfg, s.working[sid].jti, 0)
                                    + [Write(s.working[sid := Closed(s.working[sid], now, reason)])];
      var b := ClearCacheCmds(cfg, sid, true);
      ApplyConcat(s, now, a, b);
      ApplyTwo(s, now, a[0], a[1]);
      ClearCacheTables(cfg, now, ApplyAll(s, now, a), sid);
      assert RevokeCmds(cfg, now, s.working, sid, reason) == a + b;
    }
    assert ApplyAll(s, now, RevokeCmds(cfg, now, s.working, sid, reason)).working.Keys == s.working.Keys;
  }

  lemma ClearCacheTables(cfg: Config, now: int, s: SessionState, sid: Uuid)
    ensures ApplyAll(s, now, ClearCacheCmds(cfg, sid, true)).working == s.working
  {
    var a: seq<SessionCommand> := [Delete(SessionActive(sid)), Delete(SessionTouch(sid))];
    var b: seq<SessionCommand> := [Set(SessionRevoked(sid), Mark, cfg.AbsoluteSeconds())];
    ApplyConcat(s, now, a, b);
    ApplyTwo(s, now, a[0], a[1]);
  }

  class SessionManager {
    const cfg: Config
    const conn: Connection<Rows>
    const tokens: TokenService

    constructor (cfg: Config, conn: Connection<Rows>)
      ensures this.cfg == cfg && this.conn == conn && Valid()
    {
      this.cfg := cfg;
      this.conn := conn;
      tokens := new TokenService(cfg, conn);
    }

    ghost predicate Valid() {
      tokens.cfg == cfg && tokens.conn == conn
    }

    method ClearCache(sid: Uuid, revoke: bool, now: int) returns (r: Attempt<()>)
      modifies conn
      ensures conn.Did(old(conn.Snapshot()), old(conn.budget), now, ClearCacheCmds(cfg, sid, revoke))
      ensures r == Plan(ClearCacheCmds(cfg, sid, revoke), Ok(())).Ending(old(conn.budget))
    {
      hide Reach;
      ghost var s0, b0 := conn.Snapshot(), conn.budget;
      ghost var one: seq<SessionCommand> := [Delete(SessionActive(sid))];
      ghost var two: seq<SessionCommand> := [Delete(SessionTouch(sid))];
      ghost var three: seq<SessionCommand> :=
        if revoke then [Set(SessionRevoked(sid), Mark, cfg.AbsoluteSeconds())] else [];
      ReachConcat(s0, b0, now, one, two);
      ReachConcat(s0, b0, now, one + two, three);
      assert ClearCacheCmds(cfg, sid, revoke) == one + two + three;
      assert !revoke ==> one + two + three == one + two;
      var _ :- conn.RedisDelete(SessionActive(sid), now);
      var _ :- conn.RedisDelete(SessionTouch(sid), now);
      if revoke {
        var ttl := cfg.AbsoluteSeconds();
        var _ :- conn.RedisSet(SessionRevoked(sid), Mark, ttl, now);
      }
      return Ok(());
    }

    /** Insert the row of a new session. The result says whether the device is new. */
    method CreateSession(user: Uuid, sid: Uuid, jti: Uuid, remember: bool, device: Device, now: int)
      returns (r: Attempt<bool>)
      modifies conn
      ensures var p := CreatePlan(cfg, now, old(conn.working), user, sid, jti, remember, device);
              conn.Did(old(conn.Snapshot()), old(conn.budget), now, p.cmds) && r == p.Ending(old(conn.budget))
    {
      hide Reach;
      ghost var s0, b0 := conn.Snapshot(), conn.budget;
      ghost var rows0 := conn.working;
      ghost var sel: seq<SessionCommand> := if HasAny(rows0, user) then [Select, Select] else [Select];
      ghost var wr: SessionCommand := Write(rows0[sid := FreshRow(cfg, now, user, jti, remember, device)]);
      ReachConcat(s0, b0, now, [Select], [Select]);
      ReachConcat(s0, b0, now, sel, [wr]);
      ReachConcat(s0, b0, now, sel + [wr], [SetActive(cfg, sid)]);
      assert sel + [wr, SetActive(cfg, sid)] == sel + [wr] + [SetActive(cfg, sid)];
      assert HasAny(rows0, user) ==> [Select] + [Select] == sel;
      var rows :- conn.Query(now);
      var isNew := false;
      if HasAny(rows, user) {
        rows :- conn.Query(now);
        isNew := !HasDevice(rows, user, device);
      }
      var row := Row(user, jti, device, now, now, Expiry(cfg, remember, now), true, 0, None, None);
      var _ :- conn.Flush(rows[sid := row], now);
      var _ :- conn.RedisSet(SessionActive(sid), Mark, cfg.IdleSeconds(), now);
      return Ok(isNew);
    }

    /** Record activity, unless it was recorded within the throttle interval. */
    method Touch(sid: Uuid, now: int) returns (r: Attempt<()>)
      requires sid in conn.working
      modifies conn
      ensures var cmds := TouchCmds(cfg, now, old(conn.redis), old(conn.working), sid);
              conn.Did(old(conn.Snapshot()), old(conn.budget), now, cmds)
                  && r == Plan(cmds, Ok(())).Ending(old(conn.budget))
    {
      hide Reach;
      ghost var s0, b0 := conn.Snapshot(), conn.budget;
      ghost var ex: seq<SessionCommand> := [Exists(SessionTouch(sid))];
      ghost var wr: seq<SessionCommand> := [Write(Touched(conn.working, now, sid))];
      ghost var th: seq<SessionCommand> := [Set(SessionTouch(sid), Mark, cfg.throttleSeconds)];
      ReachConcat(s0, b0, now, ex, wr);
      ReachConcat(s0, b0, now, ex + wr, th);
      ReachConcat(s0, b0, now, ex + wr + th, [SetActive(cfg, sid)]);
      assert !Live(conn.redis, SessionTouch(sid), now) ==>
          TouchCmds(cfg, now, conn.redis, conn.working, sid) == ex + wr + th + [SetActive(cfg, sid)];
      var throttled :- conn.RedisExists(SessionTouch(sid), now);
      if throttled {
        return Ok(());
      }
      var row := conn.working[sid];
      row := row.(lastActivity := now, requests := row.requests + 1);
      var _ :- conn.Flush(conn.working[sid := row], now);
      var _ :- conn.RedisSet(SessionTouch(sid), Mark, cfg.throttleSeconds, now);
      var _ :- conn.RedisSet(SessionActive(sid), Mark, cfg.IdleSeconds(), now);
      return Ok(());
    }

    /** Close an expired session. It commits at once: the request is rejected
        right after this, and its rollback would discard the change. */
    method Expire(sid: Uuid, reason: string, now: int) returns (r: Attempt<()>)
      requires sid in conn.working
      modifies conn
      ensures var cmds := ExpireCmds(cfg, now, old(conn.working), sid, reason);
              conn.Did(old(conn.Snapshot()), old(conn.budget), now, cmds)
                  && r == Plan(cmds, Ok(())).Ending(old(conn.budget))
    {
      hide Reach, ClearCacheCmds;
      ghost var s0, b0 := conn.Snapshot(), conn.budget;
      ghost var wr: seq<SessionCommand> := [Write(conn.working[sid := Closed(conn.working[sid], now, reason)])];
      ghost var clear := ClearCacheCmds(cfg, sid, true);
      ghost var commit: seq<SessionCommand> := [Commit];
      assert ExpireCmds(cfg, now, conn.working, sid, reason) == wr + commit + clear;
      ReachConcat(s0, b0, now, wr, commit);
      ReachConcat(s0, b0, now, wr + commit, clear);
      var row := conn.working[sid].(active := false, logoutAt := Some(now), reason := Some(reason));
      assert [Write(conn.working[sid := row])] == wr;
      var _ :- conn.Flush(conn.working[sid := row], now);
      var _ :- conn.CommitWork(now);
      var _ :- ClearCache(sid, true, now);
      return Ok(());
    }

    method Revoke(sid: Uuid, reason: string, now: int) returns (r: Attempt<()>)
      requires Valid() && sid in conn.working
      modifies conn
      ensures var cmds := RevokeCmds(cfg, now, old(conn.working), sid, reason);
              conn.Did(old(conn.Snapshot()), old(conn.budget), now, cmds)
                  && r == Plan(cmds, Ok(())).Ending(old(conn.budget))
    {
      hide Reach;
      ghost var s0, b0 := conn.Snapshot(), conn.budget;
      ghost var bl := RevokeJtiCmds(cfg, conn.working[sid].jti, 0);
      ghost var wr: seq<SessionCommand> := [Write(conn.working[sid := Closed(conn.working[sid], now, reason)])];
      ghost var clear := ClearCacheCmds(cfg, sid, true);
      ReachConcat(s0, b0, now, bl, wr);
      ReachConcat(s0, b0, now, bl + wr, clear);
      var row := conn.working[sid].(active := false, logoutAt := Some(now), reason := Some(reason));
      assert [Write(conn.working[sid := row])] == wr;
      assert RevokeCmds(cfg, now, conn.working, sid, reason) == bl + wr + clear;
      ReachAll(s0, b0, now, bl);
      assert |bl| == 1 && |wr| == 1 && |clear| == 3;
      var _ :- tokens.RevokeJti(row.jti, 0, now);
      assert conn.working == s0.working;
      var _ :- conn.Flush(conn.working[sid := row], now);
      var _ :- ClearCache(sid, true, now);
      return Ok(());
    }

    /** Return normally if the session is usable, recording the activity;
        close it first if it has expired. */
    method ValidateAndTouch(sid: Uuid, user: Uuid, now: int) returns (r: Attempt<()>)
      modifies conn
      ensures var p := ValidatePlan(cfg, now, old(conn.redis), old(conn.working), sid, user);
              conn.Did(old(conn.Snapshot()), old(conn.budget), now, p.cmds) && r == p.Ending(old(conn.budget))
    {
      hide Reach, TouchCmds, ExpireCmds;
      ghost var s0, b0 := conn.Snapshot(), conn.budget;
      ghost var ex: seq<SessionCommand> := [Exists(SessionRevoked(sid))];
      ghost var sel: seq<SessionCommand> := [Select];
      ghost var judged := JudgePlan(cfg, now, conn.redis, conn.working, sid, user);
      ReachConcat(s0, b0, now, ex, judged.cmds);
      ReachConcat(s0, b0, now, ex, sel);
      ReachConcat(s0, b0, now, ex + sel, judged.cmds[1..]);
      assert ex + judged.cmds == ex + sel + judged.cmds[1..];
      var revoked :- conn.RedisExists(SessionRevoked(sid), now);
      if revoked {
        return Raised(AuthError);
      }
      var rows :- conn.Query(now);
      if sid !in rows || rows[sid].user != user || !rows[sid].active {
        assert judged.cmds == sel;
        return Raised(AuthError);
      }
      if rows[sid].expiresAt <= now {
        assert judged.cmds[1..] == ExpireCmds(cfg, now, rows, sid, "absolute_expiry");
        var _ :- Expire(sid, "absolute_expiry", now);
        return Raised(AuthError);
      }
      var idleCutoff := rows[sid].lastActivity + cfg.IdleSeconds();
      if idleCutoff < now {
        assert judged.cmds[1..] == ExpireCmds(cfg, now, rows, sid, "idle_timeout");
        var _ :- Expire(sid, "idle_timeout", now);
        return Raised(AuthError);
      }
      assert judged.cmds[1..] == TouchCmds(cfg, now, conn.redis, rows, sid);
      r := Touch(sid, now);
    }

    method RevokeByUuid(user: Uuid, sid: Uuid, reason: string, now: int) returns (r: Attempt<()>)
      requires Valid()
      modifies conn
      ensures var p := RevokeByUuidPlan(cfg, now, old(conn.working), user, sid, reason);
              conn.Did(old(conn.Snapshot()), old(conn.budget), now, p.cmds) && r == p.Ending(old(conn.budget))
    {
      hide Reach, RevokeCmds;
      ReachConcat(conn.Snapshot(), conn.budget, now, [Select], RevokeCmds(cfg, now, conn.working, sid, reason));
      var rows :- conn.Query(now);
      if sid !in rows || rows[sid].user != user {
        return Raised(NotFound);
      }
      if rows[sid].active {
        var _ :- Revoke(sid, reason, now);
      }
      return Ok(());
    }

    /** Revoke by session id alone; true if an active session was found. */
    method RevokeBySid(sid: Uuid, reason: string, now: int) returns (r: Attempt<bool>)
      requires Valid()
      modifies conn
      ensures var p := RevokeBySidPlan(cfg, now, old(conn.working), sid, reason);
              conn.Did(old(conn.Snapshot()), old(conn.budget), now, p.cmds) && r == p.Ending(old(conn.budget))
    {
      hide Reach, RevokeCmds;
      ReachConcat(conn.Snapshot(), conn.budget, now, [Select], RevokeCmds(cfg, now, conn.working, sid, reason));
      var rows :- conn.Query(now);
      if sid !in rows || !rows[sid].active {
        return Ok(false);
      }
      var _ :- Revoke(sid, reason, now);
      return Ok(true);
    }

    /** The user's active sessions, most recently active first. */
    method ListActiveForUser(user: Uuid, now: int) returns (r: Attempt<seq<Uuid>>)
      modifies conn
      ensures conn.Did(old(conn.Snapshot()), old(conn.budget), now, [Select])
      ensures r.Ok? <==> old(conn.budget) != 0
      ensures r.Ok? ==> conn.working == old(conn.working) && Listing(conn.working, user, r.value)
      ensures r.Raised? ==> r.error == StoreDown
    {
      hide Reach, Sorting, Listing, Latest;
      var rows :- conn.Query(now);
      ghost var s, b := conn.Snapshot(), conn.budget;
      var order: seq<Uuid> := [];
      var left := set sid | sid in rows && rows[sid].user == user && rows[sid].active;
      SortingStart(rows, user, left);
      while left != {}
        invariant conn.Snapshot() == s && conn.budget == b
        invariant Sorting(rows, user, left, order)
        decreases |left|
      {
        SortingNext(rows, user, left, order);
        var next :| Latest(rows, left, next);
        SortingStep(rows, user, left, order, next);
        order, left := order + [next], left - {next};
      }
      SortingDone(rows, user, order);
      return Ok(order);
    }

    /** Revoke the user's active sessions, all but one if one is named; the
        result is how many. */
    method RevokeAll(user: Uuid, reason: string, keep: Option<Uuid>, now: int)
      returns (r: Attempt<nat>, ghost order: seq<Uuid>)
      requires Valid()
      modifies conn
      ensures Listing(old(conn.working), user, order)
      ensures var p := RevokeAllPlan(cfg, now, old(conn.working), order, keep, reason);
              conn.Did(old(conn.Snapshot()), old(conn.budget), now, p.cmds) && r == p.Ending(old(conn.budget))
    {
      hide Reach, RevokeCmds, Listing, RevokeEachCmds, Without;
      ghost var s0, b0 := conn.Snapshot(), conn.budget;
      order := SomeListing(conn.working, user);
      ReachConcat(s0, b0, now, [Select], RevokeEachCmds(cfg, now, conn.working, Without(order, keep), reason));
      var sessions :- ListActiveForUser(user, now);
      order := sessions;
      ghost var rows := conn.working;
      ghost var todo := Without(order, keep);
      ghost var s1, b1 := conn.Snapshot(), conn.budget;
      ReachConcat(s0, b0, now, [Select], RevokeEachCmds(cfg, now, rows, todo, reason));
      SelectAlone(s0, now);
      ListingKnown(rows, user, order);
      var count, i := 0, 0;
      while i < |sessions|
        invariant 0 <= i <= |sessions|
        invariant conn.budget <= b1
        invariant forall sid | sid in order :: sid in conn.working
        invariant count + |Without(order[i..], keep)| == |todo|
        invariant |RevokeEachCmds(cfg, now, conn.working, Without(order[i..], keep), reason)| + b1 - conn.budget
               == |RevokeEachCmds(cfg, now, rows, todo, reason)|
        invariant Reach(s1, b1, now, RevokeEachCmds(cfg, now, rows, todo, reason))
               == Reach(conn.Snapshot(), conn.budget, now,
                        RevokeEachCmds(cfg, now, conn.working, Without(order[i..], keep), reason))
      {
        var sid := sessions[i];
        WithoutStep(order, i, keep);
        if keep == Some(sid) {
          i := i + 1;
          continue;
        }
        RevokeFirst(cfg, now, conn.Snapshot(), conn.budget, sid, Without(order[i + 1..], keep), reason);
        var _ :- Revoke(sid, reason, now);
        count, i := count + 1, i + 1;
      }
      RevokeNone(cfg, now, conn.Snapshot(), conn.budget, order[i..], keep, reason);
      return Ok(count), order;
    }

    /** After a rotation, point the session at the new refresh token. */
    method RebindRefresh(user: Uuid, sid: Uuid, jti: Uuid, now: int) returns (r: Attempt<()>)
      modifies conn
      ensures var p := RebindPlan(cfg, now, old(conn.working), user, sid, jti);
              conn.Did(old(conn.Snapshot()), old(conn.budget), now, p.cmds) && r == p.Ending(old(conn.budget))
    {
      hide Reach;
      ghost var s0, b0 := conn.Snapshot(), conn.budget;
      if Usable(conn.working, sid, user) {
        ghost var sel: seq<SessionCommand> := [Select];
        ghost var wr: seq<SessionCommand> :=
            [Write(conn.working[sid := conn.working[sid].(jti := jti, lastActivity := now)])];
        ReachConcat(s0, b0, now, sel, wr);
        ReachConcat(s0, b0, now, sel + wr, [SetActive(cfg, sid)]);
        assert RebindPlan(cfg, now, conn.working, user, sid, jti).cmds == sel + wr + [SetActive(cfg, sid)];
      }
      var rows :- conn.Query(now);
      if sid !in rows || !rows[sid].active || rows[sid].user != user {
        return Raised(AuthError);
      }
      var row := rows[sid].(jti := jti);
      row := row.(lastActivity := now);
      var _ :- conn.Flush(rows[sid := row], now);
      var _ :- conn.RedisSet(SessionActive(sid), Mark, cfg.IdleSeconds(), now);
      return Ok(());
    }
  }

  predicate Latest(rows: Rows, left: set<Uuid>, next: Uuid) {
    next in left && forall sid | sid in left && sid in rows && next in rows ::
                      rows[sid].lastActivity <= rows[next].lastActivity
  }

  lemma {:induction false} LatestExists(rows: Rows, left: set<Uuid>)
    requires left != {} && forall sid | sid in left :: sid in rows
    ensures exists next :: Latest(rows, left, next)
    decreases |left|
  {
    var a :| a in left;
    if left == {a} {
      assert Latest(rows, left, a);
    } else {
      LatestExists(rows, left - {a});
      var b :| Latest(rows, left - {a}, b);
      var next := if rows[b].lastActivity <= rows[a].lastActivity then a else b;
      assert Latest(rows, left, next);
    }
  }

  /** `order` lists the user's active sessions but for those `left`, which come later. */
  ghost predicate Sorting(rows: Rows, user: Uuid, left: set<Uuid>, order: seq<Uuid>) {
    && (forall sid :: sid in left || sid in order <==> Usable(rows, sid, user))
    && (forall i, j | 0 <= i < j < |order| :: order[i] != order[j])
    && (forall i, j | 0 <= i < j < |order| && order[i] in rows && order[j] in rows ::
          rows[order[j]].lastActivity <= rows[order[i]].lastActivity)
    && (forall i, sid | 0 <= i < |order| && sid in left :: order[i] != sid)
    && (forall i, sid | 0 <= i < |order| && sid in left && order[i] in rows && sid in rows ::
          rows[sid].lastActivity <= rows[order[i]].lastActivity)
  }

  lemma SortingStart(rows: Rows, user: Uuid, left: set<Uuid>)
    requires left == set sid | sid in rows && rows[sid].user == user && rows[sid].active
    ensures Sorting(rows, user, left, [])
  {
  }

  lemma SortingNext(rows: Rows, user: Uuid, left: set<Uuid>, order: seq<Uuid>)
    requires Sorting(rows, user, left, order) && left != {}
    ensures exists next :: Latest(rows, left, next)
  {
    assert forall sid | sid in left :: Usable(rows, sid, user);
    LatestExists(rows, left);
  }

  lemma SortingStep(rows: Rows, user: Uuid, left: set<Uuid>, order: seq<Uuid>, next: Uuid)
    requires Sorting(rows, user, left, order) && Latest(rows, left, next)
    ensures next in left && Sorting(rows, user, left - {next}, order + [next])
  {
    assert forall sid | sid in left :: Usable(rows, sid, user);
  }

  lemma SortingDone(rows: Rows, user: Uuid, order: seq<Uuid>)
    requires Sorting(rows, user, {}, order)
    ensures Listing(rows, user, order)
  {
  }

  lemma {:induction false} Arrange(rows: Rows, user: Uuid, left: set<Uuid>, order: seq<Uuid>) returns (all: seq<Uuid>)
    requires Sorting(rows, user, left, order)
    ensures Listing(rows, user, all)
    decreases |left|
  {
    hide Sorting, Listing, Latest;
    if left == {} {
      SortingDone(rows, user, order);
      return order;
    }
    SortingNext(rows, user, left, order);
    var next :| Latest(rows, left, next);
    SortingStep(rows, user, left, order, next);
    all := Arrange(rows, user, left - {next}, order + [next]);
  }

  /** Every user's active sessions can be listed. */
  lemma SomeListing(rows: Rows, user: Uuid) returns (order: seq<Uuid>)
    ensures Listing(rows, user, order)
  {
    var left := set sid | sid in rows && rows[sid].user == user && rows[sid].active;
    SortingStart(rows, user, left);
    order := Arrange(rows, user, left, []);
  }

  lemma ReachAll(s: SessionState, budget: nat, now: int, cmds: seq<SessionCommand>)
    ensures |cmds| <= budget ==> Reach(s, budget, now, cmds) == ApplyAll(s, now, cmds)
  {
    if |cmds| <= budget {
      assert Cut(cmds, budget) == cmds;
    }
  }

  lemma ListingKnown(rows: Rows, user: Uuid, order: seq<Uuid>)
    requires Listing(rows, user, order)
    ensures forall sid | sid in order :: sid in rows
  {
    forall sid | sid in order
      ensures sid in rows
    {
      assert Usable(rows, sid, user);
    }
  }

  lemma WithoutStep(order: seq<Uuid>, i: nat, keep: Option<Uuid>)
    requires i < |order|
    ensures keep == Some(order[i]) ==> Without(order[i..], keep) == Without(order[i + 1..], keep)
    ensures keep != Some(order[i]) ==> Without(order[i..], keep) == [order[i]] + Without(order[i + 1..], keep)
  {
    assert order[i..][1..] == order[i + 1..];
  }

  lemma RevokeNone(cfg: Config, now: int, s: SessionState, budget: nat, order: seq<Uuid>, keep: Option<Uuid>,
                   reason: string)
    requires order == []
    ensures Without(order, keep) == [] && RevokeEachCmds(cfg, now, s.working, [], reason) == []
    ensures Reach(s, budget, now, []) == s
  {
  }

  /** Closing a list of sessions is closing the first and then, from the state
      reached, the rest. */
  lemma RevokeFirst(cfg: Config, now: int, s: SessionState, budget: nat, sid: Uuid, rest: seq<Uuid>, reason: string)
    ensures var here := RevokeCmds(cfg, now, s.working, sid, reason);
            var all := RevokeEachCmds(cfg, now, s.working, [sid] + rest, reason);
            var reached := Reach(s, budget, now, here);
            && |here| <= |all|
            && (budget < |here| ==> Reach(s, budget, now, all) == reached)
            && (|here| <= budget ==>
                  && reached.working.Keys == s.working.Keys
                  && |all| == |here| + |RevokeEachCmds(cfg, now, reached.working, rest, reason)|
                  && Reach(s, budget, now, all)
                     == Reach(reached, budget - |here|, now, RevokeEachCmds(cfg, now, reached.working, rest, reason)))
  {
    hide Reach, RevokeCmds;
    var here := RevokeCmds(cfg, now, s.working, sid, reason);
    var after := RevokeEachCmds(cfg, now, CloseAll(s.working, now, [sid], reason), rest, reason);
    assert ([sid] + rest)[..1] == [sid] && ([sid] + rest)[1..] == rest;
    assert RevokeEachCmds(cfg, now, s.working, [sid] + rest, reason) == here + after;
    ReachConcat(s, budget, now, here, after);
    RevokeWorking(cfg, now, s, sid, reason);
    ReachAll(s, budget, now, here);
  }

  lemma SelectAlone(s: SessionState, now: int)
    ensures forall budget: nat :: Reach(s, budget, now, [Select]) == s
  {
    forall budget: nat
      ensures Reach(s, budget, now, [Select]) == s
    {
      ReachOne(s, budget, now, Select);
    }
  }
}
