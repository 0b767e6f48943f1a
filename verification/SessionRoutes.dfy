/** The routes of the session protocol and the unit of work around them. The
    last method, `Serve`, is one step of Protocol.dfy: whatever the service
    does with its connections, the specification's `Next` does with the world. */
module SessionRoutes {
  import opened Base
  import opened Stores
  import opened SessionPlans
  import opened SessionService
  import opened Protocol

  class Routes {
    const cfg: Config
    const conn: Connection<Rows>
    const tokens: TokenService
    const sessions: SessionManager

    constructor (cfg: Config, conn: Connection<Rows>)
      ensures this.cfg == cfg && this.conn == conn && Valid()
    {
      this.cfg := cfg;
      this.conn := conn;
      tokens := new TokenService(cfg, conn);
      sessions := new SessionManager(cfg, conn);
    }

    ghost predicate Valid() {
      && tokens.cfg == cfg && tokens.conn == conn
      && sessions.cfg == cfg && sessions.conn == conn && sessions.Valid()
    }

    /** Mint a pair bound to a new session id and insert the session row. */
    method FinalizeLogin(user: Uuid, remember: bool, device: Device, mint: Mint, now: int) returns (r: Attempt<Pair>)
      requires Valid()
      modifies conn
      ensures var p := LoginPlan(cfg, now, old(conn.working), user, remember, device, mint);
              conn.Did(old(conn.Snapshot()), old(conn.budget), now, p.cmds) && r == p.Ending(old(conn.budget))
    {
      var pair := IssuePair(cfg, now, user, remember, Some(mint.sid), mint);
      var _ :- sessions.CreateSession(user, mint.sid, mint.refresh, remember, device, now);
      return Ok(pair);
    }

    /** Authenticate the access token and validate the session it is bound to. */
    method GetAuthContext(cookie: Option<Token>, account: Account, now: int) returns (r: Attempt<Option<Uuid>>)
      requires Valid()
      modifies conn
      ensures var p := AuthPlan(cfg, now, old(conn.redis), old(conn.working), cookie, account);
              conn.Did(old(conn.Snapshot()), old(conn.budget), now, p.cmds) && r == p.Ending(old(conn.budget))
    {
      hide Reach, ValidatePlan;
      if cookie.Some? && cookie.value.sid.Some? {
        ReachConcat(conn.Snapshot(), conn.budget, now, [Select],
                    ValidatePlan(cfg, now, conn.redis, conn.working, cookie.value.sid.value, cookie.value.user).cmds);
      }
      ReachNothing(conn.Snapshot(), conn.budget, now);
      var tok :- Decode(cookie, TokenKind.Access, now);
      var _ :- conn.Query(now);
      if account != InGoodStanding {
        return Raised(AuthError);
      }
      if tok.sid.None? {
        return Ok(None);
      }
      var _ :- sessions.ValidateAndTouch(tok.sid.value, tok.user, now);
      return Ok(tok.sid);
    }

    /** The body of an authenticated route. `done` is the action with the
        listing that logout-all found. */
    method Handle(user: Uuid, current: Option<Uuid>, action: Action, now: int)
      returns (r: Attempt<nat>, ghost done: Action)
      requires Valid()
      requires current.Some? ==> current.value in conn.working
      modifies conn
      ensures done == action || (action.LogoutAll? && done.LogoutAll?)
      ensures done.LogoutAll? ==> Listing(old(conn.working), user, done.order)
      ensures var p := HandlerPlan(cfg, now, old(conn.working), user, current, done);
              conn.Did(old(conn.Snapshot()), old(conn.budget), now, p.cmds) && r == p.Ending(old(conn.budget))
    {
      hide Reach, RevokeCmds, RevokeAllPlan, RevokeByUuidPlan, Listing;
      done := action;
      if action.LogoutAll? {
        ghost var order := SomeListing(conn.working, user);
        done := LogoutAll(order);
      }
      ReachNothing(conn.Snapshot(), conn.budget, now);
      match action
      case Read =>
        return Ok(0), done;
      case Fails(e) =>
        return Raised(e), done;
      case LogoutThis =>
        if current.None? {
          return Raised(AuthError), done;
        }
        var revoked := sessions.Revoke(current.value, "logout", now);
        return Yielding(revoked, 1), done;
      case LogoutAll(_) =>
        if current.None? {
          return Raised(AuthError), done;
        }
        ghost var order;
        r, order := sessions.RevokeAll(user, "logout_all", None, now);
        return r, LogoutAll(order);
      case RevokeOne(target) =>
        if current.None? {
          return Raised(AuthError), done;
        }
        var revoked := sessions.RevokeByUuid(user, target, "revoked_by_user", now);
        return Yielding(revoked, 1), done;
    }

    /** An authenticated request. */
    method Authenticated(cookie: Option<Token>, account: Account, action: Action, now: int)
      returns (r: Attempt<nat>, ghost done: Action)
      requires Valid() && conn.working == conn.committed
      modifies conn
      ensures done == action || (action.LogoutAll? && done.LogoutAll?)
      ensures done.LogoutAll? && cookie.Some? ==>
                Listing(ApplyAll(old(conn.Snapshot()), now,
                                 AuthPlan(cfg, now, old(conn.redis), old(conn.working), cookie, account).cmds).working,
                        cookie.value.user, done.order)
      ensures var p := AccessPlan(cfg, now, old(conn.redis), old(conn.working), cookie, account, done);
              conn.Did(old(conn.Snapshot()), old(conn.budget), now, p.cmds) && r == p.Ending(old(conn.budget))
    {
      hide Reach, AuthPlan, HandlerPlan, Listing;
      ghost var s0, b0 := conn.Snapshot(), conn.budget;
      ghost var auth := AuthPlan(cfg, now, conn.redis, conn.working, cookie, account);
      ghost var seen := ApplyAll(s0, now, auth.cmds).working;
      AuthSeen(cfg, now, s0, cookie, account);
      ReachAll(s0, b0, now, auth.cmds);
      done := action;
      if action.LogoutAll? && cookie.Some? {
        ghost var order := SomeListing(seen, cookie.value.user);
        done := LogoutAll(order);
      }
      if cookie.Some? && auth.result.Ok? {
        ReachConcat(s0, b0, now, auth.cmds,
                    HandlerPlan(cfg, now, seen, cookie.value.user, auth.result.value, done).cmds);
      }
      var current := GetAuthContext(cookie, account, now);
      if current.Raised? {
        return Raised(current.error), done;
      }
      r, done := Handle(cookie.value.user, current.value, action, now);
      ReachConcat(s0, b0, now, auth.cmds, HandlerPlan(cfg, now, seen, cookie.value.user, auth.result.value, done).cmds);
    }

    /** A replayed refresh token kills the session it is bound to; the commit
        keeps the kill from being rolled back with the rejected request. */
    method HandleRefreshReplay(cookie: Option<Token>, now: int) returns (r: Attempt<()>)
      requires Valid()
      modifies conn
      ensures var cmds := if cookie.Some? && Decode(cookie, TokenKind.Refresh, now).Ok?
                          then ReplayCmds(cfg, now, old(conn.working), cookie.value) else [];
              conn.Did(old(conn.Snapshot()), old(conn.budget), now, cmds)
                  && r == Plan(cmds, Ok(())).Ending(old(conn.budget))
    {
      hide Reach, RevokeCmds;
      ReachNothing(conn.Snapshot(), conn.budget, now);
      var payload := Decode(cookie, TokenKind.Refresh, now);
      if payload.Raised? || payload.value.sid.None? {
        return Ok(());
      }
      ghost var killed := RevokeBySidPlan(cfg, now, conn.working, payload.value.sid.value, "refresh_replay");
      ReachConcat(conn.Snapshot(), conn.budget, now, killed.cmds, [Commit]);
      assert killed.cmds + [] == killed.cmds;
      var found :- sessions.RevokeBySid(payload.value.sid.value, "refresh_replay", now);
      if found {
        var _ :- conn.CommitWork(now);
      }
      return Ok(());
    }

    method Refresh(cookie: Option<Token>, mint: Mint, now: int) returns (r: Attempt<Pair>)
      requires Valid()
      modifies conn
      ensures var p := RefreshPlan(cfg, now, old(conn.redis), old(conn.working), cookie, mint);
              conn.Did(old(conn.Snapshot()), old(conn.budget), now, p.cmds) && r == p.Ending(old(conn.budget))
    {
      hide Reach, ReplayCmds, RebindPlan;
      ghost var s0, b0 := conn.Snapshot(), conn.budget;
      ghost var rotated := RotatePlan(cfg, conn.redis, cookie, mint, now);
      ReachNothing(s0, b0, now);
      ReachAll(s0, b0, now, rotated.cmds);
      RotateKeepsTables(cfg, s0, cookie, mint, now);
      if cookie.Some? {
        ReachConcat(s0, b0, now, rotated.cmds, ReplayCmds(cfg, now, conn.working, cookie.value));
      }
      if rotated.result.Ok? && rotated.result.value.refresh.sid.Some? {
        ReachConcat(s0, b0, now, rotated.cmds,
                    RebindPlan(cfg, now, conn.working, rotated.result.value.refresh.user,
                               rotated.result.value.refresh.sid.value, rotated.result.value.refresh.jti).cmds);
      }
      if cookie.None? {
        return Raised(AuthError);
      }
      var pair := tokens.Rotate(cookie, mint, now);
      if pair == Raised(TokenReplay) {
        var _ :- HandleRefreshReplay(cookie, now);
        return Raised(AuthError);
      }
      if pair.Raised? {
        return pair;
      }
      var refresh := pair.value.refresh;
      if refresh.sid.Some? {
        var _ :- sessions.RebindRefresh(refresh.user, refresh.sid.value, refresh.jti, now);
      }
      return pair;
    }

    method Logout(cookie: Option<Token>, now: int) returns (r: Attempt<()>)
      requires Valid()
      modifies conn
      ensures var p := LogoutPlan(cfg, now, old(conn.redis), old(conn.working), cookie);
              conn.Did(old(conn.Snapshot()), old(conn.budget), now, p.cmds) && r == p.Ending(old(conn.budget))
    {
      hide Reach, RevokeCmds;
      ghost var s0, b0 := conn.Snapshot(), conn.budget;
      ghost var verified := VerifyRefreshPlan(conn.redis, cookie, now);
      ReachNothing(s0, b0, now);
      ReachAll(s0, b0, now, verified.cmds);
      if verified.result.Ok? {
        LogoutCommands(s0, b0, now, verified.cmds, RevokeTokenCmds(verified.result.value, now),
                       if verified.result.value.sid.None? then []
                       else RevokeBySidPlan(cfg, now, conn.working, verified.result.value.sid.value, "logout").cmds);
      }
      if cookie.None? {
        return Ok(());
      }
      var payload := tokens.VerifyRefresh(cookie, now);
      if payload.Raised? {
        return if payload.error == StoreDown then Raised(StoreDown) else Ok(());
      }
      ghost var blacklist := RevokeTokenCmds(payload.value, now);
      ReachAll(conn.Snapshot(), conn.budget, now, blacklist);
      WritesNothing(s0, now, verified.cmds);
      WritesNothing(conn.Snapshot(), now, blacklist);
      var _ :- tokens.Revoke(payload.value, now);
      ReachNothing(conn.Snapshot(), conn.budget, now);
      if payload.value.sid.Some? {
        var sid := payload.value.sid.value;
        ReachConcat(conn.Snapshot(), conn.budget, now, [Select], RevokeCmds(cfg, now, conn.working, sid, "logout"));
        var rows :- conn.Query(now);
        if sid in rows && rows[sid].active {
          var _ :- sessions.Revoke(sid, "logout", now);
        }
      }
      return Ok(());
    }

    /** The route a request goes to. `served` is the request with the listing
        that logout-all found in place of the one it came with. */
    method Dispatch(q: Request, now: int) returns (r: Attempt<Option<Pair>>, ghost served: Request)
      requires Valid() && conn.working == conn.committed
      modifies conn
      ensures SameRequest(q, served)
      ensures served.Call? && served.action.LogoutAll? && served.cookie.Some? ==>
                Listing(ApplyAll(old(conn.Snapshot()), now,
                                 AuthPlan(cfg, now, old(conn.redis), old(conn.working), served.cookie,
                                          served.account).cmds).working,
                        served.cookie.value.user, served.action.order)
      ensures var p := PlanAt(cfg, now, old(conn.redis), old(conn.working), served);
              conn.Did(old(conn.Snapshot()), old(conn.budget), now, p.cmds) && r == p.Ending(old(conn.budget))
    {
      hide Reach, Listing, AuthPlan, AccessPlan, LoginPlan, RefreshPlan, LogoutPlan;
      served := q;
      match q
      case Login(user, remember, device, mint) =>
        var pair := FinalizeLogin(user, remember, device, mint, now);
        r := InResponse(pair);
      case Call(cookie, account, action) =>
        var status;
        ghost var done;
        status, done := Authenticated(cookie, account, action, now);
        r, served := Yielding(status, None), Call(cookie, account, done);
      case Rotate(cookie, mint) =>
        var pair := Refresh(cookie, mint, now);
        r := InResponse(pair);
      case Logout(cookie) =>
        var status := Logout(cookie, now);
        r := Yielding(status, None);
    }

    /** One request: its own transaction, committed if the handler returned and
        rolled back if anything raised. */
    method Serve(q: Request, now: int) returns (r: Attempt<Option<Pair>>, ghost served: Request)
      requires Valid() && conn.working == conn.committed
      modifies conn
      ensures SameRequest(q, served)
      ensures forall delivered, minted ::
                var w := World(now, old(conn.redis), old(conn.committed), delivered, minted);
                var w' := Next(cfg, w, Protocol.Serve(served, old(conn.budget)));
                && conn.redis == w'.redis && conn.committed == w'.rows && conn.working == w'.rows
                && r == Issued(cfg, w, served).Ending(old(conn.budget))
                && w'.delivered == delivered + Response(r)
                && (Asked(w, q) ==> Possible(cfg, w, served))
    {
      hide Reach, Listing, AuthPlan, PlanAt;
      ghost var s0, b0 := conn.Snapshot(), conn.budget;
      r, served := Dispatch(q, now);
      ghost var p := PlanAt(cfg, now, s0.redis, s0.working, served);
      ReachConcat(s0, b0, now, p.cmds, [Commit]);
      if r.Ok? {
        var committed := conn.CommitWork(now);
        if committed.Raised? {
          r := Raised(committed.error);
        }
      }
      if r.Raised? {
        conn.Rollback();
      }
      forall delivered, minted
        ensures var w := World(now, s0.redis, s0.committed, delivered, minted);
                var w' := Next(cfg, w, Protocol.Serve(served, b0));
                && conn.redis == w'.redis && conn.committed == w'.rows && conn.working == w'.rows
                && r == Issued(cfg, w, served).Ending(b0)
                && w'.delivered == delivered + Response(r)
                && (Asked(w, q) ==> Possible(cfg, w, served))
      {
        var w := World(now, s0.redis, s0.committed, delivered, minted);
        PlanHere(cfg, w, served);
        assert Left(cfg, w, served, b0) == Reach(s0, b0, now, Committing(p).cmds) by {
          ReachIs(s0, b0, now, Committing(p).cmds);
        }
        assert conn.Snapshot() == Settle(Left(cfg, w, served, b0));
        assert Asked(w, q) ==> Possible(cfg, w, served);
      }
    }
  }

  /** The same request, but for the order in which logout-all found the sessions. */
  predicate SameRequest(q: Request, served: Request) {
    || served == q
    || (q.Call? && served.Call? && q.cookie == served.cookie && q.account == served.account
        && q.action.LogoutAll? && served.action.LogoutAll?)
  }

  function PlanAt(cfg: Config, now: int, redis: Cache, rows: Rows, q: Request): SessionPlan<Option<Pair>> {
    RequestPlan(cfg, World(now, redis, rows, {}, {}), q)
  }

  lemma ReachIs(s: SessionState, budget: nat, now: int, cmds: seq<SessionCommand>)
    ensures Reach(s, budget, now, cmds) == ApplyAll(s, now, Cut(cmds, budget))
  {
  }

  lemma PlanHere(cfg: Config, w: World, q: Request)
    ensures RequestPlan(cfg, w, q) == PlanAt(cfg, w.now, w.redis, w.rows, q)
  {
  }

  /** Nobody is authenticated without a token, and a session that was validated
      is in the table. */
  lemma AuthSeen(cfg: Config, now: int, s: SessionState, cookie: Option<Token>, account: Account)
    ensures var auth := AuthPlan(cfg, now, s.redis, s.working, cookie, account);
            && (cookie.None? ==> auth == Plan([], Raised(AuthError)))
            && (auth.result.Ok? && auth.result.value.Some? ==>
                  auth.result.value.value in ApplyAll(s, now, auth.cmds).working)
  {
    var auth := AuthPlan(cfg, now, s.redis, s.working, cookie, account);
    if auth.result.Ok? && auth.result.value.Some? {
      WritesKeep(s, now, auth.cmds, auth.result.value.value);
    }
  }

  /** Commands that only write tables with `sid` in them keep it there. */
  lemma {:induction false} WritesKeep(s: SessionState, now: int, cmds: seq<SessionCommand>, sid: Uuid)
    requires sid in s.working
    requires forall c | c in cmds && c.Write? :: sid in c.tables
    ensures sid in ApplyAll(s, now, cmds).working
    decreases |cmds|
  {
    if cmds != [] {
      WritesKeep(Apply(s, now, cmds[0]), now, cmds[1..], sid);
    }
  }

  lemma RotateKeepsTables(cfg: Config, s: SessionState, cookie: Option<Token>, mint: Mint, now: int)
    ensures ApplyAll(s, now, RotatePlan(cfg, s.redis, cookie, mint, now).cmds).working == s.working
  {
    WritesNothing(s, now, RotatePlan(cfg, s.redis, cookie, mint, now).cmds);
  }

  lemma LogoutCommands(s: SessionState, budget: nat, now: int, a: seq<SessionCommand>, b: seq<SessionCommand>,
                       c: seq<SessionCommand>)
    ensures budget < |a| ==> Reach(s, budget, now, a + b + c) == Reach(s, budget, now, a)
    ensures |a| <= budget < |a| + |b| ==>
              Reach(s, budget, now, a + b + c) == Reach(Reach(s, budget, now, a), budget - |a|, now, b)
    ensures |a| + |b| <= budget ==>
              Reach(s, budget, now, a + b + c)
              == Reach(Reach(Reach(s, budget, now, a), budget - |a|, now, b), budget - |a| - |b|, now, c)
  {
    ReachConcat(s, budget, now, a, b);
    ReachConcat(s, budget, now, a + b, c);
  }
}
