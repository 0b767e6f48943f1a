/** The shape every request's commands have, read off the plans: what is ever
    deleted from Redis, and in which order. */
module SessionShape {
  import opened Base
  import opened Stores
  import opened SessionPlans
  import opened Protocol

  /** Nothing is deleted but activity and throttle keys; a throttle key is
      deleted only right before its session is flagged; and it is set only
      for the session `touch`, when it was not live, for the throttle interval. */
  ghost predicate Tidy(cfg: Config, redis: Cache, now: int, touch: Option<Uuid>, cmds: seq<SessionCommand>) {
    forall i | 0 <= i < |cmds| :: TidyAt(cfg, redis, now, touch, cmds, i)
  }

  ghost predicate TidyAt(cfg: Config, redis: Cache, now: int, touch: Option<Uuid>, cmds: seq<SessionCommand>, i: nat)
    requires i < |cmds|
  {
    match cmds[i]
    case Delete(SessionTouch(sid)) =>
      i + 1 < |cmds| && cmds[i + 1] == Set(SessionRevoked(sid), Mark, cfg.AbsoluteSeconds())
    case Delete(key) => key.SessionActive?
    case Set(SessionTouch(sid), value, ttl) =>
      touch == Some(sid) && value == Mark && ttl == cfg.throttleSeconds && !Live(redis, SessionTouch(sid), now)
    case Incr(_) => false
    case Expire(_, _) => false
    case _ => true
  }

  /** The part of `Tidy` that a cut keeps. */
  ghost predicate OnlyForgetsActivity(cmds: seq<SessionCommand>) {
    forall c | c in cmds :: c.Delete? ==> c.key.SessionActive? || c.key.SessionTouch?
  }

  lemma TidyConcat(cfg: Config, redis: Cache, now: int, touch: Option<Uuid>, a: seq<SessionCommand>,
                   b: seq<SessionCommand>)
    requires Tidy(cfg, redis, now, touch, a) && Tidy(cfg, redis, now, touch, b)
    ensures Tidy(cfg, redis, now, touch, a + b)
  {
    forall i | 0 <= i < |a + b|
      ensures TidyAt(cfg, redis, now, touch, a + b, i)
    {
      if i < |a| {
        assert TidyAt(cfg, redis, now, touch, a, i);
      } else {
        assert TidyAt(cfg, redis, now, touch, b, i - |a|);
      }
    }
  }

  lemma TidyForgets(cfg: Config, redis: Cache, now: int, touch: Option<Uuid>, cmds: seq<SessionCommand>, budget: nat)
    requires Tidy(cfg, redis, now, touch, cmds)
    ensures OnlyForgetsActivity(Cut(cmds, budget)) && OnlyForgetsActivity(cmds)
  {
    forall c | c in cmds
      ensures c.Delete? ==> c.key.SessionActive? || c.key.SessionTouch?
    {
      var i :| 0 <= i < |cmds| && cmds[i] == c;
      assert TidyAt(cfg, redis, now, touch, cmds, i);
    }
    assert forall c | c in Cut(cmds, budget) :: c in cmds;
  }

  lemma RevokeTidy(cfg: Config, redis: Cache, now: int, touch: Option<Uuid>, rows: Rows, sid: Uuid, reason: string)
    ensures Tidy(cfg, redis, now, touch, RevokeCmds(cfg, now, rows, sid, reason))
    ensures Tidy(cfg, redis, now, touch, [Select] + RevokeCmds(cfg, now, rows, sid, reason))
  {
    TidyConcat(cfg, redis, now, touch, [Select], RevokeCmds(cfg, now, rows, sid, reason));
  }

  lemma {:induction false} RevokeEachTidy(cfg: Config, redis: Cache, now: int, touch: Option<Uuid>, rows: Rows,
                                          order: seq<Uuid>, reason: string)
    ensures Tidy(cfg, redis, now, touch, RevokeEachCmds(cfg, now, rows, order, reason))
    decreases |order|
  {
    hide Tidy, RevokeCmds;
    if order == [] {
      assert Tidy(cfg, redis, now, touch, []) by { NothingTidy(cfg, redis, now, touch); }
    } else {
      var rest := CloseAll(rows, now, order[..1], reason);
      RevokeTidy(cfg, redis, now, touch, rows, order[0], reason);
      RevokeEachTidy(cfg, redis, now, touch, rest, order[1..], reason);
      TidyConcat(cfg, redis, now, touch, RevokeCmds(cfg, now, rows, order[0], reason),
                 RevokeEachCmds(cfg, now, rest, order[1..], reason));
    }
  }

  lemma NothingTidy(cfg: Config, redis: Cache, now: int, touch: Option<Uuid>)
    ensures Tidy(cfg, redis, now, touch, []) && Tidy(cfg, redis, now, touch, [Select])
            && Tidy(cfg, redis, now, touch, [Commit])
  {
  }

  lemma JudgeTidy(cfg: Config, redis: Cache, now: int, touch: Option<Uuid>, rows: Rows, sid: Uuid, user: Uuid)
    requires JudgePlan(cfg, now, redis, rows, sid, user).result.Ok? ==> touch == Some(sid)
    ensures Tidy(cfg, redis, now, touch, JudgePlan(cfg, now, redis, rows, sid, user).cmds)
  {
    hide Tidy;
    NothingTidy(cfg, redis, now, touch);
    if Usable(rows, sid, user) {
      var p := JudgePlan(cfg, now, redis, rows, sid, user);
      assert p.cmds == [Select] + p.cmds[1..];
      if p.result.Ok? {
        TouchTidy(cfg, redis, now, touch, rows, sid);
      } else {
        var reason := if rows[sid].expiresAt <= now then "absolute_expiry" else "idle_timeout";
        ExpireTidy(cfg, redis, now, touch, rows, sid, reason);
      }
      TidyConcat(cfg, redis, now, touch, [Select], p.cmds[1..]);
    }
  }

  lemma TouchTidy(cfg: Config, redis: Cache, now: int, touch: Option<Uuid>, rows: Rows, sid: Uuid)
    requires sid in rows && touch == Some(sid)
    ensures Tidy(cfg, redis, now, touch, TouchCmds(cfg, now, redis, rows, sid))
  {
  }

  lemma ExpireTidy(cfg: Config, redis: Cache, now: int, touch: Option<Uuid>, rows: Rows, sid: Uuid, reason: string)
    requires sid in rows
    ensures Tidy(cfg, redis, now, touch, ExpireCmds(cfg, now, rows, sid, reason))
  {
  }

  lemma AuthTidy(cfg: Config, redis: Cache, now: int, touch: Option<Uuid>, rows: Rows, cookie: Option<Token>,
                 account: Account)
    requires AuthPlan(cfg, now, redis, rows, cookie, account).result.Ok? ==> touch == cookie.value.sid
    ensures Tidy(cfg, redis, now, touch, AuthPlan(cfg, now, redis, rows, cookie, account).cmds)
  {
    hide Tidy, JudgePlan;
    NothingTidy(cfg, redis, now, touch);
    if Decode(cookie, Access, now).Ok? && account == InGoodStanding && cookie.value.sid.Some? {
      var sid := cookie.value.sid.value;
      var user := cookie.value.user;
      ReadsTidy(cfg, redis, now, touch, [Exists(SessionRevoked(sid))]);
      if !Live(redis, SessionRevoked(sid), now) {
        JudgeTidy(cfg, redis, now, touch, rows, sid, user);
        TidyConcat(cfg, redis, now, touch, [Exists(SessionRevoked(sid))],
                   JudgePlan(cfg, now, redis, rows, sid, user).cmds);
      }
      TidyConcat(cfg, redis, now, touch, [Select], ValidatePlan(cfg, now, redis, rows, sid, user).cmds);
    }
  }

  lemma ReadsTidy(cfg: Config, redis: Cache, now: int, touch: Option<Uuid>, cmds: seq<SessionCommand>)
    requires forall c | c in cmds :: c.Exists? || c.Select?
    ensures Tidy(cfg, redis, now, touch, cmds)
  {
  }

  lemma HandlerTidy(cfg: Config, redis: Cache, now: int, touch: Option<Uuid>, rows: Rows, user: Uuid,
                    current: Option<Uuid>, action: Action)
    ensures Tidy(cfg, redis, now, touch, HandlerPlan(cfg, now, rows, user, current, action).cmds)
  {
    hide Tidy, RevokeCmds, RevokeEachCmds;
    NothingTidy(cfg, redis, now, touch);
    match action
    case LogoutThis =>
      if current.Some? {
        RevokeTidy(cfg, redis, now, touch, rows, current.value, "logout");
      }
    case LogoutAll(order) =>
      RevokeEachTidy(cfg, redis, now, touch, rows, Without(order, None), "logout_all");
      TidyConcat(cfg, redis, now, touch, [Select], RevokeEachCmds(cfg, now, rows, Without(order, None), "logout_all"));
    case RevokeOne(target) =>
      RevokeTidy(cfg, redis, now, touch, rows, target, "revoked_by_user");
    case Read =>
    case Fails(_) =>
  }

  /** The session whose activity the request may record. */
  function TouchTarget(cfg: Config, w: World, q: Request): Option<Uuid> {
    if q.Call? && AuthPlan(cfg, w.now, w.redis, w.rows, q.cookie, q.account).result.Ok?
    then q.cookie.value.sid
    else None
  }

  lemma AccessTidy(cfg: Config, w: World, cookie: Option<Token>, account: Account, action: Action)
    ensures Tidy(cfg, w.redis, w.now, TouchTarget(cfg, w, Call(cookie, account, action)),
                 AccessPlan(cfg, w.now, w.redis, w.rows, cookie, account, action).cmds)
  {
    hide Tidy, ValidatePlan, HandlerPlan;
    var touch := TouchTarget(cfg, w, Call(cookie, account, action));
    var auth := AuthPlan(cfg, w.now, w.redis, w.rows, cookie, account);
    AuthTidy(cfg, w.redis, w.now, touch, w.rows, cookie, account);
    if auth.result.Ok? {
      var seen := Seen(cfg, w, cookie, account);
      var handled := HandlerPlan(cfg, w.now, seen, cookie.value.user, auth.result.value, action);
      HandlerTidy(cfg, w.redis, w.now, touch, seen, cookie.value.user, auth.result.value, action);
      TidyConcat(cfg, w.redis, w.now, touch, auth.cmds, handled.cmds);
    }
  }

  lemma ReplayTidy(cfg: Config, w: World, touch: Option<Uuid>, tok: Token)
    ensures Tidy(cfg, w.redis, w.now, touch, ReplayCmds(cfg, w.now, w.rows, tok))
  {
    hide Tidy, RevokeCmds;
    NothingTidy(cfg, w.redis, w.now, touch);
    if tok.sid.Some? {
      RevokeTidy(cfg, w.redis, w.now, touch, w.rows, tok.sid.value, "refresh_replay");
      var killed := RevokeBySidPlan(cfg, w.now, w.rows, tok.sid.value, "refresh_replay");
      TidyConcat(cfg, w.redis, w.now, touch, killed.cmds, if killed.result == Ok(true) then [Commit] else []);
    }
  }

  lemma RefreshTidy(cfg: Config, w: World, touch: Option<Uuid>, cookie: Option<Token>, mint: Mint)
    ensures Tidy(cfg, w.redis, w.now, touch, RefreshPlan(cfg, w.now, w.redis, w.rows, cookie, mint).cmds)
  {
    var rotated := RotatePlan(cfg, w.redis, cookie, mint, w.now);
    assert Tidy(cfg, w.redis, w.now, touch, rotated.cmds);
    if rotated.result == Raised(TokenReplay) {
      ReplayTidy(cfg, w, touch, cookie.value);
      TidyConcat(cfg, w.redis, w.now, touch, rotated.cmds, ReplayCmds(cfg, w.now, w.rows, cookie.value));
    }
  }

  lemma LogoutTidy(cfg: Config, w: World, touch: Option<Uuid>, cookie: Option<Token>)
    ensures Tidy(cfg, w.redis, w.now, touch, LogoutPlan(cfg, w.now, w.redis, w.rows, cookie).cmds)
  {
    hide RevokeCmds;
    var verified := VerifyRefreshPlan(w.redis, cookie, w.now);
    if verified.result.Ok? && cookie.value.sid.Some? {
      var tok := cookie.value;
      RevokeTidy(cfg, w.redis, w.now, touch, w.rows, tok.sid.value, "logout");
      TidyConcat(cfg, w.redis, w.now, touch, verified.cmds + RevokeTokenCmds(tok, w.now),
                 RevokeBySidPlan(cfg, w.now, w.rows, tok.sid.value, "logout").cmds);
    }
  }

  lemma RequestTidy(cfg: Config, w: World, q: Request)
    ensures Tidy(cfg, w.redis, w.now, TouchTarget(cfg, w, q), Issued(cfg, w, q).cmds)
    ensures forall budget: nat :: OnlyForgetsActivity(Cut(Issued(cfg, w, q).cmds, budget))
    ensures OnlyForgetsActivity(Issued(cfg, w, q).cmds)
  {
    hide Tidy, AccessPlan, RefreshPlan, LogoutPlan, OnlyForgetsActivity, TouchTarget;
    var touch := TouchTarget(cfg, w, q);
    var p := RequestPlan(cfg, w, q);
    NothingTidy(cfg, w.redis, w.now, touch);
    match q {
      case Login(user, remember, device, mint) => LoginTidy(cfg, w, touch, user, remember, device, mint);
      case Call(cookie, account, action) => AccessTidy(cfg, w, cookie, account, action);
      case Rotate(cookie, mint) => RefreshTidy(cfg, w, touch, cookie, mint);
      case Logout(cookie) => LogoutTidy(cfg, w, touch, cookie);
    }
    TidyConcat(cfg, w.redis, w.now, touch, p.cmds, [Commit]);
    forall budget: nat
      ensures OnlyForgetsActivity(Cut(Issued(cfg, w, q).cmds, budget))
    {
      TidyForgets(cfg, w.redis, w.now, touch, Issued(cfg, w, q).cmds, budget);
    }
    TidyForgets(cfg, w.redis, w.now, touch, Issued(cfg, w, q).cmds, 0);
  }

  lemma LoginTidy(cfg: Config, w: World, touch: Option<Uuid>, user: Uuid, remember: bool, device: Device, mint: Mint)
    ensures Tidy(cfg, w.redis, w.now, touch, LoginPlan(cfg, w.now, w.rows, user, remember, device, mint).cmds)
  {
  }

  lemma {:induction false} SetStays(s: SessionState, now: int, cmds: seq<SessionCommand>, key: Key)
    requires OnlyForgetsActivity(cmds) && (key.SessionRevoked? || key.RevokedJti?)
    requires key in s.redis || exists c | c in cmds :: c.Set? && c.key == key
    ensures key in ApplyAll(s, now, cmds).redis
    decreases |cmds|
  {
    if cmds != [] {
      SetStays(Apply(s, now, cmds[0]), now, cmds[1..], key);
    }
  }
}
