/** The Redis revocation flag is a cache: as long as no request is cut short,
    asking it first changes no verdict and no row. */
module SessionFastPath {
  import opened Base
  import opened Stores
  import opened SessionPlans
  import opened Protocol
  import opened SessionInvariant
  import opened SessionKeeps
  import opened SessionTheorems
  import opened SessionStages
  import opened SessionActivity

  /** Every flag points to a session the committed table calls inactive. */
  ghost predicate FlagsClosed(w: World) {
    forall sid | SessionRevoked(sid) in w.redis :: sid in w.rows && !w.rows[sid].active
  }

  /** The transaction and the committed table agree on which sessions are active. */
  ghost predicate Even(s: SessionState) {
    forall sid | sid in s.working ::
      sid in s.committed && (s.committed[sid].active ==> s.working[sid].active)
  }

  /** A rejected access token leaves nothing pending. */
  lemma AuthRejectEven(env: Env, w: World, cookie: Option<Token>, account: Account)
    requires Midway(env, w, Start(w))
    requires AuthPlan(env.cfg, env.now, w.redis, w.rows, cookie, account).result.Raised?
    ensures var s := ApplyAll(Start(w), env.now, AuthPlan(env.cfg, env.now, w.redis, w.rows, cookie, account).cmds);
            s.working == s.committed
  {
    hide Fine;
    var auth := AuthPlan(env.cfg, env.now, w.redis, w.rows, cookie, account);
    if Decode(cookie, Access, env.now).Ok? && account == InGoodStanding && cookie.value.sid.Some? {
      var sid := cookie.value.sid.value;
      if !Live(w.redis, SessionRevoked(sid), env.now) && Usable(w.rows, sid, cookie.value.user) {
        var reason := if w.rows[sid].expiresAt <= env.now then "absolute_expiry" else "idle_timeout";
        var before: seq<SessionCommand> := [Select] + ([Exists(SessionRevoked(sid))] + [Select]);
        var expire := ExpireCmds(env.cfg, env.now, w.rows, sid, reason);
        KeepsExpire(env, w, Start(w), sid, reason);
        ReadsChangeNothing(Start(w), env.now, before);
        ApplyConcat(Start(w), env.now, before, expire);
        assert auth.cmds == before + expire;
      } else {
        ReadsChangeNothing(Start(w), env.now, auth.cmds);
      }
    } else {
      ReadsChangeNothing(Start(w), env.now, auth.cmds);
    }
  }

  lemma CallEndsEven(cfg: Config, w: World, q: Request)
    requires Inv(cfg, w) && Possible(cfg, w, q) && q.Call? && RequestPlan(cfg, w, q).result.Raised?
    ensures Even(ApplyAll(Start(w), w.now, RequestPlan(cfg, w, q).cmds))
  {
    hide Fine;
    var auth := AuthPlan(cfg, w.now, w.redis, w.rows, q.cookie, q.account);
    AtStart(cfg, w, q);
    if auth.result.Raised? {
      AuthRejectEven(Around(cfg, w, q), w, q.cookie, q.account);
    } else {
      var s := ApplyAll(Start(w), w.now, auth.cmds);
      var handled := HandlerPlan(cfg, w.now, s.working, q.cookie.value.user, auth.result.value, q.action);
      SeenRows(cfg, w, q.cookie, q.account);
      RefusalReads(cfg, w.now, s.working, q.cookie.value.user, auth.result.value, q.action);
      ReadsChangeNothing(s, w.now, handled.cmds);
      ApplyConcat(Start(w), w.now, auth.cmds, handled.cmds);
    }
  }

  lemma RefusalReads(cfg: Config, now: int, rows: Rows, user: Uuid, current: Option<Uuid>, action: Action)
    requires HandlerPlan(cfg, now, rows, user, current, action).result.Raised?
    ensures forall c | c in HandlerPlan(cfg, now, rows, user, current, action).cmds :: c.Exists? || c.Select?
  {
  }

  lemma RefreshEndsEven(cfg: Config, w: World, q: Request)
    requires Inv(cfg, w) && Possible(cfg, w, q) && q.Rotate? && RequestPlan(cfg, w, q).result.Raised?
    ensures Even(ApplyAll(Start(w), w.now, RequestPlan(cfg, w, q).cmds))
  {
    hide Fine;
    var env := Around(cfg, w, q);
    var s := Start(w);
    var verified := VerifyRefreshPlan(w.redis, q.cookie, w.now);
    AtStart(cfg, w, q);
    if verified.result == Raised(TokenReplay) {
      var kill := ReplayCmds(cfg, w.now, w.rows, q.cookie.value);
      KeepsReplay(env, w, s, q.cookie.value);
      ReadsChangeNothing(s, w.now, verified.cmds);
      ApplyConcat(s, w.now, verified.cmds, kill);
    } else if verified.result.Ok? {
      var tok := q.cookie.value;
      var rotate := verified.cmds + RevokeTokenCmds(tok, w.now);
      ReadsChangeNothing(s, w.now, verified.cmds);
      ApplyConcat(s, w.now, verified.cmds, RevokeTokenCmds(tok, w.now));
      KeepsRevokeToken(env, w, s, tok);
      var s1 := ApplyAll(s, w.now, rotate);
      ReadsChangeNothing(s1, w.now, [Select]);
      ApplyConcat(s, w.now, rotate, [Select]);
    }
  }

  /** A request that runs to its end leaves only flags of closed sessions. */
  lemma FaultFreeFlags(cfg: Config, w: World, step: Step)
    requires Inv(cfg, w) && FlagsClosed(w) && Enabled(cfg, w, step) && FaultFree(cfg, w, step)
    ensures FlagsClosed(Next(cfg, w, step))
  {
    hide Core, RequestPlan;
    if step.Serve? {
      var q := step.request;
      var p := RequestPlan(cfg, w, q);
      var s := Left(cfg, w, q, step.budget);
      KeepsIssued(cfg, w, q, step.budget);
      assert Cut(Issued(cfg, w, q).cmds, step.budget) == Issued(cfg, w, q).cmds;
      if p.result.Ok? {
        ApplyConcat(Start(w), w.now, p.cmds, [Commit]);
        var s1 := ApplyAll(Start(w), w.now, p.cmds);
        assert s == Apply(s1, w.now, Commit);
      } else {
        RaisedEven(cfg, w, q);
      }
      assert Even(s);
    }
  }

  ghost predicate FlagsKnownIn(cmds: seq<SessionCommand>, rows: Rows) {
    forall c | c in cmds && c.Set? && c.key.SessionRevoked? :: c.key.sid in rows
  }

  lemma {:induction false} RevokeEachKnown(cfg: Config, now: int, rows: Rows, order: seq<Uuid>, reason: string)
    ensures FlagsKnownIn(RevokeEachCmds(cfg, now, rows, order, reason), rows)
    decreases |order|
  {
    if order != [] {
      RevokeEachKnown(cfg, now, CloseAll(rows, now, order[..1], reason), order[1..], reason);
    }
  }

  lemma HandlerKnown(cfg: Config, now: int, rows: Rows, user: Uuid, current: Option<Uuid>, action: Action)
    ensures FlagsKnownIn(HandlerPlan(cfg, now, rows, user, current, action).cmds, rows)
  {
    hide RevokeEachCmds;
    if action.LogoutAll? {
      RevokeEachKnown(cfg, now, rows, Without(action.order, None), "logout_all");
    }
  }

  lemma AccessKnown(cfg: Config, w: World, cookie: Option<Token>, account: Account, action: Action)
    ensures FlagsKnownIn(AccessPlan(cfg, w.now, w.redis, w.rows, cookie, account, action).cmds, w.rows)
  {
    hide HandlerPlan;
    var auth := AuthPlan(cfg, w.now, w.redis, w.rows, cookie, account);
    AuthKnown(cfg, w, cookie, account);
    if auth.result.Ok? {
      hide AuthPlan;
      SeenRows(cfg, w, cookie, account);
      AuthCookie(cfg, w, cookie, account);
      HandlerKnown(cfg, w.now, Seen(cfg, w, cookie, account), cookie.value.user, auth.result.value, action);
    }
  }

  lemma AuthKnown(cfg: Config, w: World, cookie: Option<Token>, account: Account)
    ensures FlagsKnownIn(AuthPlan(cfg, w.now, w.redis, w.rows, cookie, account).cmds, w.rows)
  {
  }

  lemma RefreshKnown(cfg: Config, w: World, cookie: Option<Token>, mint: Mint)
    ensures FlagsKnownIn(RefreshPlan(cfg, w.now, w.redis, w.rows, cookie, mint).cmds, w.rows)
  {
  }

  /** A request flags no session but one in the table. */
  lemma FlagsKnown(cfg: Config, w: World, q: Request)
    ensures FlagsKnownIn(Issued(cfg, w, q).cmds, w.rows)
  {
    hide AccessPlan, RefreshPlan;
    match q
    case Call(cookie, account, action) => AccessKnown(cfg, w, cookie, account, action);
    case Rotate(cookie, mint) => RefreshKnown(cfg, w, cookie, mint);
    case Login(_, _, _, _) =>
    case Logout(_) =>
  }

  lemma UnknownUnflagged(cfg: Config, w: World, q: Request, budget: nat, sid: Uuid)
    requires sid !in w.rows && SessionRevoked(sid) !in w.redis
    ensures SessionRevoked(sid) !in Left(cfg, w, q, budget).redis
  {
    hide RequestPlan;
    var cut := Cut(Issued(cfg, w, q).cmds, budget);
    FlagsKnown(cfg, w, q);
    forall c | c in cut
      ensures NeverPuts(c, SessionRevoked(sid))
    {
      assert c in Issued(cfg, w, q).cmds;
      CutTouchSets(cfg, w, q, budget, sid);
    }
    StaysAway(Start(w), w.now, cut, SessionRevoked(sid));
  }

  lemma MarkedIsUncommitted(cfg: Config, w: World, q: Request, budget: nat, sid: Uuid)
    requires Possible(cfg, w, q) && sid in w.rows && w.rows[sid].active
    ensures StageAt(cfg, w, q, budget, sid) == Some(Marked) <==> FlagsUncommitted(cfg, w, q, budget, sid)
  {
    hide Issued, Possible, After;
    StageTells(cfg, w, q, budget, sid);
    StageCommits(Open, Cut(Issued(cfg, w, q).cmds, budget), sid, w.rows[sid].jti);
  }

  /** The flags keep pointing to closed sessions exactly if the request is not
      cut between flagging an active session and committing. */
  lemma FlagsExact(cfg: Config, w: World, q: Request, budget: nat)
    requires Inv(cfg, w) && FlagsClosed(w) && Possible(cfg, w, q)
    ensures FlagsClosed(Next(cfg, w, Serve(q, budget))) <==> forall sid :: !FlagsUncommitted(cfg, w, q, budget, sid)
  {
    hide Issued, Possible, FlagsUncommitted;
    var w' := Next(cfg, w, Serve(q, budget));
    InvNext(cfg, w, Serve(q, budget));
    forall sid
      ensures SessionRevoked(sid) in w'.redis && !(sid in w'.rows && !w'.rows[sid].active)
              <==> FlagsUncommitted(cfg, w, q, budget, sid)
    {
      UncommittedActive(cfg, w, q, budget, sid);
      if sid in w.rows && w.rows[sid].active {
        StageTells(cfg, w, q, budget, sid);
        MarkedIsUncommitted(cfg, w, q, budget, sid);
      } else if sid !in w.rows && SessionRevoked(sid) !in w.redis {
        UnknownUnflagged(cfg, w, q, budget, sid);
      }
    }
  }

  lemma UncommittedActive(cfg: Config, w: World, q: Request, budget: nat, sid: Uuid)
    ensures FlagsUncommitted(cfg, w, q, budget, sid) ==> sid in w.rows && w.rows[sid].active
  {
  }

  lemma RaisedEven(cfg: Config, w: World, q: Request)
    requires Inv(cfg, w) && Possible(cfg, w, q) && RequestPlan(cfg, w, q).result.Raised?
    ensures Even(ApplyAll(Start(w), w.now, RequestPlan(cfg, w, q).cmds))
  {
    hide Inv, AuthPlan, RefreshPlan, Even;
    match q
    case Call(_, _, _) => CallEndsEven(cfg, w, q);
    case Rotate(_, _) => RefreshEndsEven(cfg, w, q);
    case Login(_, _, _, _) =>
    case Logout(_) =>
  }

  lemma {:induction false} FaultFreeRunFlags(cfg: Config, w: World, steps: seq<Step>)
    requires Inv(cfg, w) && FlagsClosed(w) && ValidRun(cfg, w, steps) && FaultFreeRun(cfg, w, steps)
    ensures FlagsClosed(Run(cfg, w, steps))
    decreases |steps|
  {
    hide Inv, FlagsClosed;
    if steps != [] {
      InvNext(cfg, w, steps[0]);
      FaultFreeFlags(cfg, w, steps[0]);
      FaultFreeRunFlags(cfg, Next(cfg, w, steps[0]), steps[1..]);
    }
  }

  /** After any fault-free run, asking Redis first gives the verdict of the
      database alone, leaves both stores the same, and accepts exactly the
      sessions that exist, are the caller's, are active, are not past their
      absolute expiry and are not idle. */
  lemma FastPathRefinesDatabase(cfg: Config, w0: World, steps: seq<Step>, sid: Uuid, user: Uuid)
    requires cfg.Sane() && Initial(w0) && ValidRun(cfg, w0, steps) && FaultFreeRun(cfg, w0, steps)
    ensures var w := Run(cfg, w0, steps);
            var fast := ValidatePlan(cfg, w.now, w.redis, w.rows, sid, user);
            var slow := JudgePlan(cfg, w.now, w.redis, w.rows, sid, user);
            && (fast.result.Ok? <==> slow.result.Ok?)
            && ApplyAll(Start(w), w.now, fast.cmds) == ApplyAll(Start(w), w.now, slow.cmds)
            && (fast.result.Ok? <==>
                  Usable(w.rows, sid, user) && w.now < w.rows[sid].expiresAt && !Idle(cfg, w.rows[sid], w.now))
  {
    hide Inv;
    var w := Run(cfg, w0, steps);
    InvInitial(cfg, w0);
    FaultFreeRunFlags(cfg, w0, steps);
    var slow := JudgePlan(cfg, w.now, w.redis, w.rows, sid, user);
    ReadsChangeNothing(Start(w), w.now, [Exists(SessionRevoked(sid))]);
    ApplyConcat(Start(w), w.now, [Exists(SessionRevoked(sid))], slow.cmds);
    if Live(w.redis, SessionRevoked(sid), w.now) {
      ReadsChangeNothing(Start(w), w.now, slow.cmds);
    }
  }

  /** The limit of the refinement: cut a logout just before its commit, and the
      fast path rejects a session the database would still accept. */
  lemma LostLogoutSplitsVerdicts(cfg: Config, w: World, tok: Token)
    requires Reached(cfg, w) && tok in w.delivered && AdmitsAccess(cfg, w, tok, InGoodStanding)
    ensures var q := Call(Some(tok), InGoodStanding, LogoutThis);
            var w' := Next(cfg, w, Serve(q, |Issued(cfg, w, q).cmds| - 1));
            && Possible(cfg, w, q) && tok.sid.Some?
            && w'.rows == w.rows
            && JudgePlan(cfg, w'.now, w'.redis, w'.rows, tok.sid.value, tok.user).result.Ok?
            && ValidatePlan(cfg, w'.now, w'.redis, w'.rows, tok.sid.value, tok.user).result.Raised?
  {
    hide Fine, Inv, RevokeCmds;
    ReachedInv(cfg, w);
    DeliveredOwned(cfg, w, tok);
    var q := Call(Some(tok), InGoodStanding, LogoutThis);
    var env := Around(cfg, w, q);
    var sid := tok.sid.value;
    var auth := AuthPlan(cfg, w.now, w.redis, w.rows, Some(tok), InGoodStanding);
    var s := ApplyAll(Start(w), w.now, auth.cmds);
    AtStart(cfg, w, q);
    KeepsAuth(env, w, Start(w), Some(tok), InGoodStanding);
    SeenRows(cfg, w, Some(tok), InGoodStanding);
    KeepsRevoke(env, w, s, sid, "logout");
    var p := RequestPlan(cfg, w, q);
    assert p.cmds == auth.cmds + RevokeCmds(cfg, w.now, s.working, sid, "logout");
    ApplyConcat(Start(w), w.now, auth.cmds, RevokeCmds(cfg, w.now, s.working, sid, "logout"));
    assert Cut(p.cmds + [Commit], |p.cmds|) == p.cmds;
    RevokeFlagLives(cfg, w.now, s, sid, "logout");
  }

  lemma RevokeFlagLives(cfg: Config, now: int, s: SessionState, sid: Uuid, reason: string)
    requires sid in s.working && cfg.Sane()
    ensures Live(ApplyAll(s, now, RevokeCmds(cfg, now, s.working, sid, reason)).redis, SessionRevoked(sid), now)
  {
    var cmds := RevokeCmds(cfg, now, s.working, sid, reason);
    var n := |cmds| - 1;
    assert cmds == cmds[..n] + [Set(SessionRevoked(sid), Mark, cfg.AbsoluteSeconds())];
    ApplyConcat(s, now, cmds[..n], [Set(SessionRevoked(sid), Mark, cfg.AbsoluteSeconds())]);
  }
}
