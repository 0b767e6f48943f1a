/** What each session request answers and leaves behind when none of its
    commands fails, said in terms of the stores and tokens alone. */
module SessionAnswers {
  import opened Base
  import opened Stores
  import opened SessionPlans
  import opened Protocol
  import opened SessionInvariant
  import opened SessionKeeps
  import opened SessionShape
  import opened SessionTheorems
  import opened SessionStages
  import opened SessionActivity

  /** What the request answers. */
  function Answer(cfg: Config, w: World, q: Request, budget: nat): Attempt<Option<Pair>> {
    Issued(cfg, w, q).Ending(budget)
  }

  // ------------------------------------------------- who is let in

  /** An access token is let in exactly if it is one, has not expired, its
      account is in good standing, and the session it is bound to is not
      flagged, exists, is the user's, is active, is not past its absolute expiry
      and was used within the idle timeout. */
  lemma AdmitsExactly(cfg: Config, w: World, tok: Token, account: Account)
    ensures AdmitsAccess(cfg, w, tok, account) <==>
              && tok.kind == Access && w.now < tok.exp && account == InGoodStanding
              && (tok.sid.Some? ==>
                    var sid := tok.sid.value;
                    && (SessionRevoked(sid) in w.redis && w.redis[SessionRevoked(sid)].deadline.Some?
                        ==> w.redis[SessionRevoked(sid)].deadline.value <= w.now)
                    && (SessionRevoked(sid) in w.redis ==> w.redis[SessionRevoked(sid)].deadline.Some?)
                    && sid in w.rows && w.rows[sid].user == tok.user && w.rows[sid].active
                    && w.now < w.rows[sid].expiresAt
                    && w.now <= w.rows[sid].lastActivity + cfg.idleMinutes * 60)
  {
  }

  // ------------------------------------------------- what is served

  /** The pair a login or refresh is answered with. */
  lemma ServedTokens(cfg: Config, w: World, q: Request, budget: nat)
    requires Answer(cfg, w, q, budget).Ok? && Answer(cfg, w, q, budget).value.Some?
    ensures var Pair(access, refresh) := Answer(cfg, w, q, budget).value.value;
            && access in Next(cfg, w, Serve(q, budget)).delivered && refresh in Next(cfg, w, Serve(q, budget)).delivered
            && access.kind == Access && refresh.kind == Refresh && access.iat == w.now && refresh.iat == w.now
            && access.exp == w.now + cfg.accessMinutes * 60
            && refresh.exp == w.now + 86400 * (if refresh.remember then cfg.rememberDays else cfg.refreshDays)
            && (q.Login? || q.Rotate?) && access.jti == q.mint.access && refresh.jti == q.mint.refresh
            && access.user == refresh.user && access.sid == refresh.sid
            && (q.Login? ==>
                  refresh.user == q.user && refresh.remember == q.remember && refresh.sid == Some(q.mint.sid))
            && (q.Rotate? ==>
                  && q.cookie.Some? && refresh.user == q.cookie.value.user
                  && refresh.remember == q.cookie.value.remember && refresh.sid == q.cookie.value.sid)
  {
    hide RevokeBySidPlan;
  }

  /** An access token is let in for the configured minutes and no longer. */
  lemma AccessTokenExpires(cfg: Config, w: World, q: Request, budget: nat, steps: seq<Step>, account: Account)
    requires Answer(cfg, w, q, budget).Ok? && Answer(cfg, w, q, budget).value.Some?
    ensures var later := Run(cfg, Next(cfg, w, Serve(q, budget)), steps);
            w.now + cfg.accessMinutes * 60 <= later.now ==>
              !AdmitsAccess(cfg, later, Answer(cfg, w, q, budget).value.value.access, account)
  {
    ServedTokens(cfg, w, q, budget);
    var later := Run(cfg, Next(cfg, w, Serve(q, budget)), steps);
    AdmitsExactly(cfg, later, Answer(cfg, w, q, budget).value.value.access, account);
  }

  // ------------------------------------------------- login

  /** A login inserts one row and touches no other. */
  lemma LoginOutcome(cfg: Config, w: World, q: Request, budget: nat)
    requires q.Login? && FaultFree(cfg, w, Serve(q, budget))
    ensures Answer(cfg, w, q, budget).Ok? && Answer(cfg, w, q, budget).value.Some?
    ensures var days := if q.remember then cfg.rememberDays else cfg.refreshDays;
            var span := if days * 86400 <= cfg.absoluteHours * 3600 then days * 86400 else cfg.absoluteHours * 3600;
            Next(cfg, w, Serve(q, budget)).rows
            == w.rows[q.mint.sid := Row(q.user, q.mint.refresh, q.device, w.now, w.now, w.now + span, true, 0, None,
                                        None)]
    ensures Next(cfg, w, Serve(q, budget)).redis
         == w.redis[SessionActive(q.mint.sid) := Entry(Mark, Some(w.now + cfg.idleMinutes * 60))]
  {
    var row := FreshRow(cfg, w.now, q.user, q.mint.refresh, q.remember, q.device);
    var asked: seq<SessionCommand> := if HasAny(w.rows, q.user) then [Select, Select] else [Select];
    var write: SessionCommand := Write(w.rows[q.mint.sid := row]);
    var last: seq<SessionCommand> := [SetActive(cfg, q.mint.sid), Commit];
    var cmds := Issued(cfg, w, q).cmds;
    assert cmds == asked + [write] + last && Cut(cmds, budget) == cmds;
    ApplyConcat(Start(w), w.now, asked + [write], last);
    ApplyConcat(Start(w), w.now, asked, [write]);
    ReadsChangeNothing(Start(w), w.now, asked);
    ApplyOne(Start(w), w.now, write);
    ApplyTwo(ApplyAll(Start(w), w.now, asked + [write]), w.now, last[0], last[1]);
  }

  /** The lifetime fixed at login is the lifetime in every later world. */
  lemma LifetimeFixed(cfg: Config, w: World, q: Request, budget: nat, steps: seq<Step>)
    requires Inv(cfg, w) && q.Login? && Possible(cfg, w, q) && FaultFree(cfg, w, Serve(q, budget))
    requires ValidRun(cfg, Next(cfg, w, Serve(q, budget)), steps)
    ensures var later := Run(cfg, Next(cfg, w, Serve(q, budget)), steps);
            var days := if q.remember then cfg.rememberDays else cfg.refreshDays;
            && q.mint.sid in later.rows && later.rows[q.mint.sid].user == q.user
            && later.rows[q.mint.sid].loginAt == w.now
            && later.rows[q.mint.sid].expiresAt == w.now + Min(days * 86400, cfg.absoluteHours * 3600)
  {
    hide Core;
    LoginOutcome(cfg, w, q, budget);
    InvNext(cfg, w, Serve(q, budget));
    InvRun(cfg, Next(cfg, w, Serve(q, budget)), steps);
  }

  /** A device is reported as new exactly to a user who has signed in before,
      and never from one of the same browser, system and kind. */
  lemma NewDeviceExactly(cfg: Config, now: int, rows: Rows, user: Uuid, sid: Uuid, jti: Uuid, remember: bool,
                         device: Device)
    ensures CreatePlan(cfg, now, rows, user, sid, jti, remember, device).result
         == Ok((exists other | other in rows :: rows[other].user == user)
               && forall other | other in rows && rows[other].user == user ::
                    !(rows[other].device.browser == device.browser && rows[other].device.system == device.system
                      && rows[other].device.kind == device.kind))
  {
    assert HasAny(rows, user) <==> exists other | other in rows :: rows[other].user == user;
  }

  // ------------------------------------------------- closing one session

  lemma CloseOne(rows: Rows, now: int, sid: Uuid, reason: string)
    requires sid in rows
    ensures CloseAll(rows, now, [sid], reason)
         == rows[sid := rows[sid].(active := false, logoutAt := Some(now), reason := Some(reason))]
  {
  }

  lemma CommitLast(s: SessionState, now: int, cmds: seq<SessionCommand>)
    ensures ApplyAll(s, now, cmds + [Commit]) == Apply(ApplyAll(s, now, cmds), now, Commit)
  {
    ApplyConcat(s, now, cmds, [Commit]);
    ApplyOne(ApplyAll(s, now, cmds), now, Commit);
  }

  /** What `/logout` looks at: an unexpired refresh token that is not blacklisted. */
  predicate Presentable(w: World, cookie: Option<Token>) {
    && cookie.Some? && cookie.value.kind == Refresh && w.now < cookie.value.exp
    && !Live(w.redis, RevokedJti(cookie.value.jti), w.now)
  }

  /** Logging out always answers Ok. A token that is absent, expired, of another
      kind or blacklisted changes nothing; any other is blacklisted, and closes
      its session, if that is active, for good. */
  lemma LogoutOutcome(cfg: Config, w: World, cookie: Option<Token>, budget: nat)
    requires Inv(cfg, w) && Possible(cfg, w, Logout(cookie)) && FaultFree(cfg, w, Serve(Logout(cookie), budget))
    ensures Answer(cfg, w, Logout(cookie), budget) == Ok(None)
    ensures var w' := Next(cfg, w, Serve(Logout(cookie), budget));
            if !Presentable(w, cookie) then w'.redis == w.redis && w'.rows == w.rows
            else
              var t := cookie.value;
              && t.sid.Some? && t.sid.value in w.rows && RevokedJti(t.jti) in w'.redis
              && w'.rows == if w.rows[t.sid.value].active
                            then w.rows[t.sid.value := w.rows[t.sid.value].(active := false, logoutAt := Some(w.now),
                                                                           reason := Some("logout"))]
                            else w.rows
  {
    hide Core, Fine;
    var q, s := Logout(cookie), Start(w);
    var p := RequestPlan(cfg, w, q);
    var verified := VerifyRefreshPlan(w.redis, cookie, w.now);
    assert Cut(p.cmds + [Commit], budget) == p.cmds + [Commit];
    CommitLast(s, w.now, p.cmds);
    if !Presentable(w, cookie) {
      ReadsChangeNothing(s, w.now, p.cmds);
    } else {
      LogoutCloses(cfg, w, cookie.value);
    }
  }

  lemma LogoutCloses(cfg: Config, w: World, t: Token)
    requires Inv(cfg, w) && t in w.delivered && Presentable(w, Some(t))
    ensures var s := ApplyAll(Start(w), w.now, RequestPlan(cfg, w, Logout(Some(t))).cmds);
            && t.sid.Some? && t.sid.value in w.rows && RevokedJti(t.jti) in s.redis
            && s.working == if w.rows[t.sid.value].active
                            then w.rows[t.sid.value := w.rows[t.sid.value].(active := false, logoutAt := Some(w.now),
                                                                           reason := Some("logout"))]
                            else w.rows
  {
    hide Core, Fine, RevokeCmds;
    DeliveredOwned(cfg, w, t);
    var q, s, sid := Logout(Some(t)), Start(w), t.sid.value;
    var env := Around(cfg, w, q);
    var ex: seq<SessionCommand> := [Exists(RevokedJti(t.jti))];
    var bl := RevokeTokenCmds(t, w.now);
    var kill := RevokeBySidPlan(cfg, w.now, w.rows, sid, "logout").cmds;
    LogoutIssues(cfg, w, t);
    hide RequestPlan;
    AtStart(cfg, w, q);
    KeepsRevokeToken(env, w, s, t);
    ReadsChangeNothing(s, w.now, ex);
    ApplyConcat(s, w.now, ex, bl);
    ApplyConcat(s, w.now, ex + bl, kill);
    var s1 := ApplyAll(s, w.now, bl);
    if w.rows[sid].active {
      KeepsSelectRevoke(env, w, s1, [sid], "logout");
      RevokeEachOne(cfg, w.now, w.rows, sid, "logout");
      CloseOne(w.rows, w.now, sid, "logout");
    } else {
      ReadsChangeNothing(s1, w.now, kill);
    }
    hide CloseAll;
    RedisKept(s1, w.now, kill, t.jti);
  }

  lemma LogoutIssues(cfg: Config, w: World, t: Token)
    requires Presentable(w, Some(t)) && t.sid.Some? && t.sid.value in w.rows
    ensures var sid := t.sid.value;
            var kill := RevokeBySidPlan(cfg, w.now, w.rows, sid, "logout").cmds;
            && RequestPlan(cfg, w, Logout(Some(t))).cmds
               == [Exists(RevokedJti(t.jti))] + RevokeTokenCmds(t, w.now) + kill
            && kill == [Select] + (if w.rows[sid].active then RevokeCmds(cfg, w.now, w.rows, sid, "logout") else [])
            && forall c | c in kill && c.Delete? :: !c.key.RevokedJti?
  {
  }

  /** So after logging out with the session's live refresh token, nothing of
      that session is ever let in again. */
  lemma LogoutShutsOut(cfg: Config, w: World, t: Token, budget: nat, steps: seq<Step>)
    requires Reached(cfg, w) && t in w.delivered && LiveRefresh(w, t)
    requires FaultFree(cfg, w, Serve(Logout(Some(t)), budget))
    ensures var w' := Next(cfg, w, Serve(Logout(Some(t)), budget));
            && RevokedJti(t.jti) in w'.redis && t.sid.value in w'.rows && !w'.rows[t.sid.value].active
            && (forall sid | sid in w.rows && sid != t.sid.value :: sid in w'.rows && w'.rows[sid] == w.rows[sid])
            && (ValidRun(cfg, w', steps) ==> ShutOut(cfg, Run(cfg, w', steps), t.sid.value))
  {
    hide Inv;
    var w' := Next(cfg, w, Serve(Logout(Some(t)), budget));
    ReachedInv(cfg, w);
    LogoutOutcome(cfg, w, Some(t), budget);
    InvNext(cfg, w, Serve(Logout(Some(t)), budget));
    if ValidRun(cfg, w', steps) {
      DoomedForever(cfg, w', t.sid.value, steps);
    }
  }

  // ------------------------------------------------- refresh

  lemma RotateIssues(cfg: Config, w: World, t: Token, mint: Mint)
    requires AdmitsRefresh(cfg, w, t, mint) && t.sid.Some?
    ensures var issued, sid := Issued(cfg, w, Rotate(Some(t), mint)), t.sid.value;
            var rotate := RotatePlan(cfg, w.redis, Some(t), mint, w.now).cmds;
            && sid in w.rows && issued.result == Ok(Some(IssuePair(cfg, w.now, t.user, t.remember, t.sid, mint)))
            && issued.cmds == rotate + [Select]
                              + [Write(w.rows[sid := w.rows[sid].(jti := mint.refresh, lastActivity := w.now)])]
                              + [SetActive(cfg, sid), Commit]
            && forall c | c in issued.cmds :: NeverPuts(c, SessionRevoked(sid))
  {
  }

  lemma RotateTables(cfg: Config, w: World, t: Token, mint: Mint, budget: nat)
    requires AdmitsRefresh(cfg, w, t, mint) && t.sid.Some? && FaultFree(cfg, w, Serve(Rotate(Some(t), mint), budget))
    ensures t.sid.value in w.rows
    ensures Next(cfg, w, Serve(Rotate(Some(t), mint), budget)).rows
         == w.rows[t.sid.value := w.rows[t.sid.value].(jti := mint.refresh, lastActivity := w.now)]
  {
    var q, sid := Rotate(Some(t), mint), t.sid.value;
    var cmds := Issued(cfg, w, q).cmds;
    RotateIssues(cfg, w, t, mint);
    hide Issued, AdmitsRefresh;
    var asked: seq<SessionCommand> := RotatePlan(cfg, w.redis, Some(t), mint, w.now).cmds + [Select];
    var write: SessionCommand := Write(w.rows[sid := w.rows[sid].(jti := mint.refresh, lastActivity := w.now)]);
    var last: seq<SessionCommand> := [SetActive(cfg, sid), Commit];
    hide RotatePlan;
    assert Cut(cmds, budget) == cmds;
    ApplyConcat(Start(w), w.now, asked + [write], last);
    LastWrite(Start(w), w.now, asked, write);
    ApplyTwo(ApplyAll(Start(w), w.now, asked + [write]), w.now, last[0], last[1]);
  }

  /** Whatever is presented to `/refresh`: a live token is exchanged and its
      session renamed; an unexpired blacklisted one closes its session; an
      unexpired one of a closed session is refused; anything else is refused and
      changes nothing. A presented unexpired token ends up blacklisted. */
  lemma RefreshOutcome(cfg: Config, w: World, cookie: Option<Token>, mint: Mint, budget: nat)
    requires Inv(cfg, w) && Possible(cfg, w, Rotate(cookie, mint))
    requires FaultFree(cfg, w, Serve(Rotate(cookie, mint), budget))
    ensures var w' := Next(cfg, w, Serve(Rotate(cookie, mint), budget));
            var answer := Answer(cfg, w, Rotate(cookie, mint), budget);
            if !(cookie.Some? && cookie.value.kind == Refresh && w.now < cookie.value.exp) then
              answer == Raised(AuthError) && w'.redis == w.redis && w'.rows == w.rows
            else
              var t := cookie.value;
              && t.sid.Some? && t.sid.value in w.rows && RevokedJti(t.jti) in w'.redis
              && var sid := t.sid.value;
                 if !w.rows[sid].active then answer == Raised(AuthError) && w'.rows == w.rows
                 else if Live(w.redis, RevokedJti(t.jti), w.now) then
                   && answer == Raised(AuthError)
                   && w'.rows == w.rows[sid := w.rows[sid].(active := false, logoutAt := Some(w.now),
                                                            reason := Some("refresh_replay"))]
                 else
                   && answer.Ok? && answer.value.Some?
                   && w'.rows == w.rows[sid := w.rows[sid].(jti := mint.refresh, lastActivity := w.now)]
  {
    hide Core, Fine;
    var q := Rotate(cookie, mint);
    if !(cookie.Some? && cookie.value.kind == Refresh && w.now < cookie.value.exp) {
      assert Issued(cfg, w, q) == Plan([], Raised(AuthError));
      assert Cut(Issued(cfg, w, q).cmds, budget) == [];
    } else {
      var t := cookie.value;
      DeliveredOwned(cfg, w, t);
      PresentedIsSpent(cfg, w, t, mint, budget);
      RefreshAccepts(cfg, w, t, mint);
      if Live(w.redis, RevokedJti(t.jti), w.now) {
        ReplayOutcome(cfg, w, t, mint, budget);
      } else if w.rows[t.sid.value].active {
        RotateTables(cfg, w, t, mint, budget);
        RotateIssues(cfg, w, t, mint);
      } else {
        RefusedOutcome(cfg, w, t, mint, budget);
      }
    }
  }

  lemma ReplayOutcome(cfg: Config, w: World, t: Token, mint: Mint, budget: nat)
    requires Inv(cfg, w) && Possible(cfg, w, Rotate(Some(t), mint))
    requires FaultFree(cfg, w, Serve(Rotate(Some(t), mint), budget))
    requires t.kind == Refresh && w.now < t.exp && Live(w.redis, RevokedJti(t.jti), w.now)
    requires t.sid.Some? && t.sid.value in w.rows
    ensures Answer(cfg, w, Rotate(Some(t), mint), budget) == Raised(AuthError)
    ensures var sid := t.sid.value;
            Next(cfg, w, Serve(Rotate(Some(t), mint), budget)).rows
            == if !w.rows[sid].active then w.rows
               else w.rows[sid := w.rows[sid].(active := false, logoutAt := Some(w.now), reason :=
                                               Some("refresh_replay"))]
  {
    hide Core, Fine;
    var q, env := Rotate(Some(t), mint), Around(cfg, w, Rotate(Some(t), mint));
    var ex: seq<SessionCommand> := [Exists(RevokedJti(t.jti))];
    var kill := ReplayCmds(cfg, w.now, w.rows, t);
    assert Issued(cfg, w, q) == Plan(ex + kill, Raised(AuthError));
    assert Cut(ex + kill, budget) == ex + kill;
    AtStart(cfg, w, q);
    KeepsReplay(env, w, Start(w), t);
    ApplyConcat(Start(w), w.now, ex, kill);
    ReadsChangeNothing(Start(w), w.now, ex);
    CloseOne(w.rows, w.now, t.sid.value, "refresh_replay");
  }

  lemma RefusedOutcome(cfg: Config, w: World, t: Token, mint: Mint, budget: nat)
    requires FaultFree(cfg, w, Serve(Rotate(Some(t), mint), budget))
    requires t.kind == Refresh && w.now < t.exp && !Live(w.redis, RevokedJti(t.jti), w.now)
    requires t.sid.Some? && t.sid.value in w.rows && !w.rows[t.sid.value].active
    ensures Answer(cfg, w, Rotate(Some(t), mint), budget) == Raised(AuthError)
    ensures Next(cfg, w, Serve(Rotate(Some(t), mint), budget)).rows == w.rows
  {
    var cmds := Issued(cfg, w, Rotate(Some(t), mint)).cmds;
    assert Issued(cfg, w, Rotate(Some(t), mint)).result == Raised(AuthError);
    assert Cut(cmds, budget) == cmds;
    NoCommits(Start(w), w.now, cmds);
  }

  // ------------------------------------------------- authenticated routes

  /** What an access token that was let in finds: the rows, with its own
      activity recorded unless it was throttled. */
  function Found(w: World, tok: Token): Rows {
    if tok.sid.None? || tok.sid.value !in w.rows || Live(w.redis, SessionTouch(tok.sid.value), w.now) then w.rows
    else
      w.rows[tok.sid.value := w.rows[tok.sid.value].(lastActivity := w.now,
                                                      requests := w.rows[tok.sid.value].requests + 1)]
  }

  lemma CallTables(cfg: Config, w: World, tok: Token, action: Action, budget: nat) returns (handled: SessionPlan<nat>)
    requires Inv(cfg, w) && Possible(cfg, w, Call(Some(tok), InGoodStanding, action))
    requires FaultFree(cfg, w, Serve(Call(Some(tok), InGoodStanding, action), budget))
    requires AdmitsAccess(cfg, w, tok, InGoodStanding) && tok.sid.Some?
    ensures handled == HandlerPlan(cfg, w.now, Found(w, tok), tok.user, tok.sid, action)
    ensures tok.sid.value in w.rows
    ensures Answer(cfg, w, Call(Some(tok), InGoodStanding, action), budget) == Yielding(handled.result, None)
    ensures Next(cfg, w, Serve(Call(Some(tok), InGoodStanding, action), budget)).rows
         == if handled.result.Ok?
            then ApplyAll(ApplyAll(Start(w), w.now,
                                   AuthPlan(cfg, w.now, w.redis, w.rows, Some(tok), InGoodStanding).cmds),
                          w.now, handled.cmds).working
            else w.rows
    ensures var s := ApplyAll(Start(w), w.now, AuthPlan(cfg, w.now, w.redis, w.rows, Some(tok), InGoodStanding).cmds);
            s.working == Found(w, tok) && Midway(Around(cfg, w, Call(Some(tok), InGoodStanding, action)), w, s)
  {
    hide Core, Fine, ValidatePlan, HandlerPlan;
    var q := Call(Some(tok), InGoodStanding, action);
    var auth := AuthPlan(cfg, w.now, w.redis, w.rows, Some(tok), InGoodStanding);
    SeenRows(cfg, w, Some(tok), InGoodStanding);
    var seen := Seen(cfg, w, Some(tok), InGoodStanding);
    assert seen == Found(w, tok);
    handled := HandlerPlan(cfg, w.now, seen, tok.user, auth.result.value, action);
    var s := ApplyAll(Start(w), w.now, auth.cmds);
    AtStart(cfg, w, q);
    KeepsAuth(Around(cfg, w, q), w, Start(w), Some(tok), InGoodStanding);
    assert auth.result.value == tok.sid;
    var p := RequestPlan(cfg, w, q);
    assert p.cmds == auth.cmds + handled.cmds;
    ApplyConcat(Start(w), w.now, auth.cmds, handled.cmds);
    assert Cut(Issued(cfg, w, q).cmds, budget) == Issued(cfg, w, q).cmds;
    if handled.result.Ok? {
      CommitLast(Start(w), w.now, p.cmds);
    } else {
      CountedRequest(cfg, w, q, budget);
    }
  }

  /** Revoking one session by its id: NotFound, and no change at all, exactly if
      it is not a session of the caller; otherwise Ok, the session is closed, a
      closed one left as it was, and no other session but for the caller's own
      activity is touched. */
  lemma RevokeOneOutcome(cfg: Config, w: World, tok: Token, target: Uuid, budget: nat)
    requires Inv(cfg, w) && Possible(cfg, w, Call(Some(tok), InGoodStanding, RevokeOne(target)))
    requires FaultFree(cfg, w, Serve(Call(Some(tok), InGoodStanding, RevokeOne(target)), budget))
    requires AdmitsAccess(cfg, w, tok, InGoodStanding) && tok.sid.Some?
    ensures var q := Call(Some(tok), InGoodStanding, RevokeOne(target));
            var w', rows := Next(cfg, w, Serve(q, budget)), Found(w, tok);
            if !(target in w.rows && w.rows[target].user == tok.user)
            then Answer(cfg, w, q, budget) == Raised(NotFound) && w'.rows == w.rows
            else
              && Answer(cfg, w, q, budget) == Ok(None) && target in rows
              && w'.rows == if rows[target].active
                            then rows[target := rows[target].(active := false, logoutAt := Some(w.now),
                                                              reason := Some("revoked_by_user"))]
                            else rows
  {
    hide Core, Fine, AuthPlan, AdmitsAccess;
    var q := Call(Some(tok), InGoodStanding, RevokeOne(target));
    var handled := CallTables(cfg, w, tok, RevokeOne(target), budget);
    var s := ApplyAll(Start(w), w.now, AuthPlan(cfg, w.now, w.redis, w.rows, Some(tok), InGoodStanding).cmds);
    var rows := Found(w, tok);
    assert target in rows <==> target in w.rows;
    if target in rows && rows[target].user == tok.user {
      if rows[target].active {
        KeepsSelectRevoke(Around(cfg, w, q), w, s, [target], "revoked_by_user");
        RevokeEachOne(cfg, w.now, rows, target, "revoked_by_user");
        CloseOne(rows, w.now, target, "revoked_by_user");
      } else {
        ReadsChangeNothing(s, w.now, handled.cmds);
      }
    }
  }

  /** Logging out the current session closes it and touches no other. */
  lemma LogoutThisOutcome(cfg: Config, w: World, tok: Token, budget: nat)
    requires Inv(cfg, w) && Possible(cfg, w, Call(Some(tok), InGoodStanding, LogoutThis))
    requires FaultFree(cfg, w, Serve(Call(Some(tok), InGoodStanding, LogoutThis), budget))
    requires AdmitsAccess(cfg, w, tok, InGoodStanding) && tok.sid.Some?
    ensures var q, sid := Call(Some(tok), InGoodStanding, LogoutThis), tok.sid.value;
            var w', rows := Next(cfg, w, Serve(q, budget)), Found(w, tok);
            && Answer(cfg, w, q, budget) == Ok(None) && sid in rows
            && w'.rows == rows[sid := rows[sid].(active := false, logoutAt := Some(w.now), reason := Some("logout"))]
  {
    hide Core, Fine, AuthPlan, AdmitsAccess;
    var q, sid := Call(Some(tok), InGoodStanding, LogoutThis), tok.sid.value;
    var handled := CallTables(cfg, w, tok, LogoutThis, budget);
    var s := ApplyAll(Start(w), w.now, AuthPlan(cfg, w.now, w.redis, w.rows, Some(tok), InGoodStanding).cmds);
    KeepsRevokeMaybe(Around(cfg, w, q), w, s, sid, "logout");
    CloseOne(Found(w, tok), w.now, sid, "logout");
  }

  /** A request that is not let in, because of its token, its account or its
      session, is answered AuthError whatever it was for. */
  lemma RefusedCall(cfg: Config, w: World, cookie: Option<Token>, account: Account, action: Action, budget: nat)
    requires cookie.None? || !AdmitsAccess(cfg, w, cookie.value, account)
    requires FaultFree(cfg, w, Serve(Call(cookie, account, action), budget))
    ensures Answer(cfg, w, Call(cookie, account, action), budget) == Raised(AuthError)
  {
    assert cookie.Some? ==> cookie == Some(cookie.value);
  }

  /** Logging out everywhere: the caller's active sessions are closed, with time
      and reason, and no other row but for the caller's own activity is touched. */
  lemma LogoutAllOutcome(cfg: Config, w: World, tok: Token, order: seq<Uuid>, budget: nat)
    requires Inv(cfg, w) && Possible(cfg, w, Call(Some(tok), InGoodStanding, LogoutAll(order)))
    requires FaultFree(cfg, w, Serve(Call(Some(tok), InGoodStanding, LogoutAll(order)), budget))
    requires AdmitsAccess(cfg, w, tok, InGoodStanding) && tok.sid.Some?
    ensures var q := Call(Some(tok), InGoodStanding, LogoutAll(order));
            var w', rows := Next(cfg, w, Serve(q, budget)), Found(w, tok);
            && Answer(cfg, w, q, budget) == Ok(None)
            && w'.rows.Keys == rows.Keys
            && forall sid | sid in rows ::
                 w'.rows[sid] == if rows[sid].user == tok.user && rows[sid].active
                                 then rows[sid].(active := false, logoutAt := Some(w.now), reason := Some("logout_all"))
                                 else rows[sid]
  {
    hide Core, Fine;
    var q := Call(Some(tok), InGoodStanding, LogoutAll(order));
    var handled := CallTables(cfg, w, tok, LogoutAll(order), budget);
    LogoutAllAdmitted(cfg, w, tok, order);
    LogoutAllCommits(cfg, w, tok, InGoodStanding, order, budget);
    SeenRows(cfg, w, Some(tok), InGoodStanding);
    var seen := Seen(cfg, w, Some(tok), InGoodStanding);
    assert seen == Found(w, tok) && Listing(seen, tok.user, order);
    hide Found, AuthPlan, AdmitsAccess, HandlerPlan;
    forall sid | sid in seen
      ensures sid in order <==> seen[sid].user == tok.user && seen[sid].active
    {
      assert sid in order <==> Usable(seen, sid, tok.user);
    }
  }

  lemma LogoutAllAdmitted(cfg: Config, w: World, tok: Token, order: seq<Uuid>)
    requires AdmitsAccess(cfg, w, tok, InGoodStanding) && tok.sid.Some?
    ensures AccessPlan(cfg, w.now, w.redis, w.rows, Some(tok), InGoodStanding, LogoutAll(order)).result.Ok?
  {
    hide ValidatePlan, RevokeEachCmds;
    assert AuthPlan(cfg, w.now, w.redis, w.rows, Some(tok), InGoodStanding).result.value == tok.sid;
  }

  // ------------------------------------------------- the stores, entry by entry

  /** All that revoking a session does: its refresh token is blacklisted for the
      longest lifetime one can have, the row is closed, the two activity keys are
      gone and the session is flagged for the absolute lifetime. */
  lemma RevokeLeaves(cfg: Config, now: int, s: SessionState, sid: Uuid, reason: string)
    requires cfg.Sane() && sid in s.working
    ensures ApplyAll(s, now, RevokeCmds(cfg, now, s.working, sid, reason))
         == State((s.redis[RevokedJti(s.working[sid].jti) := Entry(Mark, Some(now + 86400 * cfg.rememberDays))]
                   - {SessionActive(sid), SessionTouch(sid)})
                  [SessionRevoked(sid) := Entry(Mark, Some(now + 3600 * cfg.absoluteHours))],
                  s.working[sid := s.working[sid].(active := false, logoutAt := Some(now), reason := Some(reason))],
                  s.committed)
  {
    var row := s.working[sid];
    var a: seq<SessionCommand> := [Set(RevokedJti(row.jti), Mark, cfg.RefreshSeconds(true)),
                                   Write(s.working[sid := Closed(row, now, reason)])];
    assert RevokeCmds(cfg, now, s.working, sid, reason) == a + ClearCacheCmds(cfg, sid, true);
    ApplyConcat(s, now, a, ClearCacheCmds(cfg, sid, true));
    ApplyTwo(s, now, a[0], a[1]);
    ClearLeaves(cfg, now, ApplyAll(s, now, a), sid);
  }

  lemma ClearLeaves(cfg: Config, now: int, s: SessionState, sid: Uuid)
    ensures ApplyAll(s, now, ClearCacheCmds(cfg, sid, true))
         == s.(redis := (s.redis - {SessionActive(sid), SessionTouch(sid)})
                        [SessionRevoked(sid) := Entry(Mark, Some(now + 3600 * cfg.absoluteHours))])
  {
    var a: seq<SessionCommand> := [Delete(SessionActive(sid)), Delete(SessionTouch(sid))];
    var b: SessionCommand := Set(SessionRevoked(sid), Mark, cfg.AbsoluteSeconds());
    assert ClearCacheCmds(cfg, sid, true) == a + [b];
    ApplyConcat(s, now, a, [b]);
    ApplyTwo(s, now, a[0], a[1]);
    ApplyOne(ApplyAll(s, now, a), now, b);
    assert s.redis - {SessionActive(sid)} - {SessionTouch(sid)} == s.redis - {SessionActive(sid), SessionTouch(sid)};
  }

  /** All that an expiry does. */
  lemma ExpireLeaves(cfg: Config, now: int, s: SessionState, sid: Uuid, reason: string)
    requires sid in s.working
    ensures var rows := s.working[sid :=
                                  s.working[sid].(active := false, logoutAt := Some(now), reason := Some(reason))];
            ApplyAll(s, now, ExpireCmds(cfg, now, s.working, sid, reason))
            == State((s.redis - {SessionActive(sid), SessionTouch(sid)})
                     [SessionRevoked(sid) := Entry(Mark, Some(now + 3600 * cfg.absoluteHours))], rows, rows)
  {
    var a: seq<SessionCommand> := [Write(s.working[sid := Closed(s.working[sid], now, reason)]), Commit];
    assert ExpireCmds(cfg, now, s.working, sid, reason) == a + ClearCacheCmds(cfg, sid, true);
    ApplyConcat(s, now, a, ClearCacheCmds(cfg, sid, true));
    ApplyTwo(s, now, a[0], a[1]);
    ClearLeaves(cfg, now, ApplyAll(s, now, a), sid);
  }

  /** All that recording activity does: nothing while throttled. */
  lemma TouchLeaves(cfg: Config, now: int, s: SessionState, sid: Uuid)
    requires sid in s.working
    ensures ApplyAll(s, now, TouchCmds(cfg, now, s.redis, s.working, sid))
         == if Live(s.redis, SessionTouch(sid), now) then s
            else State(s.redis[SessionTouch(sid) := Entry(Mark, Some(now + cfg.throttleSeconds))]
                              [SessionActive(sid) := Entry(Mark, Some(now + cfg.idleMinutes * 60))],
                       s.working[sid := s.working[sid].(lastActivity := now, requests := s.working[sid].requests + 1)],
                       s.committed)
  {
    if Live(s.redis, SessionTouch(sid), now) {
      ReadsChangeNothing(s, now, TouchCmds(cfg, now, s.redis, s.working, sid));
    } else {
      var a: seq<SessionCommand> := [Exists(SessionTouch(sid)), Write(Touched(s.working, now, sid))];
      var b: seq<SessionCommand> := [Set(SessionTouch(sid), Mark, cfg.throttleSeconds), SetActive(cfg, sid)];
      assert TouchCmds(cfg, now, s.redis, s.working, sid) == a + b;
      ApplyConcat(s, now, a, b);
      ApplyTwo(s, now, a[0], a[1]);
      ApplyTwo(ApplyAll(s, now, a), now, b[0], b[1]);
    }
  }

  /** What a refresh that goes through leaves in Redis: the presented token is
      blacklisted to the second it expires, and the session is marked active. */
  lemma RefreshLeaves(cfg: Config, w: World, t: Token, mint: Mint, budget: nat)
    requires AdmitsRefresh(cfg, w, t, mint) && t.sid.Some? && FaultFree(cfg, w, Serve(Rotate(Some(t), mint), budget))
    ensures Next(cfg, w, Serve(Rotate(Some(t), mint), budget)).redis
         == w.redis[RevokedJti(t.jti) := Entry(Mark, Some(t.exp))]
                   [SessionActive(t.sid.value) := Entry(Mark, Some(w.now + cfg.idleMinutes * 60))]
  {
    var q, sid := Rotate(Some(t), mint), t.sid.value;
    var cmds := Issued(cfg, w, q).cmds;
    RotateIssues(cfg, w, t, mint);
    RotateStarts(cfg, w, t, mint);
    hide Issued, AdmitsRefresh, RotatePlan;
    var a: seq<SessionCommand> := [Exists(RevokedJti(t.jti)), Set(RevokedJti(t.jti), Mark, t.exp - w.now)];
    var write: SessionCommand := Write(w.rows[sid := w.rows[sid].(jti := mint.refresh, lastActivity := w.now)]);
    var b: seq<SessionCommand> := [Select, write];
    var c: seq<SessionCommand> := [SetActive(cfg, sid), Commit];
    assert cmds == a + b + c && Cut(cmds, budget) == cmds;
    ApplyConcat(Start(w), w.now, a + b, c);
    ApplyConcat(Start(w), w.now, a, b);
    ApplyTwo(Start(w), w.now, a[0], a[1]);
    var s1 := ApplyAll(Start(w), w.now, a);
    assert s1.redis == w.redis[RevokedJti(t.jti) := Entry(Mark, Some(t.exp))];
    ApplyTwo(s1, w.now, b[0], b[1]);
    var s2 := ApplyAll(s1, w.now, b);
    assert s2.redis == s1.redis;
    ApplyTwo(s2, w.now, c[0], c[1]);
  }

  lemma RotateStarts(cfg: Config, w: World, t: Token, mint: Mint)
    requires AdmitsRefresh(cfg, w, t, mint)
    ensures RotatePlan(cfg, w.redis, Some(t), mint, w.now).cmds
         == [Exists(RevokedJti(t.jti)), Set(RevokedJti(t.jti), Mark, t.exp - w.now)]
  {
  }
}
