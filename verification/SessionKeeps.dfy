/** Every request keeps the invariant, wherever it is cut. */
module SessionKeeps {
  import opened Base
  import opened Stores
  import opened SessionPlans
  import opened Protocol
  import opened SessionInvariant

  /** The transaction has not renamed any session's refresh token. */
  ghost predicate Aligned(s: SessionState) {
    forall sid | sid in s.working ::
      sid in s.committed && s.working[sid].jti == s.committed[sid].jti
  }

  ghost predicate Keeps(env: Env, w: World, s: SessionState, cmds: seq<SessionCommand>) {
    Throughout(FineAt(env, w), s, env.now, cmds)
  }

  lemma KeepsOne(env: Env, w: World, s: SessionState, c: SessionCommand)
    requires Fine(env, w, s) && Fine(env, w, Apply(s, env.now, c))
    ensures Keeps(env, w, s, [c])
    ensures ApplyAll(s, env.now, [c]) == Apply(s, env.now, c)
  {
    hide Fine;
    ThroughoutOne(FineAt(env, w), s, env.now, c);
  }

  lemma KeepsThen(env: Env, w: World, s: SessionState, a: seq<SessionCommand>, b: seq<SessionCommand>)
    requires Keeps(env, w, s, a) && Keeps(env, w, ApplyAll(s, env.now, a), b)
    ensures Keeps(env, w, s, a + b)
    ensures ApplyAll(s, env.now, a + b) == ApplyAll(ApplyAll(s, env.now, a), env.now, b)
  {
    ThroughoutConcat(FineAt(env, w), s, env.now, a, b);
    ApplyConcat(s, env.now, a, b);
  }

  lemma {:induction false} KeepsFine(env: Env, w: World, s: SessionState, cmds: seq<SessionCommand>)
    requires Keeps(env, w, s, cmds)
    ensures Fine(env, w, ApplyAll(s, env.now, cmds))
  {
    hide Fine;
    ThroughoutCut(FineAt(env, w), s, env.now, cmds, |cmds|);
    assert Cut(cmds, |cmds|) == cmds;
  }

  /** Commands that leave the tables, the blacklist and the flags alone. */
  lemma {:induction false} KeepsQuiet(env: Env, w: World, s: SessionState, cmds: seq<SessionCommand>)
    requires Fine(env, w, s)
    requires forall c | c in cmds :: Harmless(c, env.minted) && !c.Commit?
    ensures Keeps(env, w, s, cmds)
    ensures var s' := ApplyAll(s, env.now, cmds);
            && s'.working == s.working && s'.committed == s.committed && Fine(env, w, s')
            && (forall jti :: RevokedJti(jti) in s'.redis <==> RevokedJti(jti) in s.redis)
            && (forall sid :: SessionRevoked(sid) in s'.redis <==> SessionRevoked(sid) in s.redis)
    decreases |cmds|
  {
    hide Fine;
    if cmds != [] {
      KeepsHarmless(env, w, s, cmds[0]);
      KeepsQuiet(env, w, Apply(s, env.now, cmds[0]), cmds[1..]);
    }
  }

  lemma KeepsClearCache(env: Env, w: World, s: SessionState, sid: Uuid)
    requires Fine(env, w, s) && sid in s.working && sid in s.committed && !s.working[sid].active
    requires s.committed[sid].active ==> RevokedJti(s.committed[sid].jti) in s.redis
    ensures Keeps(env, w, s, ClearCacheCmds(env.cfg, sid, true))
    ensures var s' := ApplyAll(s, env.now, ClearCacheCmds(env.cfg, sid, true));
            s'.working == s.working && s'.committed == s.committed && SessionRevoked(sid) in s'.redis
  {
    hide Fine;
    var dels: seq<SessionCommand> := [Delete(SessionActive(sid)), Delete(SessionTouch(sid))];
    var flag: SessionCommand := Set(SessionRevoked(sid), Mark, env.cfg.AbsoluteSeconds());
    KeepsQuiet(env, w, s, dels);
    var s1 := ApplyAll(s, env.now, dels);
    KeepsFlag(env, w, s1, sid);
    KeepsOne(env, w, s1, flag);
    KeepsThen(env, w, s, dels, [flag]);
    assert ApplyAll(s1, env.now, [flag]) == Apply(s1, env.now, flag);
    assert ClearCacheCmds(env.cfg, sid, true) == dels + [flag];
  }

  lemma KeepsRevoke(env: Env, w: World, s: SessionState, sid: Uuid, reason: string)
    requires Fine(env, w, s) && Aligned(s) && sid in s.working
    ensures Keeps(env, w, s, RevokeCmds(env.cfg, env.now, s.working, sid, reason))
    ensures var s' := ApplyAll(s, env.now, RevokeCmds(env.cfg, env.now, s.working, sid, reason));
            && s'.working == CloseAll(s.working, env.now, [sid], reason)
            && s'.committed == s.committed && SessionRevoked(sid) in s'.redis
            && RevokedJti(s.working[sid].jti) in s'.redis
  {
    hide Fine;
    var row := s.working[sid];
    var bl := RevokeJtiCmds(env.cfg, row.jti, 0);
    var wr: seq<SessionCommand> := [Write(s.working[sid := Closed(row, env.now, reason)])];
    var cc := ClearCacheCmds(env.cfg, sid, true);
    KeepsBlacklistRow(env, w, s, sid);
    KeepsOne(env, w, s, bl[0]);
    var s1 := Apply(s, env.now, bl[0]);
    assert ApplyAll(s, env.now, bl) == s1;
    KeepsClose(env, w, s1, sid, reason);
    KeepsOne(env, w, s1, wr[0]);
    var s2 := Apply(s1, env.now, wr[0]);
    assert ApplyAll(s1, env.now, wr) == s2;
    KeepsThen(env, w, s, bl, wr);
    KeepsClearCache(env, w, s2, sid);
    KeepsThen(env, w, s, bl + wr, cc);
    KeepsFine(env, w, s, bl + wr + cc);
    assert s2.working == CloseAll(s.working, env.now, [sid], reason);
    assert RevokeCmds(env.cfg, env.now, s.working, sid, reason) == bl + wr + cc;
    RedisKept(s2, env.now, cc, row.jti);
  }

  /** A blacklist entry is never removed. */
  lemma {:induction false} RedisKept(s: SessionState, now: int, cmds: seq<SessionCommand>, jti: Uuid)
    requires RevokedJti(jti) in s.redis
    requires forall c | c in cmds :: c.Delete? ==> !c.key.RevokedJti?
    ensures RevokedJti(jti) in ApplyAll(s, now, cmds).redis
    decreases |cmds|
  {
    if cmds != [] {
      RedisKept(Apply(s, now, cmds[0]), now, cmds[1..], jti);
    }
  }

  lemma KeepsExpire(env: Env, w: World, s: SessionState, sid: Uuid, reason: string)
    requires Fine(env, w, s) && sid in s.working
    ensures Keeps(env, w, s, ExpireCmds(env.cfg, env.now, s.working, sid, reason))
    ensures var s' := ApplyAll(s, env.now, ExpireCmds(env.cfg, env.now, s.working, sid, reason));
            s'.working == s'.committed == CloseAll(s.working, env.now, [sid], reason)
  {
    hide Fine;
    var wr: SessionCommand := Write(s.working[sid := Closed(s.working[sid], env.now, reason)]);
    var cc := ClearCacheCmds(env.cfg, sid, true);
    KeepsClose(env, w, s, sid, reason);
    KeepsOne(env, w, s, wr);
    var s1 := Apply(s, env.now, wr);
    KeepsHarmless(env, w, s1, Commit);
    KeepsOne(env, w, s1, Commit);
    KeepsThen(env, w, s, [wr], [Commit]);
    var s2 := Apply(s1, env.now, Commit);
    KeepsClearCache(env, w, s2, sid);
    KeepsThen(env, w, s, [wr] + [Commit], cc);
    assert ExpireCmds(env.cfg, env.now, s.working, sid, reason) == [wr] + [Commit] + cc;
    assert s2.working == CloseAll(s.working, env.now, [sid], reason);
  }

  lemma KeepsTouch(env: Env, w: World, s: SessionState, sid: Uuid)
    requires Fine(env, w, s) && sid in s.working && sid in env.minted
    ensures Keeps(env, w, s, TouchCmds(env.cfg, env.now, s.redis, s.working, sid))
    ensures var s' := ApplyAll(s, env.now, TouchCmds(env.cfg, env.now, s.redis, s.working, sid));
            && s'.working == (if Live(s.redis, SessionTouch(sid), env.now) then s.working
                              else Touched(s.working, env.now, sid))
            && s'.committed == s.committed
  {
    hide Fine;
    var ex: seq<SessionCommand> := [Exists(SessionTouch(sid))];
    KeepsQuiet(env, w, s, ex);
    if !Live(s.redis, SessionTouch(sid), env.now) {
      var wr: SessionCommand := Write(Touched(s.working, env.now, sid));
      var rest: seq<SessionCommand> := [Set(SessionTouch(sid), Mark, env.cfg.throttleSeconds), SetActive(env.cfg, sid)];
      assert ApplyAll(s, env.now, ex) == s;
      KeepsTouchWrite(env, w, s, sid, Touched(s.working, env.now, sid)[sid]);
      KeepsOne(env, w, s, wr);
      KeepsThen(env, w, s, ex, [wr]);
      KeepsQuiet(env, w, Apply(s, env.now, wr), rest);
      KeepsThen(env, w, s, ex + [wr], rest);
      assert TouchCmds(env.cfg, env.now, s.redis, s.working, sid) == ex + [wr] + rest;
    }
  }

  /** Where the transaction stands between two parts of a request that does
      not rename refresh tokens. */
  ghost predicate Midway(env: Env, w: World, s: SessionState) {
    Fine(env, w, s) && Aligned(s)
  }

  /** The start of a request. */
  function Start(w: World): SessionState {
    State(w.redis, w.rows, w.rows)
  }

  lemma RowsMinted(env: Env, w: World, s: SessionState, sid: Uuid)
    requires Fine(env, w, s) && sid in s.working
    ensures sid in env.minted && s.working[sid].jti in env.minted
  {
  }

  lemma KeepsJudge(env: Env, w: World, s: SessionState, sid: Uuid, user: Uuid)
    requires Midway(env, w, s)
    ensures var cmds := JudgePlan(env.cfg, env.now, s.redis, s.working, sid, user).cmds;
            Keeps(env, w, s, cmds) && Midway(env, w, ApplyAll(s, env.now, cmds))
  {
    hide Fine;
    var sel: seq<SessionCommand> := [Select];
    var p := JudgePlan(env.cfg, env.now, s.redis, s.working, sid, user);
    KeepsQuiet(env, w, s, sel);
    assert ApplyAll(s, env.now, sel) == s;
    if Usable(s.working, sid, user) {
      RowsMinted(env, w, s, sid);
      if s.working[sid].expiresAt <= env.now {
        KeepsExpire(env, w, s, sid, "absolute_expiry");
        KeepsThen(env, w, s, sel, ExpireCmds(env.cfg, env.now, s.working, sid, "absolute_expiry"));
      } else if Idle(env.cfg, s.working[sid], env.now) {
        KeepsExpire(env, w, s, sid, "idle_timeout");
        KeepsThen(env, w, s, sel, ExpireCmds(env.cfg, env.now, s.working, sid, "idle_timeout"));
      } else {
        KeepsTouch(env, w, s, sid);
        KeepsThen(env, w, s, sel, TouchCmds(env.cfg, env.now, s.redis, s.working, sid));
      }
    }
    KeepsFine(env, w, s, p.cmds);
  }

  lemma KeepsAuth(env: Env, w: World, s: SessionState, cookie: Option<Token>, account: Account)
    requires Midway(env, w, s)
    ensures var cmds := AuthPlan(env.cfg, env.now, s.redis, s.working, cookie, account).cmds;
            Keeps(env, w, s, cmds) && Midway(env, w, ApplyAll(s, env.now, cmds))
  {
    hide Fine;
    var p := AuthPlan(env.cfg, env.now, s.redis, s.working, cookie, account);
    KeepsQuiet(env, w, s, []);
    KeepsQuiet(env, w, s, [Select]);
    if Decode(cookie, Access, env.now).Ok? && account == InGoodStanding && cookie.value.sid.Some? {
      var sid := cookie.value.sid.value;
      var validated := ValidatePlan(env.cfg, env.now, s.redis, s.working, sid, cookie.value.user);
      var ex: seq<SessionCommand> := [Exists(SessionRevoked(sid))];
      KeepsQuiet(env, w, s, ex);
      assert ApplyAll(s, env.now, ex) == s && ApplyAll(s, env.now, [Select]) == s;
      if !Live(s.redis, SessionRevoked(sid), env.now) {
        KeepsJudge(env, w, s, sid, cookie.value.user);
        KeepsThen(env, w, s, ex, JudgePlan(env.cfg, env.now, s.redis, s.working, sid, cookie.value.user).cmds);
      }
      KeepsThen(env, w, s, [Select], validated.cmds);
      assert p.cmds == [Select] + validated.cmds;
    }
  }

  lemma {:induction false} KeepsRevokeEach(env: Env, w: World, s: SessionState, order: seq<Uuid>, reason: string)
    requires Midway(env, w, s)
    ensures var cmds := RevokeEachCmds(env.cfg, env.now, s.working, order, reason);
            && Keeps(env, w, s, cmds) && Midway(env, w, ApplyAll(s, env.now, cmds))
            && ApplyAll(s, env.now, cmds).working == CloseAll(s.working, env.now, order, reason)
            && ApplyAll(s, env.now, cmds).committed == s.committed
    decreases |order|
  {
    hide Fine;
    if order == [] {
      KeepsQuiet(env, w, s, []);
      assert CloseAll(s.working, env.now, [], reason) == s.working;
    } else {
      var first := RevokeCmds(env.cfg, env.now, s.working, order[0], reason);
      KeepsRevokeMaybe(env, w, s, order[0], reason);
      var s1 := ApplyAll(s, env.now, first);
      assert order[..1] == [order[0]];
      KeepsRevokeEach(env, w, s1, order[1..], reason);
      KeepsThen(env, w, s, first, RevokeEachCmds(env.cfg, env.now, s1.working, order[1..], reason));
      CloseAllTwice(s.working, env.now, order, reason);
    }
  }

  lemma CloseAllTwice(rows: Rows, now: int, order: seq<Uuid>, reason: string)
    requires order != []
    ensures CloseAll(CloseAll(rows, now, [order[0]], reason), now, order[1..], reason)
            == CloseAll(rows, now, order, reason)
  {
    assert order == [order[0]] + order[1..];
  }

  lemma KeepsRevokeMaybe(env: Env, w: World, s: SessionState, sid: Uuid, reason: string)
    requires Midway(env, w, s)
    ensures var cmds := RevokeCmds(env.cfg, env.now, s.working, sid, reason);
            && Keeps(env, w, s, cmds) && Midway(env, w, ApplyAll(s, env.now, cmds))
            && ApplyAll(s, env.now, cmds).working == CloseAll(s.working, env.now, [sid], reason)
            && ApplyAll(s, env.now, cmds).committed == s.committed
  {
    hide Fine;
    if sid in s.working {
      KeepsRevoke(env, w, s, sid, reason);
      KeepsFine(env, w, s, RevokeCmds(env.cfg, env.now, s.working, sid, reason));
    } else {
      KeepsQuiet(env, w, s, []);
      assert CloseAll(s.working, env.now, [sid], reason) == s.working;
    }
  }

  /** A revocation behind a query, as every route does it. */
  lemma KeepsSelectRevoke(env: Env, w: World, s: SessionState, order: seq<Uuid>, reason: string)
    requires Midway(env, w, s)
    ensures var cmds := [Select] + RevokeEachCmds(env.cfg, env.now, s.working, order, reason);
            && Keeps(env, w, s, cmds) && Midway(env, w, ApplyAll(s, env.now, cmds))
            && ApplyAll(s, env.now, cmds).working == CloseAll(s.working, env.now, order, reason)
            && ApplyAll(s, env.now, cmds).committed == s.committed
  {
    hide Fine;
    KeepsQuiet(env, w, s, [Select]);
    assert ApplyAll(s, env.now, [Select]) == s;
    KeepsRevokeEach(env, w, s, order, reason);
    KeepsThen(env, w, s, [Select], RevokeEachCmds(env.cfg, env.now, s.working, order, reason));
  }

  /** One revocation is the list of one. */
  lemma RevokeEachOne(cfg: Config, now: int, rows: Rows, sid: Uuid, reason: string)
    ensures RevokeEachCmds(cfg, now, rows, [sid], reason) == RevokeCmds(cfg, now, rows, sid, reason)
  {
    assert RevokeEachCmds(cfg, now, CloseAll(rows, now, [sid], reason), [], reason) == [];
    assert [sid][..1] == [sid] && [sid][1..] == [];
  }

  lemma KeepsHandler(env: Env, w: World, s: SessionState, user: Uuid, current: Option<Uuid>, action: Action)
    requires Midway(env, w, s)
    ensures var cmds := HandlerPlan(env.cfg, env.now, s.working, user, current, action).cmds;
            Keeps(env, w, s, cmds) && Midway(env, w, ApplyAll(s, env.now, cmds))
  {
    hide Fine;
    KeepsQuiet(env, w, s, []);
    KeepsQuiet(env, w, s, [Select]);
    match action
    case Read =>
    case Fails(_) =>
    case LogoutThis =>
      if current.Some? {
        KeepsRevokeMaybe(env, w, s, current.value, "logout");
      }
    case LogoutAll(order) =>
      KeepsSelectRevoke(env, w, s, Without(order, None), "logout_all");
    case RevokeOne(target) =>
      KeepsSelectRevoke(env, w, s, [target], "revoked_by_user");
      RevokeEachOne(env.cfg, env.now, s.working, target, "revoked_by_user");
  }

  lemma KeepsAccess(env: Env, w: World, cookie: Option<Token>, account: Account, action: Action)
    requires Midway(env, w, Start(w))
    ensures var cmds := AccessPlan(env.cfg, env.now, w.redis, w.rows, cookie, account, action).cmds;
            Keeps(env, w, Start(w), cmds) && Midway(env, w, ApplyAll(Start(w), env.now, cmds))
  {
    hide Fine;
    KeepsAuth(env, w, Start(w), cookie, account);
    var auth := AuthPlan(env.cfg, env.now, w.redis, w.rows, cookie, account);
    if auth.result.Ok? {
      var s1 := ApplyAll(Start(w), env.now, auth.cmds);
      KeepsHandler(env, w, s1, cookie.value.user, auth.result.value, action);
      KeepsThen(env, w, Start(w), auth.cmds,
                HandlerPlan(env.cfg, env.now, s1.working, cookie.value.user, auth.result.value, action).cmds);
    }
  }

  lemma KeepsVerify(env: Env, w: World, s: SessionState, cookie: Option<Token>)
    requires Fine(env, w, s)
    ensures var p := VerifyRefreshPlan(s.redis, cookie, env.now);
            Keeps(env, w, s, p.cmds) && ApplyAll(s, env.now, p.cmds) == s
  {
    hide Fine;
    var p := VerifyRefreshPlan(s.redis, cookie, env.now);
    KeepsQuiet(env, w, s, p.cmds);
    if Decode(cookie, Refresh, env.now).Ok? {
      assert ApplyAll(s, env.now, [Exists(RevokedJti(cookie.value.jti))]) == s;
    }
  }

  lemma KeepsReplay(env: Env, w: World, s: SessionState, tok: Token)
    requires Midway(env, w, s)
    ensures Keeps(env, w, s, ReplayCmds(env.cfg, env.now, s.working, tok))
    ensures tok.sid.Some? ==>
              var s' := ApplyAll(s, env.now, ReplayCmds(env.cfg, env.now, s.working, tok));
              var sid := tok.sid.value;
              && s'.committed == (if sid in s.working && s.working[sid].active
                                  then CloseAll(s.working, env.now, [sid], "refresh_replay") else s.committed)
    ensures s.working == s.committed ==>
              var s' := ApplyAll(s, env.now, ReplayCmds(env.cfg, env.now, s.working, tok));
              s'.working == s'.committed
  {
    hide Fine;
    KeepsQuiet(env, w, s, []);
    if tok.sid.Some? {
      var sid := tok.sid.value;
      KeepsQuiet(env, w, s, [Select]);
      var p := RevokeBySidPlan(env.cfg, env.now, s.working, sid, "refresh_replay");
      assert p.cmds + [] == p.cmds;
      if p.result == Ok(true) {
        KeepsSelectRevoke(env, w, s, [sid], "refresh_replay");
        RevokeEachOne(env.cfg, env.now, s.working, sid, "refresh_replay");
        var s1 := ApplyAll(s, env.now, p.cmds);
        KeepsHarmless(env, w, s1, Commit);
        KeepsOne(env, w, s1, Commit);
        KeepsThen(env, w, s, p.cmds, [Commit]);
      }
    }
  }

  lemma KeepsLogout(env: Env, w: World, cookie: Option<Token>)
    requires Midway(env, w, Start(w)) && Held(w, cookie) && env.delivered == w.delivered
    ensures Keeps(env, w, Start(w), LogoutPlan(env.cfg, env.now, w.redis, w.rows, cookie).cmds)
  {
    hide Fine;
    var s := Start(w);
    var verified := VerifyRefreshPlan(w.redis, cookie, env.now);
    KeepsVerify(env, w, s, cookie);
    KeepsQuiet(env, w, s, []);
    if verified.result.Ok? {
      var tok := verified.result.value;
      var s1 := ApplyAll(s, env.now, RevokeTokenCmds(tok, env.now));
      KeepsRevokeToken(env, w, s, tok);
      KeepsThen(env, w, s, verified.cmds, RevokeTokenCmds(tok, env.now));
      if tok.sid.Some? {
        var sid := tok.sid.value;
        KeepsQuiet(env, w, s1, [Select]);
        KeepsSelectRevoke(env, w, s1, [sid], "logout");
        RevokeEachOne(env.cfg, env.now, w.rows, sid, "logout");
        KeepsThen(env, w, s, verified.cmds + RevokeTokenCmds(tok, env.now),
                  RevokeBySidPlan(env.cfg, env.now, w.rows, sid, "logout").cmds);
      } else {
        KeepsQuiet(env, w, s1, []);
        KeepsThen(env, w, s, verified.cmds + RevokeTokenCmds(tok, env.now), []);
      }
    }
  }

  lemma KeepsRevokeToken(env: Env, w: World, s: SessionState, tok: Token)
    requires Fine(env, w, s) && tok in env.delivered && env.now < tok.exp
    ensures Keeps(env, w, s, RevokeTokenCmds(tok, env.now))
    ensures var s' := ApplyAll(s, env.now, RevokeTokenCmds(tok, env.now));
            && Fine(env, w, s')
            && s' == s.(redis := s.redis[RevokedJti(tok.jti) := Entry(Mark, Some(tok.exp))])
  {
    hide Fine;
    KeepsBlacklistToken(env, w, s, tok);
    KeepsOne(env, w, s, RevokeTokenCmds(tok, env.now)[0]);
  }

  /** `/refresh`. When it succeeds the session names the new refresh token,
      which nobody has blacklisted. */
  lemma KeepsRefresh(env: Env, w: World, cookie: Option<Token>, mint: Mint)
    requires Midway(env, w, Start(w)) && Held(w, cookie) && env.delivered == w.delivered
    requires mint.refresh in env.minted && RevokedJti(mint.refresh) !in w.redis
    requires cookie.Some? ==> cookie.value.jti != mint.refresh
    ensures var p := RefreshPlan(env.cfg, env.now, w.redis, w.rows, cookie, mint);
            && Keeps(env, w, Start(w), p.cmds)
            && (p.result.Ok? ==>
                  var s' := ApplyAll(Start(w), env.now, p.cmds);
                  var tok := cookie.value;
                  && cookie.Some? && tok.sid.Some? && tok.kind == Refresh && env.now < tok.exp
                  && p.result.value == IssuePair(env.cfg, env.now, tok.user, tok.remember, tok.sid, mint)
                  && Owned(s'.working, tok.sid.value, tok.user)
                  && s'.working[tok.sid.value].jti == mint.refresh
                  && s'.working[tok.sid.value].lastActivity == env.now
                  && RevokedJti(mint.refresh) !in s'.redis)
  {
    hide Fine;
    var s := Start(w);
    var verified := VerifyRefreshPlan(w.redis, cookie, env.now);
    var rotated := RotatePlan(env.cfg, w.redis, cookie, mint, env.now);
    KeepsVerify(env, w, s, cookie);
    if verified.result == Raised(TokenReplay) {
      KeepsReplay(env, w, s, cookie.value);
      KeepsThen(env, w, s, rotated.cmds, ReplayCmds(env.cfg, env.now, w.rows, cookie.value));
    } else if verified.result.Ok? {
      var tok := verified.result.value;
      KeepsRevokeToken(env, w, s, tok);
      KeepsThen(env, w, s, verified.cmds, RevokeTokenCmds(tok, env.now));
      var s1 := ApplyAll(s, env.now, rotated.cmds);
      FineCore(env, w, s);
      GoodToken(env, w.redis, w.rows, tok);
      KeepsRebind(env, w, s1, tok.sid.value, tok.user, mint.refresh);
      KeepsThen(env, w, s, rotated.cmds,
                RebindPlan(env.cfg, env.now, w.rows, tok.user, tok.sid.value, mint.refresh).cmds);
    }
  }

  lemma FineCore(env: Env, w: World, s: SessionState)
    requires Fine(env, w, s)
    ensures Core(env, s.redis, s.working) && Core(env, s.redis, s.committed)
  {
  }

  lemma KeepsRebind(env: Env, w: World, s: SessionState, sid: Uuid, user: Uuid, jti: Uuid)
    requires Fine(env, w, s) && jti in env.minted
    requires Usable(s.working, sid, user) ==>
               RevokedJti(s.working[sid].jti) in s.redis && SessionRevoked(sid) !in s.redis
    ensures var p := RebindPlan(env.cfg, env.now, s.working, user, sid, jti);
            var s' := ApplyAll(s, env.now, p.cmds);
            && Keeps(env, w, s, p.cmds)
            && (RevokedJti(jti) in s'.redis <==> RevokedJti(jti) in s.redis)
            && (p.result.Ok? ==>
                  && Owned(s'.working, sid, user) && s'.working[sid].jti == jti
                  && s'.working[sid].lastActivity == env.now)
  {
    hide Fine;
    KeepsQuiet(env, w, s, [Select]);
    assert ApplyAll(s, env.now, [Select]) == s;
    if Usable(s.working, sid, user) {
      var wr: SessionCommand := Write(s.working[sid := s.working[sid].(jti := jti, lastActivity := env.now)]);
      KeepsRebindWrite(env, w, s, sid, jti);
      KeepsOne(env, w, s, wr);
      KeepsThen(env, w, s, [Select], [wr]);
      KeepsQuiet(env, w, Apply(s, env.now, wr), [SetActive(env.cfg, sid)]);
      KeepsThen(env, w, s, [Select] + [wr], [SetActive(env.cfg, sid)]);
      assert [Select, wr, SetActive(env.cfg, sid)] == [Select] + [wr] + [SetActive(env.cfg, sid)];
    }
  }

  lemma KeepsLogin(env: Env, w: World, user: Uuid, remember: bool, device: Device, mint: Mint)
    requires Fine(env, w, Start(w)) && env.cfg.Sane()
    requires mint.sid !in w.rows && mint.sid in env.minted && mint.refresh in env.minted
    ensures var p := LoginPlan(env.cfg, env.now, w.rows, user, remember, device, mint);
            var s' := ApplyAll(Start(w), env.now, p.cmds);
            && Keeps(env, w, Start(w), p.cmds)
            && Owned(s'.working, mint.sid, user) && s'.working[mint.sid].jti == mint.refresh
            && (RevokedJti(mint.refresh) in s'.redis <==> RevokedJti(mint.refresh) in w.redis)
  {
    hide Fine;
    var s := Start(w);
    var sel: seq<SessionCommand> := if HasAny(w.rows, user) then [Select, Select] else [Select];
    var row := FreshRow(env.cfg, env.now, user, mint.refresh, remember, device);
    var wr: SessionCommand := Write(w.rows[mint.sid := row]);
    KeepsQuiet(env, w, s, sel);
    ReadsChangeNothing(s, env.now, sel);
    KeepsInsert(env, w, s, mint.sid, row);
    KeepsOne(env, w, s, wr);
    KeepsThen(env, w, s, sel, [wr]);
    KeepsQuiet(env, w, Apply(s, env.now, wr), [SetActive(env.cfg, mint.sid)]);
    KeepsThen(env, w, s, sel + [wr], [SetActive(env.cfg, mint.sid)]);
    assert sel + [wr, SetActive(env.cfg, mint.sid)] == sel + [wr] + [SetActive(env.cfg, mint.sid)];
  }

  // ------------------------------------------------- whole requests

  /** The invariant of the protocol. */
  ghost predicate Inv(cfg: Config, w: World) {
    cfg.Sane() && Core(Env(cfg, w.now, w.delivered, w.minted), w.redis, w.rows)
  }

  /** What a later world may not have taken back. */
  ghost predicate Follows(w: World, w': World) {
    && w.now <= w'.now && w.delivered <= w'.delivered && w.minted <= w'.minted
    && Since(w.redis, w.rows, w'.redis, w'.rows)
  }

  /** The surroundings of a request served in `w`. */
  ghost function Around(cfg: Config, w: World, q: Request): Env {
    Env(cfg, w.now, w.delivered, w.minted + Minted(q))
  }

  lemma AtStart(cfg: Config, w: World, q: Request)
    requires Inv(cfg, w)
    ensures Midway(Around(cfg, w, q), w, Start(w))
  {
    Later(Env(cfg, w.now, w.delivered, w.minted), Around(cfg, w, q), w.redis, w.rows);
  }

  /** The fresh identifiers of a request appear nowhere yet. */
  lemma FreshUnused(cfg: Config, w: World, mint: Mint)
    requires Inv(cfg, w) && Fresh(w, mint)
    ensures mint.sid !in w.rows && RevokedJti(mint.refresh) !in w.redis
    ensures SessionTouch(mint.sid) !in w.redis
    ensures forall t | t in w.delivered :: t.jti != mint.access && t.jti != mint.refresh
  {
  }

  lemma KeepsRequest(cfg: Config, w: World, q: Request)
    requires Inv(cfg, w) && Possible(cfg, w, q)
    ensures Keeps(Around(cfg, w, q), w, Start(w), RequestPlan(cfg, w, q).cmds)
  {
    hide Fine, Core;
    var env := Around(cfg, w, q);
    AtStart(cfg, w, q);
    match q
    case Login(user, remember, device, mint) =>
      FreshUnused(cfg, w, mint);
      KeepsLogin(env, w, user, remember, device, mint);
    case Call(cookie, account, action) =>
      KeepsAccess(env, w, cookie, account, action);
    case Rotate(cookie, mint) =>
      FreshUnused(cfg, w, mint);
      KeepsRefresh(env, w, cookie, mint);
    case Logout(cookie) =>
      KeepsLogout(env, w, cookie);
  }

  lemma KeepsIssued(cfg: Config, w: World, q: Request, budget: nat)
    requires Inv(cfg, w) && Possible(cfg, w, q)
    ensures Fine(Around(cfg, w, q), w, Left(cfg, w, q, budget))
  {
    hide Fine, Core;
    var env := Around(cfg, w, q);
    var p := RequestPlan(cfg, w, q);
    KeepsRequest(cfg, w, q);
    if p.result.Ok? {
      var s := ApplyAll(Start(w), w.now, p.cmds);
      KeepsFine(env, w, Start(w), p.cmds);
      KeepsHarmless(env, w, s, Commit);
      KeepsOne(env, w, s, Commit);
      KeepsThen(env, w, Start(w), p.cmds, [Commit]);
    }
    ThroughoutCut(FineAt(env, w), Start(w), w.now, Issued(cfg, w, q).cmds, budget);
  }

  /** A request that answers with a pair has committed a session naming it. */
  lemma ServedPair(cfg: Config, w: World, q: Request, budget: nat)
    requires Inv(cfg, w) && Possible(cfg, w, q)
    requires Response(Issued(cfg, w, q).Ending(budget)) != {}
    ensures var s := Left(cfg, w, q, budget);
            var pair := Issued(cfg, w, q).result.value.value;
            && (q.Login? || q.Rotate?)
            && pair.access.sid == pair.refresh.sid && pair.refresh.sid.Some?
            && pair.access.kind == Access && pair.refresh.kind == Refresh
            && pair.access.user == pair.refresh.user
            && pair.access.jti == q.mint.access && pair.refresh.jti == q.mint.refresh
            && pair.refresh.exp <= w.now + cfg.RefreshSeconds(true)
            && Owned(s.committed, pair.refresh.sid.value, pair.refresh.user)
            && s.committed[pair.refresh.sid.value].jti == pair.refresh.jti
            && RevokedJti(pair.refresh.jti) !in s.redis
  {
    hide Fine, Core;
    var env := Around(cfg, w, q);
    var p := RequestPlan(cfg, w, q);
    AtStart(cfg, w, q);
    assert Cut(p.cmds + [Commit], budget) == p.cmds + [Commit];
    ApplyConcat(Start(w), w.now, p.cmds, [Commit]);
    match q
    case Login(user, remember, device, mint) =>
      FreshUnused(cfg, w, mint);
      KeepsLogin(env, w, user, remember, device, mint);
    case Rotate(cookie, mint) =>
      FreshUnused(cfg, w, mint);
      KeepsRefresh(env, w, cookie, mint);
    case Call(_, _, _) =>
    case Logout(_) =>
  }

  /** Every step, cut anywhere, keeps the invariant and takes nothing back. */
  lemma InvNext(cfg: Config, w: World, step: Step)
    requires Inv(cfg, w) && Enabled(cfg, w, step)
    ensures Inv(cfg, Next(cfg, w, step)) && Follows(w, Next(cfg, w, step))
  {
    hide Core, Since;
    match step
    case Tick(seconds) =>
      var env := Env(cfg, w.now, w.delivered, w.minted);
      Later(env, env.(now := w.now + seconds), w.redis, w.rows);
      SinceItself(w.redis, w.rows);
    case Serve(q, budget) =>
      var env := Around(cfg, w, q);
      var s := Left(cfg, w, q, budget);
      KeepsIssued(cfg, w, q, budget);
      if Response(Issued(cfg, w, q).Ending(budget)) != {} {
        ServedPair(cfg, w, q, budget);
        FreshUnused(cfg, w, q.mint);
        var pair := Issued(cfg, w, q).result.value.value;
        Deliver(env, s.redis, s.committed, pair, pair.refresh.sid.value);
      } else {
        assert w.delivered + {} == w.delivered;
      }
  }

  lemma SinceItself(redis: Cache, rows: Rows)
    ensures Since(redis, rows, redis, rows)
  {
  }

  lemma SinceTransitive(redis0: Cache, rows0: Rows, redis1: Cache, rows1: Rows, redis2: Cache, rows2: Rows)
    requires Since(redis0, rows0, redis1, rows1) && Since(redis1, rows1, redis2, rows2)
    ensures Since(redis0, rows0, redis2, rows2)
  {
  }

  lemma InvInitial(cfg: Config, w: World)
    requires cfg.Sane() && Initial(w)
    ensures Inv(cfg, w)
  {
  }

  lemma {:induction false} InvRun(cfg: Config, w: World, steps: seq<Step>)
    requires Inv(cfg, w) && ValidRun(cfg, w, steps)
    ensures Inv(cfg, Run(cfg, w, steps)) && Follows(w, Run(cfg, w, steps))
    decreases |steps|
  {
    hide Inv, Since;
    if steps == [] {
      SinceItself(w.redis, w.rows);
    } else {
      var w1 := Next(cfg, w, steps[0]);
      InvNext(cfg, w, steps[0]);
      InvRun(cfg, w1, steps[1..]);
      var w2 := Run(cfg, w1, steps[1..]);
      SinceTransitive(w.redis, w.rows, w1.redis, w1.rows, w2.redis, w2.rows);
    }
  }

  /** Reachable from an empty system, through any requests, cut anywhere. */
  ghost predicate Reached(cfg: Config, w: World) {
    cfg.Sane() && exists w0, steps :: Initial(w0) && ValidRun(cfg, w0, steps) && Run(cfg, w0, steps) == w
  }

  lemma ReachedInv(cfg: Config, w: World)
    requires Reached(cfg, w)
    ensures Inv(cfg, w)
  {
    hide Inv;
    var w0, steps :| Initial(w0) && ValidRun(cfg, w0, steps) && Run(cfg, w0, steps) == w;
    InvInitial(cfg, w0);
    InvRun(cfg, w0, steps);
  }

  lemma ReachedRun(cfg: Config, w: World, steps: seq<Step>)
    requires Reached(cfg, w) && ValidRun(cfg, w, steps)
    ensures Reached(cfg, Run(cfg, w, steps))
  {
    var w0, before :| Initial(w0) && ValidRun(cfg, w0, before) && Run(cfg, w0, before) == w;
    RunConcat(cfg, w0, before, steps);
  }
}
