/** What the invariant gives over whole runs: one live refresh token per
    session, revocations that nothing undoes, family kill on replay, and
    logout-all. Runs may contain requests cut after any command. */
module SessionTheorems {
  import opened Base
  import opened Stores
  import opened SessionPlans
  import opened Protocol
  import opened SessionInvariant
  import opened SessionKeeps
  import opened SessionShape

  // ------------------------------------------------- one live refresh token

  /** Unexpired, not blacklisted, and of an active session. */
  predicate LiveRefresh(w: World, t: Token) {
    && t.kind == Refresh && w.now < t.exp && !Live(w.redis, RevokedJti(t.jti), w.now)
    && t.sid.Some? && Usable(w.rows, t.sid.value, t.user)
  }

  /** In every reachable world the row of an active session names the only
      refresh token that is still good for it, and `/refresh` accepts exactly
      that token. */
  lemma OneLiveRefreshToken(cfg: Config, w: World)
    requires Reached(cfg, w)
    ensures forall t | t in w.delivered && LiveRefresh(w, t) :: w.rows[t.sid.value].jti == t.jti
    ensures forall t, u | t in w.delivered && u in w.delivered && LiveRefresh(w, t) && LiveRefresh(w, u)
                          && t.sid == u.sid :: t == u
    ensures forall t, mint | t in w.delivered :: AdmitsRefresh(cfg, w, t, mint) <==> LiveRefresh(w, t)
  {
    ReachedInv(cfg, w);
    forall t | t in w.delivered && LiveRefresh(w, t)
      ensures w.rows[t.sid.value].jti == t.jti
    {
      GoodToken(Env(cfg, w.now, w.delivered, w.minted), w.redis, w.rows, t);
    }
    forall t, mint | t in w.delivered
      ensures AdmitsRefresh(cfg, w, t, mint) <==> LiveRefresh(w, t)
    {
      RefreshAccepts(cfg, w, t, mint);
    }
  }

  lemma RefreshAccepts(cfg: Config, w: World, t: Token, mint: Mint)
    requires Inv(cfg, w) && t in w.delivered
    ensures AdmitsRefresh(cfg, w, t, mint) <==> LiveRefresh(w, t)
  {
    assert t.sid.Some?;
  }

  // ------------------------------------------------- what revokes a session

  /** Revoked in the table or flagged in Redis, the other one notwithstanding. */
  predicate Doomed(w: World, sid: Uuid) {
    sid in w.rows && (!w.rows[sid].active || SessionRevoked(sid) in w.redis)
  }

  lemma DoomedShutsOut(cfg: Config, w: World, sid: Uuid)
    requires Inv(cfg, w) && Doomed(w, sid)
    ensures ShutOut(cfg, w, sid)
  {
    forall tok | tok in w.delivered && tok.sid == Some(sid)
      ensures forall account :: !AdmitsAccess(cfg, w, tok, account)
      ensures forall mint :: !AdmitsRefresh(cfg, w, tok, mint)
    {
      forall mint
        ensures !AdmitsRefresh(cfg, w, tok, mint)
      {
        RefreshAccepts(cfg, w, tok, mint);
        if LiveRefresh(w, tok) {
          GoodToken(Env(cfg, w.now, w.delivered, w.minted), w.redis, w.rows, tok);
        }
      }
      assert SessionRevoked(sid) in w.redis && !Live(w.redis, SessionRevoked(sid), w.now) ==>
          w.rows[sid].expiresAt <= w.now;
    }
  }

  /** Once doomed, shut out in every later world. */
  lemma DoomedForever(cfg: Config, w: World, sid: Uuid, steps: seq<Step>)
    requires Inv(cfg, w) && ValidRun(cfg, w, steps) && Doomed(w, sid)
    ensures ShutOut(cfg, Run(cfg, w, steps), sid)
  {
    InvRun(cfg, w, steps);
    DoomedShutsOut(cfg, Run(cfg, w, steps), sid);
  }

  // ------------------------------------------------- revocation without its commit

  /** The request got as far as flagging the session. */
  predicate Flagged(cfg: Config, w: World, q: Request, budget: nat, sid: Uuid) {
    exists c | c in Cut(Issued(cfg, w, q).cmds, budget) :: c.Set? && c.key == SessionRevoked(sid)
  }

  lemma FlagDooms(cfg: Config, w: World, sid: Uuid)
    requires Inv(cfg, w) && SessionRevoked(sid) in w.redis
    ensures Doomed(w, sid)
  {
  }

  /** A request that reached the revocation flag has revoked the session for
      good, even if it failed right there and its transaction was rolled back. */
  lemma RevocationSurvivesRollback(cfg: Config, w: World, q: Request, budget: nat, sid: Uuid, steps: seq<Step>)
    requires Reached(cfg, w) && Possible(cfg, w, q)
    requires Flagged(cfg, w, q, budget, sid)
    requires ValidRun(cfg, Next(cfg, w, Serve(q, budget)), steps)
    ensures ShutOut(cfg, Run(cfg, Next(cfg, w, Serve(q, budget)), steps), sid)
  {
    hide Inv;
    var w1 := Next(cfg, w, Serve(q, budget));
    ReachedInv(cfg, w);
    RequestTidy(cfg, w, q);
    SetStays(Start(w), w.now, Cut(Issued(cfg, w, q).cmds, budget), SessionRevoked(sid));
    InvNext(cfg, w, Serve(q, budget));
    FlagDooms(cfg, w1, sid);
    DoomedForever(cfg, w1, sid, steps);
  }

  // ------------------------------------------------- family kill

  /** Presented to `/refresh` while unexpired, a refresh token ends up blacklisted. */
  lemma PresentedIsSpent(cfg: Config, w: World, t: Token, mint: Mint, budget: nat)
    requires Inv(cfg, w) && Possible(cfg, w, Rotate(Some(t), mint))
    requires FaultFree(cfg, w, Serve(Rotate(Some(t), mint), budget))
    requires t.kind == Refresh && w.now < t.exp
    ensures RevokedJti(t.jti) in Next(cfg, w, Serve(Rotate(Some(t), mint), budget)).redis
  {
    hide Inv;
    var q := Rotate(Some(t), mint);
    RequestTidy(cfg, w, q);
    var cmds := Issued(cfg, w, q).cmds;
    assert Cut(cmds, budget) == cmds;
    if RevokedJti(t.jti) !in w.redis {
      assert RotatePlan(cfg, w.redis, Some(t), mint, w.now).cmds
          == [Exists(RevokedJti(t.jti)), Set(RevokedJti(t.jti), Mark, t.exp - w.now)];
      assert cmds[1] == Set(RevokedJti(t.jti), Mark, t.exp - w.now);
    }
    SetStays(Start(w), w.now, cmds, RevokedJti(t.jti));
  }

  /** Presented again while unexpired, it closes its session in the table. */
  lemma ReplayCloses(cfg: Config, w: World, t: Token, mint: Mint, budget: nat)
    requires Inv(cfg, w) && Possible(cfg, w, Rotate(Some(t), mint))
    requires FaultFree(cfg, w, Serve(Rotate(Some(t), mint), budget))
    requires t.kind == Refresh && w.now < t.exp && RevokedJti(t.jti) in w.redis
    ensures var w' := Next(cfg, w, Serve(Rotate(Some(t), mint), budget));
            t.sid.Some? && t.sid.value in w'.rows && !w'.rows[t.sid.value].active
  {
    hide Fine;
    var q := Rotate(Some(t), mint);
    var env := Around(cfg, w, q);
    var ex: seq<SessionCommand> := [Exists(RevokedJti(t.jti))];
    var kill := ReplayCmds(cfg, w.now, w.rows, t);
    assert Live(w.redis, RevokedJti(t.jti), w.now);
    assert Issued(cfg, w, q) == Plan(ex + kill, Raised(AuthError));
    assert Cut(ex + kill, budget) == ex + kill;
    AtStart(cfg, w, q);
    KeepsReplay(env, w, Start(w), t);
    ApplyConcat(Start(w), w.now, ex, kill);
    assert ApplyAll(Start(w), w.now, ex) == Start(w);
  }

  /** One refresh token presented twice, the two requests fault-free, anything
      at all in between and afterwards: the session is closed in the committed
      table and no token of its family is ever accepted again. */
  lemma FamilyKill(cfg: Config, w: World, t: Token, mint1: Mint, budget1: nat, between: seq<Step>,
                   mint2: Mint, budget2: nat, after: seq<Step>)
    requires Reached(cfg, w) && t.kind == Refresh
    requires var first := Serve(Rotate(Some(t), mint1), budget1);
             var second := Serve(Rotate(Some(t), mint2), budget2);
             var w1 := Next(cfg, w, first);
             var w2 := Run(cfg, w1, between);
             && ValidRun(cfg, w, [first]) && FaultFree(cfg, w, first)
             && ValidRun(cfg, w1, between)
             && ValidRun(cfg, w2, [second] + after) && FaultFree(cfg, w2, second)
             && w2.now < t.exp
    ensures var w2 := Run(cfg, Next(cfg, w, Serve(Rotate(Some(t), mint1), budget1)), between);
            var w3 := Next(cfg, w2, Serve(Rotate(Some(t), mint2), budget2));
            && t.sid.Some? && t.sid.value in w3.rows && !w3.rows[t.sid.value].active
            && ShutOut(cfg, Run(cfg, w3, after), t.sid.value)
  {
    hide Inv, Since;
    var first := Serve(Rotate(Some(t), mint1), budget1);
    var second := Serve(Rotate(Some(t), mint2), budget2);
    var w1 := Next(cfg, w, first);
    var w2 := Run(cfg, w1, between);
    assert ([second] + after)[1..] == after;
    ReachedInv(cfg, w);
    InvNext(cfg, w, first);
    InvRun(cfg, w1, between);
    PresentedIsSpent(cfg, w, t, mint1, budget1);
    SpentStays(w1, w2, t.jti);
    ReplayCloses(cfg, w2, t, mint2, budget2);
    InvNext(cfg, w2, second);
    DoomedForever(cfg, Next(cfg, w2, second), t.sid.value, after);
  }

  lemma SpentStays(w: World, w': World, jti: Uuid)
    requires Follows(w, w') && RevokedJti(jti) in w.redis
    ensures RevokedJti(jti) in w'.redis
  {
  }

  // ------------------------------------------------- logout-all

  /** The sessions of `user` the table calls active. */
  ghost function ActiveOf(rows: Rows, user: Uuid): set<Uuid> {
    set sid | sid in rows && Usable(rows, sid, user)
  }

  lemma {:induction false} DistinctCount(order: seq<Uuid>, all: set<Uuid>)
    requires forall i, j | 0 <= i < j < |order| :: order[i] != order[j]
    requires forall sid :: sid in order <==> sid in all
    ensures |order| == |all|
    decreases |order|
  {
    if order == [] {
      assert all == {};
    } else {
      assert order == [order[0]] + order[1..];
      DistinctCount(order[1..], all - {order[0]});
    }
  }

  lemma {:induction false} WithoutNone(order: seq<Uuid>)
    ensures Without(order, None) == order
    decreases |order|
  {
    if order != [] {
      WithoutNone(order[1..]);
      assert order == [order[0]] + order[1..];
    }
  }

  /** Authenticating touches at most the caller's own row, and only its activity. */
  lemma SeenRows(cfg: Config, w: World, cookie: Option<Token>, account: Account)
    requires AuthPlan(cfg, w.now, w.redis, w.rows, cookie, account).result.Ok?
    ensures cookie.value.sid.Some? ==> Usable(w.rows, cookie.value.sid.value, cookie.value.user)
    ensures var seen := Seen(cfg, w, cookie, account);
            && ApplyAll(Start(w), w.now, AuthPlan(cfg, w.now, w.redis, w.rows, cookie, account).cmds).committed
               == w.rows
            && seen == (if cookie.value.sid.None?
                        || Live(w.redis, SessionTouch(cookie.value.sid.value), w.now) then w.rows
                        else Touched(w.rows, w.now, cookie.value.sid.value))
            && (forall sid :: sid in seen <==> sid in w.rows)
            && (forall sid | sid in w.rows ::
                  && seen[sid].user == w.rows[sid].user && seen[sid].active == w.rows[sid].active
                  && (cookie.value.sid != Some(sid) ==> seen[sid] == w.rows[sid]))
  {
    if cookie.value.sid.Some? {
      var sid := cookie.value.sid.value;
      var before: seq<SessionCommand> := [Select] + ([Exists(SessionRevoked(sid))] + [Select]);
      var touch := TouchCmds(cfg, w.now, w.redis, w.rows, sid);
      ReadsChangeNothing(Start(w), w.now, before);
      ApplyConcat(Start(w), w.now, before, touch);
      assert AuthPlan(cfg, w.now, w.redis, w.rows, cookie, account).cmds == before + touch;
      TouchedRows(cfg, w.now, Start(w), sid);
    }
  }

  lemma TouchedRows(cfg: Config, now: int, s: SessionState, sid: Uuid)
    requires sid in s.working
    ensures var s' := ApplyAll(s, now, TouchCmds(cfg, now, s.redis, s.working, sid));
            && s'.committed == s.committed
            && s'.working == if Live(s.redis, SessionTouch(sid), now) then s.working else Touched(s.working, now, sid)
  {
    if !Live(s.redis, SessionTouch(sid), now) {
      var a: seq<SessionCommand> := [Exists(SessionTouch(sid)), Write(Touched(s.working, now, sid))];
      var b: seq<SessionCommand> := [Set(SessionTouch(sid), Mark, cfg.throttleSeconds), SetActive(cfg, sid)];
      assert TouchCmds(cfg, now, s.redis, s.working, sid) == a + b;
      ApplyConcat(s, now, a, b);
      ApplyTwo(s, now, a[0], a[1]);
      ApplyTwo(ApplyAll(s, now, a), now, b[0], b[1]);
    }
  }

  /** A committed logout-all: the count is the number of sessions that were
      active, none is left, other users' rows are as they were, and no token
      the user was sent before is ever accepted again. */
  lemma LogoutAllCloses(cfg: Config, w: World, tok: Token, account: Account, order: seq<Uuid>, budget: nat,
                        steps: seq<Step>)
    requires Reached(cfg, w)
    requires var step := Serve(Call(Some(tok), account, LogoutAll(order)), budget);
             ValidRun(cfg, w, [step] + steps) && FaultFree(cfg, w, step)
    requires AccessPlan(cfg, w.now, w.redis, w.rows, Some(tok), account, LogoutAll(order)).result.Ok?
    ensures var w' := Next(cfg, w, Serve(Call(Some(tok), account, LogoutAll(order)), budget));
            var count := AccessPlan(cfg, w.now, w.redis, w.rows, Some(tok), account, LogoutAll(order)).result.value;
            && count == |ActiveOf(w.rows, tok.user)|
            && ActiveOf(w'.rows, tok.user) == {}
            && (forall sid | sid in w.rows && w.rows[sid].user != tok.user ::
                  sid in w'.rows && w'.rows[sid] == w.rows[sid])
            && (forall t | t in w.delivered && t.user == tok.user ::
                  t.sid.Some? && ShutOut(cfg, Run(cfg, w', steps), t.sid.value))
  {
    hide Fine, Inv, ShutOut;
    var q := Call(Some(tok), account, LogoutAll(order));
    var step := Serve(q, budget);
    var w' := Next(cfg, w, step);
    assert ([step] + steps)[1..] == steps && ([step] + steps)[0] == step;
    ReachedInv(cfg, w);
    InvNext(cfg, w, step);
    LogoutAllTables(cfg, w, tok, account, order, budget);
    forall t | t in w.delivered && t.user == tok.user
      ensures t.sid.Some? && ShutOut(cfg, Run(cfg, w', steps), t.sid.value)
    {
      DeliveredOwned(cfg, w, t);
      DoomedForever(cfg, w', t.sid.value, steps);
    }
  }

  lemma DeliveredOwned(cfg: Config, w: World, t: Token)
    requires Inv(cfg, w) && t in w.delivered
    ensures t.sid.Some? && Owned(w.rows, t.sid.value, t.user)
  {
  }

  lemma LogoutAllTables(cfg: Config, w: World, tok: Token, account: Account, order: seq<Uuid>, budget: nat)
    requires Inv(cfg, w)
    requires var q := Call(Some(tok), account, LogoutAll(order));
             Possible(cfg, w, q) && FaultFree(cfg, w, Serve(q, budget))
    requires AccessPlan(cfg, w.now, w.redis, w.rows, Some(tok), account, LogoutAll(order)).result.Ok?
    ensures var w' := Next(cfg, w, Serve(Call(Some(tok), account, LogoutAll(order)), budget));
            && AccessPlan(cfg, w.now, w.redis, w.rows, Some(tok), account, LogoutAll(order)).result.value
               == |ActiveOf(w.rows, tok.user)|
            && ActiveOf(w'.rows, tok.user) == {}
            && (forall sid | sid in w.rows :: sid in w'.rows)
            && (forall sid | sid in w.rows && w.rows[sid].user == tok.user :: !w'.rows[sid].active)
            && (forall sid | sid in w.rows && w.rows[sid].user != tok.user :: w'.rows[sid] == w.rows[sid])
  {
    hide AuthPlan, RevokeEachCmds, Inv;
    var seen := Seen(cfg, w, Some(tok), account);
    AccessOk(cfg, w, tok, account, order);
    SeenRows(cfg, w, Some(tok), account);
    WithoutNone(order);
    DistinctCount(order, ActiveOf(w.rows, tok.user));
    LogoutAllCommits(cfg, w, tok, account, order, budget);
  }

  lemma AccessOk(cfg: Config, w: World, tok: Token, account: Account, order: seq<Uuid>)
    requires AccessPlan(cfg, w.now, w.redis, w.rows, Some(tok), account, LogoutAll(order)).result.Ok?
    ensures var auth := AuthPlan(cfg, w.now, w.redis, w.rows, Some(tok), account);
            auth.result.Ok? && auth.result.value.Some? && auth.result.value == tok.sid
    ensures AccessPlan(cfg, w.now, w.redis, w.rows, Some(tok), account, LogoutAll(order)).result.value
            == |Without(order, None)|
  {
    hide RevokeEachCmds;
  }

  /** What the request leaves in the committed table. */
  lemma LogoutAllCommits(cfg: Config, w: World, tok: Token, account: Account, order: seq<Uuid>, budget: nat)
    requires Inv(cfg, w)
    requires var q := Call(Some(tok), account, LogoutAll(order));
             Possible(cfg, w, q) && FaultFree(cfg, w, Serve(q, budget))
    requires AccessPlan(cfg, w.now, w.redis, w.rows, Some(tok), account, LogoutAll(order)).result.Ok?
    ensures Next(cfg, w, Serve(Call(Some(tok), account, LogoutAll(order)), budget)).rows
         == CloseAll(Seen(cfg, w, Some(tok), account), w.now, order, "logout_all")
  {
    hide Fine, AuthPlan, RevokeEachCmds, Inv, CloseAll;
    var q := Call(Some(tok), account, LogoutAll(order));
    var env := Around(cfg, w, q);
    var auth := AuthPlan(cfg, w.now, w.redis, w.rows, Some(tok), account);
    var seen := Seen(cfg, w, Some(tok), account);
    var s1 := ApplyAll(Start(w), w.now, auth.cmds);
    var revoke: seq<SessionCommand> := [Select] + RevokeEachCmds(cfg, w.now, seen, order, "logout_all");
    AccessOk(cfg, w, tok, account, order);
    AtStart(cfg, w, q);
    KeepsAuth(env, w, Start(w), Some(tok), account);
    KeepsSelectRevoke(env, w, s1, order, "logout_all");
    WithoutNone(order);
    assert Issued(cfg, w, q).cmds == auth.cmds + revoke + [Commit];
    assert Cut(Issued(cfg, w, q).cmds, budget) == auth.cmds + revoke + [Commit];
    ApplyConcat(Start(w), w.now, auth.cmds + revoke, [Commit]);
    ApplyConcat(Start(w), w.now, auth.cmds, revoke);
  }
}
