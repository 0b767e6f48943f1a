/** Where the activity bound stops holding: a logout that fails between deleting
    the throttle key and setting the revocation flag. */
module SessionWitness {
  import opened Base
  import opened Stores
  import opened SessionPlans
  import opened Protocol
  import opened SessionInvariant
  import opened SessionKeeps
  import opened SessionShape
  import opened SessionTheorems
  import opened SessionStages
  import opened SessionActivity
  import opened SessionAnswers

  /** A budget that lets a logout through up to the deletion of the throttle
      key, but not to the flag. */
  function TornBudget(cfg: Config, w: World, tok: Token): nat {
    |AuthPlan(cfg, w.now, w.redis, w.rows, Some(tok), InGoodStanding).cmds| + 4
  }

  /** Such a logout leaves the table as it was and the throttle key gone. */
  lemma TornLogout(cfg: Config, w: World, tok: Token)
    requires Inv(cfg, w) && tok in w.delivered && tok.sid.Some?
    requires AdmitsAccess(cfg, w, tok, InGoodStanding)
    ensures var w' := Next(cfg, w, Serve(Call(Some(tok), InGoodStanding, LogoutThis), TornBudget(cfg, w, tok)));
            && w'.rows == w.rows && w'.now == w.now && tok in w'.delivered
            && SessionTouch(tok.sid.value) !in w'.redis && SessionRevoked(tok.sid.value) !in w'.redis
  {
    hide Fine, Core, ValidatePlan;
    var q := Call(Some(tok), InGoodStanding, LogoutThis);
    var sid := tok.sid.value;
    var env := Around(cfg, w, q);
    var auth := AuthPlan(cfg, w.now, w.redis, w.rows, Some(tok), InGoodStanding);
    var s := ApplyAll(Start(w), w.now, auth.cmds);
    AtStart(cfg, w, q);
    SeenRows(cfg, w, Some(tok), InGoodStanding);
    AdmittedNotDoomed(cfg, w, tok, InGoodStanding, sid);
    KeepsAuth(env, w, Start(w), Some(tok), InGoodStanding);
    var row := s.working[sid];
    var bl: seq<SessionCommand> := [Set(RevokedJti(row.jti), Mark, cfg.RefreshSeconds(true)),
                                    Write(s.working[sid := Closed(row, w.now, "logout")])];
    var dels: seq<SessionCommand> := [Delete(SessionActive(sid)), Delete(SessionTouch(sid))];
    var cmds := Issued(cfg, w, q).cmds;
    assert RevokeCmds(cfg, w.now, s.working, sid, "logout")
        == bl + dels + [Set(SessionRevoked(sid), Mark, cfg.AbsoluteSeconds())];
    assert Cut(cmds, TornBudget(cfg, w, tok)) == auth.cmds + bl + dels;
    ApplyConcat(Start(w), w.now, auth.cmds + bl, dels);
    ApplyConcat(Start(w), w.now, auth.cmds, bl);
    ApplyTwo(s, w.now, bl[0], bl[1]);
    var s1 := ApplyAll(s, w.now, bl);
    ApplyTwo(s1, w.now, dels[0], dels[1]);
    AuthFlags(cfg, w, Some(tok), sid);
  }

  /** Letting an access token in flags nothing. */
  lemma AuthFlags(cfg: Config, w: World, cookie: Option<Token>, sid: Uuid)
    requires AuthPlan(cfg, w.now, w.redis, w.rows, cookie, InGoodStanding).result.Ok?
    requires SessionRevoked(sid) !in w.redis
    ensures SessionRevoked(sid) !in
              ApplyAll(Start(w), w.now, AuthPlan(cfg, w.now, w.redis, w.rows, cookie, InGoodStanding).cmds).redis
  {
    StaysAway(Start(w), w.now, AuthPlan(cfg, w.now, w.redis, w.rows, cookie, InGoodStanding).cmds, SessionRevoked(sid));
  }

  /** A request right after the torn logout counts again within the interval. */
  lemma TornLogoutBreaksRate(cfg: Config, w: World, tok: Token, budget: nat)
    requires Reached(cfg, w) && tok in w.delivered && tok.sid.Some?
    requires AdmitsAccess(cfg, w, tok, InGoodStanding) && tok.sid.value in w.rows
    requires w.now < Due(cfg, w.rows[tok.sid.value])
    requires var w1 := Next(cfg, w, Serve(Call(Some(tok), InGoodStanding, LogoutThis), TornBudget(cfg, w, tok)));
             FaultFree(cfg, w1, Serve(Call(Some(tok), InGoodStanding, Read), budget))
    ensures var w1 := Next(cfg, w, Serve(Call(Some(tok), InGoodStanding, LogoutThis), TornBudget(cfg, w, tok)));
            var w2 := Next(cfg, w1, Serve(Call(Some(tok), InGoodStanding, Read), budget));
            && Reached(cfg, w2) && tok.sid.value in w2.rows
            && 1 + (w2.now - w2.rows[tok.sid.value].loginAt) / cfg.throttleSeconds
               < w2.rows[tok.sid.value].requests
  {
    hide Core, AuthPlan, Reached, Initial;
    var sid := tok.sid.value;
    var torn := Serve(Call(Some(tok), InGoodStanding, LogoutThis), TornBudget(cfg, w, tok));
    var read := Serve(Call(Some(tok), InGoodStanding, Read), budget);
    ReachedInv(cfg, w);
    TornLogout(cfg, w, tok);
    TornThenCounts(cfg, w, tok, budget);
    RunTwo(cfg, w, torn, read);
    ReachedRun(cfg, w, [torn, read]);
    QuotientBelow(cfg.throttleSeconds, w.rows[sid].requests, w.now - w.rows[sid].loginAt);
  }

  lemma TornThenCounts(cfg: Config, w: World, tok: Token, budget: nat)
    requires Inv(cfg, w) && tok in w.delivered && tok.sid.Some?
    requires AdmitsAccess(cfg, w, tok, InGoodStanding) && tok.sid.value in w.rows
    requires var w1 := Next(cfg, w, Serve(Call(Some(tok), InGoodStanding, LogoutThis), TornBudget(cfg, w, tok)));
             FaultFree(cfg, w1, Serve(Call(Some(tok), InGoodStanding, Read), budget))
    ensures var w1 := Next(cfg, w, Serve(Call(Some(tok), InGoodStanding, LogoutThis), TornBudget(cfg, w, tok)));
            var w2 := Next(cfg, w1, Serve(Call(Some(tok), InGoodStanding, Read), budget));
            var sid := tok.sid.value;
            && sid in w2.rows && w2.now == w.now && w2.rows[sid].loginAt == w.rows[sid].loginAt
            && w2.rows[sid].requests == w.rows[sid].requests + 1
  {
    hide Inv, ValidatePlan;
    var torn := Serve(Call(Some(tok), InGoodStanding, LogoutThis), TornBudget(cfg, w, tok));
    var w1 := Next(cfg, w, torn);
    var q := Call(Some(tok), InGoodStanding, Read);
    TornLogout(cfg, w, tok);
    InvNext(cfg, w, torn);
    StillLetIn(cfg, w, w1, tok);
    InvNext(cfg, w1, Serve(q, budget));
    CountStep(cfg, w1, q, budget, tok.sid.value);
  }

  lemma RunTwo(cfg: Config, w: World, a: Step, b: Step)
    ensures Run(cfg, w, [a, b]) == Next(cfg, Next(cfg, w, a), b)
    ensures ValidRun(cfg, w, [a, b]) <==> Enabled(cfg, w, a) && Enabled(cfg, Next(cfg, w, a), b)
  {
    assert [a, b][1..] == [b] && [b][1..] == [];
    var w1 := Next(cfg, w, a);
    assert Run(cfg, w1, [b]) == Run(cfg, Next(cfg, w1, b), []);
    assert ValidRun(cfg, w1, [b]) <==> Enabled(cfg, w1, b);
  }

  /** With the same table and no flag, the token is let in again. */
  lemma StillLetIn(cfg: Config, w: World, w1: World, tok: Token)
    requires AdmitsAccess(cfg, w, tok, InGoodStanding) && tok.sid.Some?
    requires w1.rows == w.rows && w1.now == w.now && SessionRevoked(tok.sid.value) !in w1.redis
    ensures AdmitsAccess(cfg, w1, tok, InGoodStanding)
  {
  }

  /** The budget of a request no command of which fails. */
  function Enough(cfg: Config, w: World, q: Request): nat {
    |Issued(cfg, w, q).cmds|
  }

  /** A first login leaves a usable session and its access token. */
  lemma FirstLogin(cfg: Config, w: World, user: Uuid, device: Device, mint: Mint)
    requires cfg.Sane() && Initial(w) && Fresh(w, mint)
    ensures var q := Login(user, false, device, mint);
            var w' := Next(cfg, w, Serve(q, Enough(cfg, w, q)));
            var tok := IssuePair(cfg, w.now, user, false, Some(mint.sid), mint).access;
            && w'.now == w.now && w'.redis.Keys == {SessionActive(mint.sid)}
            && w'.rows == map[mint.sid := FreshRow(cfg, w.now, user, mint.refresh, false, device)]
            && tok in w'.delivered
            && IssuePair(cfg, w.now, user, false, Some(mint.sid), mint).refresh in w'.delivered
            && w'.minted == w.minted + {mint.sid, mint.access, mint.refresh}
  {
    var q := Login(user, false, device, mint);
    var row := FreshRow(cfg, w.now, user, mint.refresh, false, device);
    var a: seq<SessionCommand> := [Select, Write(map[mint.sid := row])];
    var b: seq<SessionCommand> := [SetActive(cfg, mint.sid), Commit];
    assert w.rows[mint.sid := row] == map[mint.sid := row];
    assert Issued(cfg, w, q).cmds == a + b;
    assert Cut(a + b, |a + b|) == a + b;
    ApplyConcat(Start(w), w.now, a, b);
    ApplyTwo(Start(w), w.now, a[0], a[1]);
    ApplyTwo(ApplyAll(Start(w), w.now, a), w.now, b[0], b[1]);
  }

  /** A session used in its first instant has counted one request, is still
      let in, and is not due again. */
  lemma FirstRead(cfg: Config, w: World, tok: Token, sid: Uuid)
    requires Inv(cfg, w) && tok in w.delivered && tok.sid == Some(sid)
    requires AdmitsAccess(cfg, w, tok, InGoodStanding)
    requires sid in w.rows && w.rows[sid].requests == 0 && w.rows[sid].loginAt == w.now
    requires SessionTouch(sid) !in w.redis && SessionRevoked(sid) !in w.redis
    ensures var q := Call(Some(tok), InGoodStanding, Read);
            var w' := Next(cfg, w, Serve(q, Enough(cfg, w, q)));
            && sid in w'.rows && w'.now < Due(cfg, w'.rows[sid])
            && tok in w'.delivered && AdmitsAccess(cfg, w', tok, InGoodStanding)
  {
    hide Core, AuthPlan;
    var q := Call(Some(tok), InGoodStanding, Read);
    var w' := Next(cfg, w, Serve(q, Enough(cfg, w, q)));
    InvNext(cfg, w, Serve(q, Enough(cfg, w, q)));
    CountStep(cfg, w, q, Enough(cfg, w, q), sid);
    OneMore(cfg, w.rows[sid], w'.rows[sid]);
    ReadKeeps(cfg, w, tok, sid);
    ReadLetIn(cfg, w, w', tok, sid);
  }

  lemma ReadLetIn(cfg: Config, w: World, w1: World, tok: Token, sid: Uuid)
    requires AdmitsAccess(cfg, w, tok, InGoodStanding) && tok.sid == Some(sid) && cfg.Sane()
    requires w1.rows == Seen(cfg, w, Some(tok), InGoodStanding) && w1.now == w.now
    requires SessionRevoked(sid) !in w1.redis
    ensures AdmitsAccess(cfg, w1, tok, InGoodStanding)
  {
    SeenRows(cfg, w, Some(tok), InGoodStanding);
  }

  lemma ReadKeeps(cfg: Config, w: World, tok: Token, sid: Uuid)
    requires AdmitsAccess(cfg, w, tok, InGoodStanding) && tok.sid == Some(sid)
    ensures var q := Call(Some(tok), InGoodStanding, Read);
            var w' := Next(cfg, w, Serve(q, Enough(cfg, w, q)));
            && w'.rows == Seen(cfg, w, Some(tok), InGoodStanding)
            && (SessionRevoked(sid) !in w.redis ==> SessionRevoked(sid) !in w'.redis)
  {
    hide ValidatePlan;
    var q := Call(Some(tok), InGoodStanding, Read);
    var auth := AuthPlan(cfg, w.now, w.redis, w.rows, Some(tok), InGoodStanding);
    assert Issued(cfg, w, q).cmds == auth.cmds + [Commit];
    assert Cut(Issued(cfg, w, q).cmds, Enough(cfg, w, q)) == auth.cmds + [Commit];
    ApplyConcat(Start(w), w.now, auth.cmds, [Commit]);
    if SessionRevoked(sid) !in w.redis {
      AuthFlags(cfg, w, Some(tok), sid);
    }
  }

  /** Two requests from an empty system: log in, and read. */
  lemma UsedAtOnce(cfg: Config, w0: World, user: Uuid, device: Device, mint: Mint)
    requires cfg.Sane() && Initial(w0) && Fresh(w0, mint)
    ensures var login := Login(user, false, device, mint);
            var w1 := Next(cfg, w0, Serve(login, Enough(cfg, w0, login)));
            var tok := IssuePair(cfg, w0.now, user, false, Some(mint.sid), mint).access;
            var read := Call(Some(tok), InGoodStanding, Read);
            var w2 := Next(cfg, w1, Serve(read, Enough(cfg, w1, read)));
            && ValidRun(cfg, w0, [Serve(login, Enough(cfg, w0, login)), Serve(read, Enough(cfg, w1, read))])
            && mint.sid in w2.rows && w2.now < Due(cfg, w2.rows[mint.sid])
            && tok in w2.delivered && AdmitsAccess(cfg, w2, tok, InGoodStanding)
  {
    hide Core, Issued;
    var login := Login(user, false, device, mint);
    var w1 := Next(cfg, w0, Serve(login, Enough(cfg, w0, login)));
    var tok := IssuePair(cfg, w0.now, user, false, Some(mint.sid), mint).access;
    var read := Call(Some(tok), InGoodStanding, Read);
    InvInitial(cfg, w0);
    FirstLogin(cfg, w0, user, device, mint);
    InvNext(cfg, w0, Serve(login, Enough(cfg, w0, login)));
    FreshLetIn(cfg, w1, tok, mint.sid, user, mint.refresh, device);
    FirstRead(cfg, w1, tok, mint.sid);
    RunTwo(cfg, w0, Serve(login, Enough(cfg, w0, login)), Serve(read, Enough(cfg, w1, read)));
  }

  lemma FreshLetIn(cfg: Config, w: World, tok: Token, sid: Uuid, user: Uuid, jti: Uuid, device: Device)
    requires cfg.Sane() && w.redis.Keys == {SessionActive(sid)}
    requires w.rows == map[sid := FreshRow(cfg, w.now, user, jti, false, device)]
    requires tok.kind == Access && tok.user == user && tok.sid == Some(sid) && w.now < tok.exp
    ensures AdmitsAccess(cfg, w, tok, InGoodStanding)
  {
  }

  /** The bound of `TouchRate` is broken by a run of four requests, under any
      settings: log in, read, a logout cut inside the cache clearing, read. */
  lemma RateBoundFails(cfg: Config, w0: World)
    requires cfg.Sane() && Initial(w0)
    ensures exists w, sid :: Reached(cfg, w) && sid in w.rows
              && 1 + (w.now - w.rows[sid].loginAt) / cfg.throttleSeconds < w.rows[sid].requests
  {
    hide Core, AuthPlan, Next, Issued;
    var mint := Mint(Uuid(0), Uuid(1), Uuid(2));
    var user, device := Uuid(3), Device("", "", "");
    var login := Login(user, false, device, mint);
    var w1 := Next(cfg, w0, Serve(login, Enough(cfg, w0, login)));
    var tok := IssuePair(cfg, w0.now, user, false, Some(mint.sid), mint).access;
    var read := Call(Some(tok), InGoodStanding, Read);
    var w2 := Next(cfg, w1, Serve(read, Enough(cfg, w1, read)));
    var steps := [Serve(login, Enough(cfg, w0, login)), Serve(read, Enough(cfg, w1, read))];
    UsedAtOnce(cfg, w0, user, device, mint);
    RunTwo(cfg, w0, steps[0], steps[1]);
    assert Reached(cfg, w2) by {
      assert Initial(w0) && ValidRun(cfg, w0, steps) && Run(cfg, w0, steps) == w2;
    }
    var w3 := Next(cfg, w2, Serve(Call(Some(tok), InGoodStanding, LogoutThis), TornBudget(cfg, w2, tok)));
    var budget := Enough(cfg, w3, read);
    TornLogoutBreaksRate(cfg, w2, tok, budget);
    assert Reached(cfg, Next(cfg, w3, Serve(read, budget)));
  }

  // ------------------------------------------------- what an expiry does

  /** Presenting it closes the session for good although the request is
      rejected - but blacklists no refresh token: only the row and the flag
      keep the session's refresh token out. */
  lemma ExpiryBlacklistsNothing(cfg: Config, w: World, tok: Token, action: Action, budget: nat, steps: seq<Step>)
    requires Reached(cfg, w) && Possible(cfg, w, Call(Some(tok), InGoodStanding, action)) && Expiring(cfg, w, tok)
    requires FaultFree(cfg, w, Serve(Call(Some(tok), InGoodStanding, action), budget))
    ensures var w' := Next(cfg, w, Serve(Call(Some(tok), InGoodStanding, action), budget));
            && tok.sid.value in w'.rows && !w'.rows[tok.sid.value].active
            && (forall jti :: RevokedJti(jti) in w'.redis <==> RevokedJti(jti) in w.redis)
            && (ValidRun(cfg, w', steps) ==> ShutOut(cfg, Run(cfg, w', steps), tok.sid.value))
  {
    hide Inv, ExpireCmds, FaultFree, Possible;
    ReachedInv(cfg, w);
    var q, sid := Call(Some(tok), InGoodStanding, action), tok.sid.value;
    var w' := Next(cfg, w, Serve(q, budget));
    ExpiryPlan(cfg, w, tok, action);
    assert Cut(Issued(cfg, w, q).cmds, budget) == Issued(cfg, w, q).cmds by { Whole(cfg, w, q, budget); }
    InvNext(cfg, w, Serve(q, budget));
    forall jti
      ensures RevokedJti(jti) in w'.redis <==> RevokedJti(jti) in w.redis
    {
      if RevokedJti(jti) in w.redis {
        RequestTidy(cfg, w, q);
        SetStays(Start(w), w.now, Issued(cfg, w, q).cmds, RevokedJti(jti));
      } else {
        StaysAway(Start(w), w.now, Issued(cfg, w, q).cmds, RevokedJti(jti));
      }
    }
    if ValidRun(cfg, w', steps) {
      DoomedForever(cfg, w', sid, steps);
    }
  }

  lemma Whole(cfg: Config, w: World, q: Request, budget: nat)
    requires FaultFree(cfg, w, Serve(q, budget))
    ensures Cut(Issued(cfg, w, q).cmds, budget) == Issued(cfg, w, q).cmds
  {
  }

  function ExpiryReason(cfg: Config, w: World, sid: Uuid): string {
    if sid in w.rows && w.rows[sid].expiresAt <= w.now then "absolute_expiry" else "idle_timeout"
  }

  lemma ExpiryIssues(cfg: Config, w: World, tok: Token, action: Action)
    requires Expiring(cfg, w, tok)
    ensures Issued(cfg, w, Call(Some(tok), InGoodStanding, action)).cmds
         == [Select, Exists(SessionRevoked(tok.sid.value)), Select]
            + ExpireCmds(cfg, w.now, w.rows, tok.sid.value, ExpiryReason(cfg, w, tok.sid.value))
  {
    hide ExpireCmds;
  }

  /** All that presenting an expiring token does, whatever the request is for. */
  lemma ExpiryOutcome(cfg: Config, w: World, tok: Token, action: Action, budget: nat)
    requires Expiring(cfg, w, tok) && FaultFree(cfg, w, Serve(Call(Some(tok), InGoodStanding, action), budget))
    ensures var q, sid := Call(Some(tok), InGoodStanding, action), tok.sid.value;
            var w' := Next(cfg, w, Serve(q, budget));
            && Answer(cfg, w, q, budget) == Raised(AuthError)
            && w'.rows == w.rows[sid := w.rows[sid].(active := false, logoutAt := Some(w.now),
                                                     reason := Some(if w.rows[sid].expiresAt <= w.now
                                                                    then "absolute_expiry" else "idle_timeout"))]
            && w'.redis == (w.redis - {SessionActive(sid), SessionTouch(sid)})
                           [SessionRevoked(sid) := Entry(Mark, Some(w.now + 3600 * cfg.absoluteHours))]
  {
    var q, sid := Call(Some(tok), InGoodStanding, action), tok.sid.value;
    var asked: seq<SessionCommand> := [Select, Exists(SessionRevoked(sid)), Select];
    var expire := ExpireCmds(cfg, w.now, w.rows, sid, ExpiryReason(cfg, w, sid));
    assert Issued(cfg, w, q).result == Raised(AuthError);
    ExpiryIssues(cfg, w, tok, action);
    hide Issued;
    Whole(cfg, w, q, budget);
    ApplyConcat(Start(w), w.now, asked, expire);
    ReadsChangeNothing(Start(w), w.now, asked);
    ExpireLeaves(cfg, w.now, Start(w), sid, ExpiryReason(cfg, w, sid));
  }

  lemma ExpireCloses(cfg: Config, now: int, s: SessionState, sid: Uuid, reason: string)
    requires sid in s.working
    ensures var after := ApplyAll(s, now, ExpireCmds(cfg, now, s.working, sid, reason)).committed;
            sid in after && after[sid] == Closed(s.working[sid], now, reason)
  {
    var write: SessionCommand := Write(s.working[sid := Closed(s.working[sid], now, reason)]);
    var clear := ClearCacheCmds(cfg, sid, true);
    ApplyConcat(s, now, [write, Commit], clear);
    ApplyTwo(s, now, write, Commit);
    NoCommits(ApplyAll(s, now, [write, Commit]), now, clear);
  }

  lemma ExpiryPlan(cfg: Config, w: World, tok: Token, action: Action)
    requires Expiring(cfg, w, tok)
    ensures var cmds, sid := Issued(cfg, w, Call(Some(tok), InGoodStanding, action)).cmds, tok.sid.value;
            && sid in ApplyAll(Start(w), w.now, cmds).committed
               && !ApplyAll(Start(w), w.now, cmds).committed[sid].active
            && (forall c | c in cmds :: !c.Incr? && !c.Expire? && (c.Set? ==> c.key == SessionRevoked(sid)))
  {
    hide Issued;
    var sid := tok.sid.value;
    var asked: seq<SessionCommand> := [Select, Exists(SessionRevoked(sid)), Select];
    var expire := ExpireCmds(cfg, w.now, w.rows, sid, ExpiryReason(cfg, w, sid));
    ExpiryIssues(cfg, w, tok, action);
    ApplyConcat(Start(w), w.now, asked, expire);
    ReadsChangeNothing(Start(w), w.now, asked);
    ExpireCloses(cfg, w.now, Start(w), sid, ExpiryReason(cfg, w, sid));
  }

  /** A refresh that goes through: the row names the new token and its time. */
  lemma RotateServed(cfg: Config, w: World, t: Token, mint: Mint)
    requires Inv(cfg, w) && Possible(cfg, w, Rotate(Some(t), mint)) && LiveRefresh(w, t) && t.sid.Some?
    requires SessionRevoked(t.sid.value) !in w.redis
    ensures var q, sid := Rotate(Some(t), mint), t.sid.value;
            var w' := Next(cfg, w, Serve(q, Enough(cfg, w, q)));
            var pair := IssuePair(cfg, w.now, t.user, t.remember, t.sid, mint);
            && sid in w.rows && w'.now == w.now
            && w'.rows == w.rows[sid := w.rows[sid].(jti := mint.refresh, lastActivity := w.now)]
            && pair.access in w'.delivered && pair.refresh in w'.delivered
            && SessionRevoked(sid) !in w'.redis && RevokedJti(mint.refresh) !in w'.redis
  {
    assert t in w.delivered;
    var q, sid := Rotate(Some(t), mint), t.sid.value;
    var cmds := Issued(cfg, w, q).cmds;
    RefreshAccepts(cfg, w, t, mint);
    RotateIssues(cfg, w, t, mint);
    RotateTables(cfg, w, t, mint, |cmds|);
    hide Core, Possible, Issued, LiveRefresh, AdmitsRefresh;
    assert Cut(cmds, |cmds|) == cmds;
    StaysAway(Start(w), w.now, cmds, SessionRevoked(sid));
    ServedPair(cfg, w, q, |cmds|);
  }

  /** Log in, wait until the session is about to expire, refresh, wait a second. */
  lemma ExpiringReached(cfg: Config, w0: World, user: Uuid, device: Device, mint: Mint, mint2: Mint)
    returns (w: World, pair: Pair)
    requires cfg.Sane() && Initial(w0) && Fresh(w0, mint)
    requires Fresh(w0.(minted := w0.minted + {mint.sid, mint.access, mint.refresh}), mint2)
    ensures Reached(cfg, w) && pair.access in w.delivered && pair.refresh in w.delivered
    ensures pair.access.sid == Some(mint.sid) && pair.refresh.sid == Some(mint.sid)
    ensures Expiring(cfg, w, pair.access) && w.rows[mint.sid].jti == mint2.refresh
    ensures pair.refresh.kind == Refresh && pair.refresh.jti == mint2.refresh && w.now + 1 < pair.refresh.exp
    ensures RevokedJti(mint2.refresh) !in w.redis
  {
    hide Core, Issued, Inv, Reached, AuthPlan, LoginPlan, RefreshPlan;
    var span := Min(cfg.RefreshSeconds(false), cfg.AbsoluteSeconds());
    var login := Login(user, false, device, mint);
    var w1 := Next(cfg, w0, Serve(login, Enough(cfg, w0, login)));
    var first := IssuePair(cfg, w0.now, user, false, Some(mint.sid), mint);
    FirstLogin(cfg, w0, user, device, mint);
    InvInitial(cfg, w0);
    InvNext(cfg, w0, Serve(login, Enough(cfg, w0, login)));
    InvNext(cfg, w1, Tick(span - 1));
    var w2 := Next(cfg, w1, Tick(span - 1));
    var q := Rotate(Some(first.refresh), mint2);
    assert LiveRefresh(w2, first.refresh);
    RotateServed(cfg, w2, first.refresh, mint2);
    var w3 := Next(cfg, w2, Serve(q, Enough(cfg, w2, q)));
    w := Next(cfg, w3, Tick(1));
    pair := IssuePair(cfg, w2.now, user, false, Some(mint.sid), mint2);
    var steps := [Serve(login, Enough(cfg, w0, login)), Tick(span - 1)];
    var more := [Serve(q, Enough(cfg, w2, q)), Tick(1)];
    RunTwo(cfg, w0, steps[0], steps[1]);
    RunTwo(cfg, w2, more[0], more[1]);
    IsReached(cfg, w0, steps);
    ReachedRun(cfg, w2, more);
  }

  lemma IsReached(cfg: Config, w0: World, steps: seq<Step>)
    requires cfg.Sane() && Initial(w0) && ValidRun(cfg, w0, steps)
    ensures Reached(cfg, Run(cfg, w0, steps))
  {
  }

  /** So a run of three requests, under any settings, ends with a closed session
      whose unexpired refresh token is not blacklisted. */
  lemma ExpiredTokenUnlisted(cfg: Config, w0: World)
    requires cfg.Sane() && Initial(w0)
    ensures exists w, t :: Reached(cfg, w) && t in w.delivered && t.kind == Refresh && w.now < t.exp
              && t.sid.Some? && t.sid.value in w.rows && w.rows[t.sid.value].jti == t.jti
              && !w.rows[t.sid.value].active && RevokedJti(t.jti) !in w.redis
  {
    hide Core, Issued, Inv, Reached, Expiring, Next;
    var mint, mint2 := Mint(Uuid(0), Uuid(1), Uuid(2)), Mint(Uuid(4), Uuid(5), Uuid(6));
    var w, pair := ExpiringReached(cfg, w0, Uuid(3), Device("", "", ""), mint, mint2);
    var q := Call(Some(pair.access), InGoodStanding, Read);
    var read := Serve(q, Enough(cfg, w, q));
    ExpiryBlacklistsNothing(cfg, w, pair.access, Read, read.budget, []);
    RunOne(cfg, w, read);
    ReachedRun(cfg, w, [read]);
    ExpiryKeepsName(cfg, w, pair.access, read.budget);
    DeliveredStays(cfg, w, read);
  }

  lemma DeliveredStays(cfg: Config, w: World, step: Step)
    ensures w.delivered <= Next(cfg, w, step).delivered
    ensures step.Serve? ==> Next(cfg, w, step).now == w.now
  {
  }

  lemma ExpiryKeepsName(cfg: Config, w: World, tok: Token, budget: nat)
    requires Expiring(cfg, w, tok)
    requires var q := Call(Some(tok), InGoodStanding, Read); FaultFree(cfg, w, Serve(q, budget))
    ensures var w' := Next(cfg, w, Serve(Call(Some(tok), InGoodStanding, Read), budget));
            tok.sid.value in w'.rows && w'.rows[tok.sid.value].jti == w.rows[tok.sid.value].jti
  {
    hide Issued;
    var q, sid := Call(Some(tok), InGoodStanding, Read), tok.sid.value;
    var asked: seq<SessionCommand> := [Select, Exists(SessionRevoked(sid)), Select];
    var expire := ExpireCmds(cfg, w.now, w.rows, sid, ExpiryReason(cfg, w, sid));
    ExpiryIssues(cfg, w, tok, Read);
    Whole(cfg, w, q, budget);
    ApplyConcat(Start(w), w.now, asked, expire);
    ReadsChangeNothing(Start(w), w.now, asked);
    ExpireCloses(cfg, w.now, Start(w), sid, ExpiryReason(cfg, w, sid));
  }

  // ------------------------------------------------- keep-alive defeated

  /** A request that is let in and then fails leaves the throttle key set and
      the activity unrecorded. */
  lemma FailureThrottles(cfg: Config, w: World, tok: Token)
    requires Inv(cfg, w) && tok in w.delivered && tok.sid.Some? && AdmitsAccess(cfg, w, tok, InGoodStanding)
    requires !Live(w.redis, SessionTouch(tok.sid.value), w.now)
    ensures var q, sid := Call(Some(tok), InGoodStanding, Fails(NotFound)), tok.sid.value;
            var w' := Next(cfg, w, Serve(q, Enough(cfg, w, q)));
            && w'.rows == w.rows && w'.now == w.now && tok in w'.delivered
            && SessionTouch(sid) in w'.redis
            && w'.redis[SessionTouch(sid)].deadline == Some(w.now + cfg.throttleSeconds)
            && AdmitsAccess(cfg, w', tok, InGoodStanding)
            && Aborts(cfg, w, q, Enough(cfg, w, q), sid)
  {
    hide Core, TouchTarget;
    var q, sid := Call(Some(tok), InGoodStanding, Fails(NotFound)), tok.sid.value;
    var auth := AuthPlan(cfg, w.now, w.redis, w.rows, Some(tok), InGoodStanding);
    var budget := Enough(cfg, w, q);
    AdmittedOpen(cfg, w, tok, sid);
    assert Issued(cfg, w, q).cmds == auth.cmds + [];
    assert Cut(Issued(cfg, w, q).cmds, budget) == auth.cmds;
    LetInTouches(cfg, w, tok);
    AuthFlags(cfg, w, Some(tok), sid);
    TouchEntry(cfg, w, q, budget, sid);
    StillLetIn(cfg, w, Next(cfg, w, Serve(q, budget)), tok);
  }

  lemma LetInTouches(cfg: Config, w: World, tok: Token)
    requires tok.sid.Some? && AdmitsAccess(cfg, w, tok, InGoodStanding)
    requires !Live(w.redis, SessionTouch(tok.sid.value), w.now)
    ensures var cmds := AuthPlan(cfg, w.now, w.redis, w.rows, Some(tok), InGoodStanding).cmds;
            && cmds != [] && cmds[|cmds| - 1] == SetActive(cfg, tok.sid.value)
            && Set(SessionTouch(tok.sid.value), Mark, cfg.throttleSeconds) in cmds && Commit !in cmds
            && ApplyAll(Start(w), w.now, cmds).committed == w.rows
  {
    SeenRows(cfg, w, Some(tok), InGoodStanding);
    LetInIssues(cfg, w, tok);
    hide AuthPlan, AdmitsAccess;
    var cmds := AuthPlan(cfg, w.now, w.redis, w.rows, Some(tok), InGoodStanding).cmds;
    assert cmds[|cmds| - 2] == Set(SessionTouch(tok.sid.value), Mark, cfg.throttleSeconds);
  }

  lemma LetInIssues(cfg: Config, w: World, tok: Token)
    requires tok.sid.Some? && AdmitsAccess(cfg, w, tok, InGoodStanding)
    requires !Live(w.redis, SessionTouch(tok.sid.value), w.now)
    ensures var sid := tok.sid.value;
            && sid in w.rows
            && AuthPlan(cfg, w.now, w.redis, w.rows, Some(tok), InGoodStanding).cmds
               == [Select, Exists(SessionRevoked(sid)), Select, Exists(SessionTouch(sid)),
                   Write(Touched(w.rows, w.now, sid)), Set(SessionTouch(sid), Mark, cfg.throttleSeconds),
                   SetActive(cfg, sid)]
  {
  }

  /** Log in, wait `s` seconds, fail a request, read: the read is served and
      committed, and the session is idle when the idle timeout has passed since
      login - a second after the read, if `s` is the idle timeout. */
  lemma KeepAliveFails(cfg: Config, w0: World, s: nat)
    requires cfg.Sane() && Initial(w0) && cfg.throttleSeconds < s <= cfg.IdleSeconds()
    requires s < cfg.AccessSeconds() && s < Min(cfg.RefreshSeconds(false), cfg.AbsoluteSeconds())
    ensures exists w, tok :: Reached(cfg, w) && tok in w.delivered && tok.sid.Some?
              && var read := Call(Some(tok), InGoodStanding, Read);
                 var later := Next(cfg, Next(cfg, w, Serve(read, Enough(cfg, w, read))),
                                   Tick(cfg.IdleSeconds() + 1 - s));
                 && ServedSession(cfg, w, read, Enough(cfg, w, read)) == tok.sid
                 && tok.sid.value in later.rows && later.rows[tok.sid.value].active
                 && Idle(cfg, later.rows[tok.sid.value], later.now)
  {
    hide Core, Issued, Inv, Reached, AuthPlan, LoginPlan;
    var mint := Mint(Uuid(0), Uuid(1), Uuid(2));
    var login := Login(Uuid(3), false, Device("", "", ""), mint);
    var w1 := Next(cfg, w0, Serve(login, Enough(cfg, w0, login)));
    var tok := IssuePair(cfg, w0.now, Uuid(3), false, Some(mint.sid), mint).access;
    var w2 := Next(cfg, w1, Tick(s));
    var fails := Call(Some(tok), InGoodStanding, Fails(NotFound));
    var w3 := Next(cfg, w2, Serve(fails, Enough(cfg, w2, fails)));
    FirstLogin(cfg, w0, Uuid(3), Device("", "", ""), mint);
    InvInitial(cfg, w0);
    InvNext(cfg, w0, Serve(login, Enough(cfg, w0, login)));
    InvNext(cfg, w1, Tick(s));
    LetInLater(cfg, w2, tok, mint.sid, Uuid(3), mint.refresh, Device("", "", ""), s);
    FailureThrottles(cfg, w2, tok);
    var steps := [Serve(login, Enough(cfg, w0, login)), Tick(s)];
    var more := [Serve(fails, Enough(cfg, w2, fails))];
    RunTwo(cfg, w0, steps[0], steps[1]);
    IsReached(cfg, w0, steps);
    RunOne(cfg, w2, more[0]);
    ReachedRun(cfg, w2, more);
    InvNext(cfg, w2, more[0]);
    ThrottledRead(cfg, w3, tok);
  }

  lemma LetInLater(cfg: Config, w: World, tok: Token, sid: Uuid, user: Uuid, jti: Uuid, device: Device, s: nat)
    requires cfg.Sane() && w.redis.Keys == {SessionActive(sid)}
    requires w.rows == map[sid := FreshRow(cfg, w.now - s, user, jti, false, device)]
    requires s <= cfg.IdleSeconds() && s < Min(cfg.RefreshSeconds(false), cfg.AbsoluteSeconds())
    requires tok.kind == Access && tok.user == user && tok.sid == Some(sid) && w.now < tok.exp
    ensures AdmitsAccess(cfg, w, tok, InGoodStanding)
  {
  }

  /** A throttled read is served and changes no row. */
  lemma ThrottledRead(cfg: Config, w: World, tok: Token)
    requires Inv(cfg, w) && tok in w.delivered && tok.sid.Some? && AdmitsAccess(cfg, w, tok, InGoodStanding)
    requires Live(w.redis, SessionTouch(tok.sid.value), w.now)
    ensures var read := Call(Some(tok), InGoodStanding, Read);
            && ServedSession(cfg, w, read, Enough(cfg, w, read)) == tok.sid
            && Next(cfg, w, Serve(read, Enough(cfg, w, read))).rows == w.rows
  {
    hide Inv, ValidatePlan;
    ReadKeeps(cfg, w, tok, tok.sid.value);
    SeenRows(cfg, w, Some(tok), InGoodStanding);
  }
}
