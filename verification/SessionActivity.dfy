/** Activity accounting: how often a session is touched, and when it goes idle. */
module SessionActivity {
  import opened Base
  import opened Stores
  import opened SessionPlans
  import opened Protocol
  import opened SessionInvariant
  import opened SessionKeeps
  import opened SessionShape
  import opened SessionTheorems
  import opened SessionStages

  // ------------------------------------------------- what requests write

  /** The same requests counted, and the same times, for the rows of `base`. */
  ghost predicate SameActivity(base: Rows, rows: Rows) {
    forall sid | sid in base ::
      && sid in rows && rows[sid].requests == base[sid].requests
      && rows[sid].lastActivity == base[sid].lastActivity && rows[sid].loginAt == base[sid].loginAt
  }

  /** The same requests counted for the rows of `base`; any other row is one of
      `extra` and has none. */
  ghost predicate SameCounts(base: Rows, extra: set<Uuid>, rows: Rows) {
    && (forall sid | sid in base ::
          sid in rows && rows[sid].requests == base[sid].requests && rows[sid].loginAt == base[sid].loginAt)
    && (forall sid | sid in rows && sid !in base :: sid in extra && rows[sid].requests == 0)
  }

  ghost predicate WritesKeep(p: Rows -> bool, cmds: seq<SessionCommand>) {
    forall c | c in cmds && c.Write? :: p(c.tables)
  }

  ghost function CountsOf(base: Rows, extra: set<Uuid>): Rows -> bool {
    rows => SameCounts(base, extra, rows)
  }

  /** `SameActivity` over the same set of sessions. */
  ghost function ActivityOf(base: Rows): Rows -> bool {
    rows => SameActivity(base, rows) && rows.Keys == base.Keys
  }

  lemma {:induction false} WrittenKeep(p: Rows -> bool, s: SessionState, now: int, cmds: seq<SessionCommand>)
    requires p(s.working) && p(s.committed) && WritesKeep(p, cmds)
    ensures p(ApplyAll(s, now, cmds).working) && p(ApplyAll(s, now, cmds).committed)
    decreases |cmds|
  {
    if cmds != [] {
      WrittenKeep(p, Apply(s, now, cmds[0]), now, cmds[1..]);
    }
  }

  lemma WritesConcat(p: Rows -> bool, a: seq<SessionCommand>, b: seq<SessionCommand>)
    requires WritesKeep(p, a) && WritesKeep(p, b)
    ensures WritesKeep(p, a + b)
  {
  }

  lemma RevokeWrites(cfg: Config, now: int, base: Rows, rows: Rows, sid: Uuid, reason: string)
    requires ActivityOf(base)(rows)
    ensures WritesKeep(ActivityOf(base), RevokeCmds(cfg, now, rows, sid, reason))
    ensures Commit !in RevokeCmds(cfg, now, rows, sid, reason)
    ensures ActivityOf(base)(CloseAll(rows, now, [sid], reason))
  {
  }

  lemma {:induction false} RevokeEachWrites(cfg: Config, now: int, base: Rows, rows: Rows, order: seq<Uuid>,
                                            reason: string)
    requires ActivityOf(base)(rows)
    ensures WritesKeep(ActivityOf(base), RevokeEachCmds(cfg, now, rows, order, reason))
    ensures Commit !in RevokeEachCmds(cfg, now, rows, order, reason)
    decreases |order|
  {
    hide RevokeCmds, CloseAll;
    if order != [] {
      assert order[..1] == [order[0]];
      RevokeWrites(cfg, now, base, rows, order[0], reason);
      RevokeEachWrites(cfg, now, base, CloseAll(rows, now, order[..1], reason), order[1..], reason);
      WritesConcat(ActivityOf(base), RevokeCmds(cfg, now, rows, order[0], reason),
                   RevokeEachCmds(cfg, now, CloseAll(rows, now, order[..1], reason), order[1..], reason));
    }
  }

  lemma HandlerWrites(cfg: Config, now: int, rows: Rows, user: Uuid, current: Option<Uuid>, action: Action)
    ensures WritesKeep(ActivityOf(rows), HandlerPlan(cfg, now, rows, user, current, action).cmds)
    ensures Commit !in HandlerPlan(cfg, now, rows, user, current, action).cmds
  {
    hide RevokeCmds, RevokeEachCmds;
    match action
    case LogoutThis =>
      if current.Some? {
        RevokeWrites(cfg, now, rows, rows, current.value, "logout");
      }
    case LogoutAll(order) =>
      RevokeEachWrites(cfg, now, rows, rows, Without(order, None), "logout_all");
    case RevokeOne(target) =>
      RevokeWrites(cfg, now, rows, rows, target, "revoked_by_user");
    case Read =>
    case Fails(_) =>
  }

  lemma ActivityIsCounts(base: Rows, extra: set<Uuid>, cmds: seq<SessionCommand>)
    requires WritesKeep(ActivityOf(base), cmds)
    ensures WritesKeep(CountsOf(base, extra), cmds)
  {
  }

  /** The access token was let in. */
  predicate LetIn(cfg: Config, w: World, q: Request) {
    q.Call? && AuthPlan(cfg, w.now, w.redis, w.rows, q.cookie, q.account).result.Ok?
  }

  lemma RejectedWrites(cfg: Config, w: World, extra: set<Uuid>, cookie: Option<Token>, account: Account)
    requires AuthPlan(cfg, w.now, w.redis, w.rows, cookie, account).result.Raised?
    ensures WritesKeep(CountsOf(w.rows, extra), AuthPlan(cfg, w.now, w.redis, w.rows, cookie, account).cmds)
  {
    hide ExpireCmds, SameCounts;
    if Decode(cookie, Access, w.now).Ok? && cookie.value.sid.Some? {
      var sid := cookie.value.sid.value;
      if sid in w.rows {
        ExpireWrites(cfg, w, extra, sid, "absolute_expiry");
        ExpireWrites(cfg, w, extra, sid, "idle_timeout");
      }
    }
  }

  lemma ExpireWrites(cfg: Config, w: World, extra: set<Uuid>, sid: Uuid, reason: string)
    requires sid in w.rows
    ensures WritesKeep(CountsOf(w.rows, extra), ExpireCmds(cfg, w.now, w.rows, sid, reason))
  {
  }

  lemma ReplayWrites(cfg: Config, w: World, extra: set<Uuid>, tok: Token)
    ensures WritesKeep(CountsOf(w.rows, extra), ReplayCmds(cfg, w.now, w.rows, tok))
  {
    hide RevokeCmds, SameCounts, SameActivity;
    if tok.sid.Some? {
      SameActivityItself(w.rows);
      RevokeWrites(cfg, w.now, w.rows, w.rows, tok.sid.value, "refresh_replay");
      ActivityIsCounts(w.rows, extra, RevokeCmds(cfg, w.now, w.rows, tok.sid.value, "refresh_replay"));
    }
  }

  lemma RebindWrites(cfg: Config, w: World, extra: set<Uuid>, user: Uuid, sid: Uuid, jti: Uuid)
    ensures WritesKeep(CountsOf(w.rows, extra), RebindPlan(cfg, w.now, w.rows, user, sid, jti).cmds)
  {
  }

  lemma RefreshWrites(cfg: Config, w: World, extra: set<Uuid>, cookie: Option<Token>, mint: Mint)
    ensures WritesKeep(CountsOf(w.rows, extra), RefreshPlan(cfg, w.now, w.redis, w.rows, cookie, mint).cmds)
  {
    hide SameCounts, ReplayCmds, RebindPlan;
    var rotated := RotatePlan(cfg, w.redis, cookie, mint, w.now);
    if cookie.Some? {
      ReplayWrites(cfg, w, extra, cookie.value);
      WritesConcat(CountsOf(w.rows, extra), rotated.cmds, ReplayCmds(cfg, w.now, w.rows, cookie.value));
      if cookie.value.sid.Some? {
        RebindWrites(cfg, w, extra, cookie.value.user, cookie.value.sid.value, mint.refresh);
        WritesConcat(CountsOf(w.rows, extra), rotated.cmds,
                     RebindPlan(cfg, w.now, w.rows, cookie.value.user, cookie.value.sid.value, mint.refresh).cmds);
      }
    }
  }

  lemma LogoutWrites(cfg: Config, w: World, extra: set<Uuid>, cookie: Option<Token>)
    ensures WritesKeep(CountsOf(w.rows, extra), LogoutPlan(cfg, w.now, w.redis, w.rows, cookie).cmds)
  {
    hide RevokeCmds;
    if cookie.Some? && cookie.value.sid.Some? {
      RevokeWrites(cfg, w.now, w.rows, w.rows, cookie.value.sid.value, "logout");
      ActivityIsCounts(w.rows, extra, RevokeCmds(cfg, w.now, w.rows, cookie.value.sid.value, "logout"));
    }
  }

  lemma LoginWrites(cfg: Config, w: World, extra: set<Uuid>, user: Uuid, remember: bool, device: Device, mint: Mint)
    requires mint.sid !in w.rows && mint.sid in extra
    ensures WritesKeep(CountsOf(w.rows, extra), LoginPlan(cfg, w.now, w.rows, user, remember, device, mint).cmds)
  {
  }

  /** A request that lets no access token in counts nothing, however it is cut. */
  lemma UncountedRequest(cfg: Config, w: World, q: Request, budget: nat)
    requires Inv(cfg, w) && Possible(cfg, w, q) && !LetIn(cfg, w, q)
    ensures SameCounts(w.rows, Minted(q), Left(cfg, w, q, budget).committed)
  {
    hide Inv, AuthPlan, RefreshPlan, LogoutPlan, LoginPlan, SameCounts;
    var extra := Minted(q);
    var p := RequestPlan(cfg, w, q);
    match q {
      case Call(cookie, account, action) => RejectedWrites(cfg, w, extra, cookie, account);
      case Rotate(cookie, mint) => RefreshWrites(cfg, w, extra, cookie, mint);
      case Logout(cookie) => LogoutWrites(cfg, w, extra, cookie);
      case Login(user, remember, device, mint) =>
        FreshUnused(cfg, w, mint);
        LoginWrites(cfg, w, extra, user, remember, device, mint);
    }
    WritesConcat(CountsOf(w.rows, extra), p.cmds, [Commit]);
    assert WritesKeep(CountsOf(w.rows, extra), Cut(Issued(cfg, w, q).cmds, budget)) by {
      assert forall c | c in Cut(Issued(cfg, w, q).cmds, budget) :: c in Issued(cfg, w, q).cmds;
    }
    SameCountsItself(w.rows, extra);
    WrittenKeep(CountsOf(w.rows, extra), Start(w), w.now, Cut(Issued(cfg, w, q).cmds, budget));
  }

  lemma SameCountsItself(rows: Rows, extra: set<Uuid>)
    ensures SameCounts(rows, extra, rows)
  {
  }

  /** A request that lets an access token in commits either nothing or, when it
      runs to a successful end, the activity it recorded. */
  lemma CountedRequest(cfg: Config, w: World, q: Request, budget: nat)
    requires Inv(cfg, w) && Possible(cfg, w, q) && LetIn(cfg, w, q)
    ensures var s := Left(cfg, w, q, budget);
            var done := RequestPlan(cfg, w, q).result.Ok? && |Issued(cfg, w, q).cmds| <= budget;
            && (!done ==> s.committed == w.rows)
            && (done ==> ActivityOf(Seen(cfg, w, q.cookie, q.account))(s.committed))
  {
    hide Inv, ValidatePlan, HandlerPlan, SameActivity;
    var auth := AuthPlan(cfg, w.now, w.redis, w.rows, q.cookie, q.account);
    var seen := Seen(cfg, w, q.cookie, q.account);
    var handled := HandlerPlan(cfg, w.now, seen, q.cookie.value.user, auth.result.value, q.action);
    var p := RequestPlan(cfg, w, q);
    assert p.cmds == auth.cmds + handled.cmds;
    HandlerWrites(cfg, w.now, seen, q.cookie.value.user, auth.result.value, q.action);
    LetInNoCommit(cfg, w, q);
    var cut := Cut(Issued(cfg, w, q).cmds, budget);
    if p.result.Ok? && |Issued(cfg, w, q).cmds| <= budget {
      assert cut == p.cmds + [Commit];
      ApplyConcat(Start(w), w.now, p.cmds, [Commit]);
      ApplyConcat(Start(w), w.now, auth.cmds, handled.cmds);
      var s1 := ApplyAll(Start(w), w.now, auth.cmds);
      SameActivityItself(seen);
      WrittenKeep(ActivityOf(seen), s1.(committed := seen), w.now, handled.cmds);
      WorkingOnly(s1, seen, w.now, handled.cmds);
    } else {
      assert Commit !in cut;
      NoCommits(Start(w), w.now, cut);
    }
  }

  lemma SameActivityItself(rows: Rows)
    ensures SameActivity(rows, rows)
  {
  }

  lemma LetInNoCommit(cfg: Config, w: World, q: Request)
    requires LetIn(cfg, w, q)
    ensures Commit !in AuthPlan(cfg, w.now, w.redis, w.rows, q.cookie, q.account).cmds
  {
  }

  /** What is committed does not influence what the transaction holds. */
  lemma {:induction false} WorkingOnly(s: SessionState, committed: Rows, now: int, cmds: seq<SessionCommand>)
    ensures ApplyAll(s.(committed := committed), now, cmds).working == ApplyAll(s, now, cmds).working
    decreases |cmds|
  {
    if cmds != [] {
      var s1 := Apply(s, now, cmds[0]);
      var s2 := Apply(s.(committed := committed), now, cmds[0]);
      assert s2 == s1.(committed := s2.committed);
      WorkingOnly(s1, s2.committed, now, cmds[1..]);
    }
  }

  // ------------------------------------------------- the throttle key

  /** The request was cut right after deleting the session's throttle key. */
  predicate Torn(cfg: Config, w: World, q: Request, budget: nat, sid: Uuid) {
    var cut := Cut(Issued(cfg, w, q).cmds, budget);
    0 < |cut| && cut[|cut| - 1] == Delete(SessionTouch(sid))
  }

  /** The throttle key is set, if at all, to the throttle interval. */
  ghost predicate TouchSets(cmds: seq<SessionCommand>, sid: Uuid, ttl: int) {
    forall c | c in cmds ::
      && !c.Incr? && !c.Expire?
      && (c.Set? && c.key == SessionTouch(sid) ==> c == Set(SessionTouch(sid), Mark, ttl))
  }

  lemma {:induction false} EntryOrigin(s: SessionState, now: int, cmds: seq<SessionCommand>, sid: Uuid, ttl: int)
    requires TouchSets(cmds, sid, ttl)
    ensures var key := SessionTouch(sid);
            var set' := Set(key, Mark, ttl);
            var s' := ApplyAll(s, now, cmds);
            && (key in s'.redis ==>
                  || (key in s.redis && s'.redis[key] == s.redis[key])
                  || (set' in cmds && s'.redis[key] == Entry(Mark, Some(now + ttl))))
            && (Delete(key) !in cmds && set' !in cmds && key in s.redis ==>
                  key in s'.redis && s'.redis[key] == s.redis[key])
            && (Delete(key) !in cmds && set' in cmds ==>
                  key in s'.redis && s'.redis[key] == Entry(Mark, Some(now + ttl)))
    decreases |cmds|
  {
    if cmds != [] {
      EntryOrigin(Apply(s, now, cmds[0]), now, cmds[1..], sid, ttl);
      if Set(SessionTouch(sid), Mark, ttl) in cmds && Set(SessionTouch(sid), Mark, ttl) !in cmds[1..] {
        assert cmds[0] == Set(SessionTouch(sid), Mark, ttl);
      }
    }
  }

  lemma CutTouchSets(cfg: Config, w: World, q: Request, budget: nat, sid: Uuid)
    ensures var cut := Cut(Issued(cfg, w, q).cmds, budget);
            && TouchSets(cut, sid, cfg.throttleSeconds)
            && (Set(SessionTouch(sid), Mark, cfg.throttleSeconds) in cut ==>
                  TouchTarget(cfg, w, q) == Some(sid) && !Live(w.redis, SessionTouch(sid), w.now))
  {
    hide RequestPlan, TouchTarget;
    var cmds := Issued(cfg, w, q).cmds;
    var cut := Cut(cmds, budget);
    var touch := TouchTarget(cfg, w, q);
    RequestTidy(cfg, w, q);
    forall c | c in cut
      ensures !c.Incr? && !c.Expire?
      ensures c.Set? && c.key == SessionTouch(sid) ==>
                c == Set(SessionTouch(sid), Mark, cfg.throttleSeconds) && touch == Some(sid)
                    && !Live(w.redis, c.key, w.now)
    {
      var i :| 0 <= i < |cut| && cut[i] == c;
      assert TidyAt(cfg, w.redis, w.now, touch, cmds, i);
    }
  }

  /** A throttle key deleted by a request that went on: the session is flagged. */
  lemma DeletedThenFlagged(cfg: Config, w: World, q: Request, budget: nat, sid: Uuid)
    requires !Torn(cfg, w, q, budget, sid) && Delete(SessionTouch(sid)) in Cut(Issued(cfg, w, q).cmds, budget)
    ensures SessionRevoked(sid) in Left(cfg, w, q, budget).redis
  {
    hide RequestPlan, TouchTarget;
    var cmds := Issued(cfg, w, q).cmds;
    var cut := Cut(cmds, budget);
    RequestTidy(cfg, w, q);
    var i :| 0 <= i < |cut| && cut[i] == Delete(SessionTouch(sid));
    assert TidyAt(cfg, w.redis, w.now, TouchTarget(cfg, w, q), cmds, i);
    assert i + 1 < |cut| && cut[i + 1] == Set(SessionRevoked(sid), Mark, cfg.AbsoluteSeconds());
    SetStays(Start(w), w.now, cut, SessionRevoked(sid));
  }

  lemma TornDeletes(cfg: Config, w: World, q: Request, budget: nat, sid: Uuid)
    requires Torn(cfg, w, q, budget, sid)
    ensures SessionTouch(sid) !in Left(cfg, w, q, budget).redis
  {
    hide RequestPlan;
    var cut := Cut(Issued(cfg, w, q).cmds, budget);
    var n := |cut| - 1;
    assert cut == cut[..n] + [Delete(SessionTouch(sid))];
    ApplyConcat(Start(w), w.now, cut[..n], [Delete(SessionTouch(sid))]);
  }

  /** What a request, cut anywhere, does to a throttle key. */
  lemma TouchEntry(cfg: Config, w: World, q: Request, budget: nat, sid: Uuid)
    ensures var key := SessionTouch(sid);
            var set' := Set(key, Mark, cfg.throttleSeconds);
            var cut := Cut(Issued(cfg, w, q).cmds, budget);
            var redis := Left(cfg, w, q, budget).redis;
            && (set' in cut ==> TouchTarget(cfg, w, q) == Some(sid) && !Live(w.redis, key, w.now))
            && (key in redis ==>
                  || (key in w.redis && redis[key] == w.redis[key])
                  || (set' in cut && redis[key] == Entry(Mark, Some(w.now + cfg.throttleSeconds))))
            && (SessionRevoked(sid) !in redis && !Torn(cfg, w, q, budget, sid) ==>
                  && (set' !in cut && key in w.redis ==> key in redis && redis[key] == w.redis[key])
                  && (set' in cut ==> key in redis && redis[key] == Entry(Mark, Some(w.now + cfg.throttleSeconds))))
            && (Torn(cfg, w, q, budget, sid) ==> key !in redis)
  {
    hide Issued, TouchTarget, Torn, TouchSets;
    var cut := Cut(Issued(cfg, w, q).cmds, budget);
    CutTouchSets(cfg, w, q, budget, sid);
    EntryOrigin(Start(w), w.now, cut, sid, cfg.throttleSeconds);
    if Torn(cfg, w, q, budget, sid) {
      TornDeletes(cfg, w, q, budget, sid);
    } else if Delete(SessionTouch(sid)) in cut {
      DeletedThenFlagged(cfg, w, q, budget, sid);
    }
  }

  // ------------------------------------------------- one step

  /** Served to a successful, committed end. */
  predicate Done(cfg: Config, w: World, q: Request, budget: nat) {
    RequestPlan(cfg, w, q).result.Ok? && |Issued(cfg, w, q).cmds| <= budget
  }

  /** The request recorded activity for the session, and committed it. */
  predicate Counts(cfg: Config, w: World, q: Request, budget: nat, sid: Uuid) {
    && LetIn(cfg, w, q) && q.cookie.value.sid == Some(sid) && Done(cfg, w, q, budget)
    && !Live(w.redis, SessionTouch(sid), w.now)
  }

  /** Exactly the requests that count change a count, by one. */
  lemma CountStep(cfg: Config, w: World, q: Request, budget: nat, sid: Uuid)
    requires Inv(cfg, w) && Possible(cfg, w, q)
    requires sid in Left(cfg, w, q, budget).committed
    ensures var row := Left(cfg, w, q, budget).committed[sid];
            && (sid !in w.rows ==> row.requests == 0 && !LetIn(cfg, w, q) && sid in Minted(q))
            && (sid in w.rows ==>
                  && row.loginAt == w.rows[sid].loginAt
                  && row.requests == w.rows[sid].requests + if Counts(cfg, w, q, budget, sid) then 1 else 0)
            && (Counts(cfg, w, q, budget, sid) ==> sid in w.rows && row.lastActivity == w.now)
  {
    hide Inv, AuthPlan, RequestPlan;
    if LetIn(cfg, w, q) {
      CountedRequest(cfg, w, q, budget);
      SeenRows(cfg, w, q.cookie, q.account);
    } else {
      UncountedRequest(cfg, w, q, budget);
    }
  }

  lemma CountsSets(cfg: Config, w: World, q: Request, budget: nat, sid: Uuid)
    requires Counts(cfg, w, q, budget, sid)
    ensures Set(SessionTouch(sid), Mark, cfg.throttleSeconds) in Cut(Issued(cfg, w, q).cmds, budget)
    ensures !Torn(cfg, w, q, budget, sid)
  {
    hide HandlerPlan;
    var set' := Set(SessionTouch(sid), Mark, cfg.throttleSeconds);
    var cmds := Issued(cfg, w, q).cmds;
    var auth := AuthPlan(cfg, w.now, w.redis, w.rows, q.cookie, q.account);
    assert Cut(cmds, budget) == cmds;
    assert set' in TouchCmds(cfg, w.now, w.redis, w.rows, sid);
    assert set' in auth.cmds;
    assert cmds[..|auth.cmds|] == auth.cmds;
  }

  // ------------------------------------------------- touch rate

  /** The earliest time at which the next request of the session may count. */
  function Due(cfg: Config, row: Row): int {
    row.loginAt + cfg.throttleSeconds * row.requests
  }

  predicate Protected(cfg: Config, w: World, sid: Uuid)
    requires sid in w.rows
  {
    || Due(cfg, w.rows[sid]) <= w.now
    || (SessionTouch(sid) in w.redis && w.redis[SessionTouch(sid)].deadline.Some?
        && Due(cfg, w.rows[sid]) <= w.redis[SessionTouch(sid)].deadline.value)
  }

  /** A session still open to requests is either due or throttled. */
  ghost predicate Guarded(cfg: Config, w: World) {
    forall sid | sid in w.rows && w.rows[sid].active && SessionRevoked(sid) !in w.redis :: Protected(cfg, w, sid)
  }

  ghost predicate Rated(cfg: Config, w: World) {
    forall sid | sid in w.rows && 0 < w.rows[sid].requests :: Due(cfg, w.rows[sid]) - cfg.throttleSeconds <= w.now
  }

  lemma OneMore(cfg: Config, row: Row, row': Row)
    requires row'.loginAt == row.loginAt && row'.requests == row.requests + 1
    ensures Due(cfg, row') == Due(cfg, row) + cfg.throttleSeconds
  {
  }

  /** The request is cut right after deleting the throttle key of a session
      that is open and not due yet, and that it was not about to expire. */
  ghost predicate Exposed(cfg: Config, w: World, q: Request, budget: nat, sid: Uuid) {
    && Torn(cfg, w, q, budget, sid)
    && sid in w.rows && w.rows[sid].active && SessionRevoked(sid) !in w.redis
    && w.now < Due(cfg, w.rows[sid])
    && !Expires(cfg, w, q, sid)
  }

  lemma TornStage(cfg: Config, w: World, q: Request, budget: nat, sid: Uuid)
    requires Possible(cfg, w, q) && sid in w.rows && w.rows[sid].active && Torn(cfg, w, q, budget, sid)
    ensures var st := StageAt(cfg, w, q, budget, sid);
            st == Some(if Expires(cfg, w, q, sid) then LapsedLoose else Loose)
  {
    hide Issued, Possible, Expires;
    var cut := Cut(Issued(cfg, w, q).cmds, budget);
    var n, jti := |cut| - 1, w.rows[sid].jti;
    StageWay(cfg, w, q, budget, sid);
    assert cut == cut[..n] + [cut[n]];
    WalkConcat(Some(Open), cut[..n], [cut[n]], sid, jti);
    WalkOne(Walk(Some(Open), cut[..n], sid, jti), cut[n], sid, jti);
    if Expires(cfg, w, q, sid) && !Lapses(cfg, w, q, sid) {
      BadStandingUntorn(cfg, w, q, budget, sid);
    }
  }

  lemma BadStandingUntorn(cfg: Config, w: World, q: Request, budget: nat, sid: Uuid)
    requires Expires(cfg, w, q, sid) && !Lapses(cfg, w, q, sid)
    ensures !Torn(cfg, w, q, budget, sid)
  {
    assert Issued(cfg, w, q).cmds == [Select];
  }

  /** A torn session is left as it was but for its throttle key. */
  lemma ExposedOpen(cfg: Config, w: World, q: Request, budget: nat, sid: Uuid)
    requires Inv(cfg, w) && Possible(cfg, w, q) && Exposed(cfg, w, q, budget, sid)
    ensures var w' := Next(cfg, w, Serve(q, budget));
            && sid in w'.rows && w'.rows[sid].active && SessionRevoked(sid) !in w'.redis
            && SessionTouch(sid) !in w'.redis && Due(cfg, w'.rows[sid]) == Due(cfg, w.rows[sid])
  {
    hide Inv, Possible, Torn, Expires, Counts, Issued;
    TornStage(cfg, w, q, budget, sid);
    StageTells(cfg, w, q, budget, sid);
    CountStep(cfg, w, q, budget, sid);
    if Counts(cfg, w, q, budget, sid) {
      CountsSets(cfg, w, q, budget, sid);
    }
  }

  /** A torn session that is still open was open before. */
  lemma TornOpenBefore(cfg: Config, w: World, q: Request, budget: nat, sid: Uuid)
    requires Inv(cfg, w) && Possible(cfg, w, q) && Torn(cfg, w, q, budget, sid) && sid in w.rows
    requires var w' := Next(cfg, w, Serve(q, budget));
             sid in w'.rows && w'.rows[sid].active && SessionRevoked(sid) !in w'.redis
    ensures w.rows[sid].active && SessionRevoked(sid) !in w.redis && !Expires(cfg, w, q, sid)
  {
    hide Core, Possible, Torn, Expires, Issued;
    InvNext(cfg, w, Serve(q, budget));
    TornStage(cfg, w, q, budget, sid);
    StageTells(cfg, w, q, budget, sid);
  }

  lemma GuardedOne(cfg: Config, w: World, q: Request, budget: nat, sid: Uuid)
    requires Inv(cfg, w) && Possible(cfg, w, q) && Guarded(cfg, w)
    requires var w' := Next(cfg, w, Serve(q, budget));
             sid in w'.rows && w'.rows[sid].active && SessionRevoked(sid) !in w'.redis
    ensures Protected(cfg, Next(cfg, w, Serve(q, budget)), sid) <==> !Exposed(cfg, w, q, budget, sid)
  {
    hide Core, AuthPlan, RequestPlan, TouchTarget, Counts, Torn, Expires;
    var w' := Next(cfg, w, Serve(q, budget));
    InvNext(cfg, w, Serve(q, budget));
    CountStep(cfg, w, q, budget, sid);
    TouchEntry(cfg, w, q, budget, sid);
    LoginPast(cfg, w', sid);
    if Torn(cfg, w, q, budget, sid) && sid in w.rows {
      TornOpenBefore(cfg, w, q, budget, sid);
    }
    if Counts(cfg, w, q, budget, sid) {
      CountsSets(cfg, w, q, budget, sid);
      OneMore(cfg, w.rows[sid], w'.rows[sid]);
      CountsOpen(cfg, w, q, budget, sid);
    } else if sid in w.rows {
      assert Due(cfg, w'.rows[sid]) == Due(cfg, w.rows[sid]);
    }
  }

  lemma LoginPast(cfg: Config, w: World, sid: Uuid)
    requires Inv(cfg, w) && sid in w.rows
    ensures w.rows[sid].loginAt <= w.now
    ensures w.rows[sid].requests == 0 ==> Due(cfg, w.rows[sid]) <= w.now
  {
  }

  lemma CountsOpen(cfg: Config, w: World, q: Request, budget: nat, sid: Uuid)
    requires Inv(cfg, w) && Possible(cfg, w, q) && Counts(cfg, w, q, budget, sid)
    ensures sid in w.rows && w.rows[sid].active && SessionRevoked(sid) !in w.redis
  {
    hide Inv, ValidatePlan;
    SeenRows(cfg, w, q.cookie, q.account);
    assert q.cookie == Some(q.cookie.value);
    AdmittedNotDoomed(cfg, w, q.cookie.value, q.account, sid);
  }

  lemma AdmittedNotDoomed(cfg: Config, w: World, tok: Token, account: Account, sid: Uuid)
    requires Inv(cfg, w) && tok in w.delivered && tok.sid == Some(sid) && AdmitsAccess(cfg, w, tok, account)
    ensures !Doomed(w, sid)
  {
    hide Inv, AdmitsAccess, Doomed;
    if Doomed(w, sid) {
      DoomedShutsOut(cfg, w, sid);
    }
  }

  /** A request keeps every open session due or throttled exactly when it was
      not cut between deleting the throttle key of one that is not due and
      flagging it. */
  lemma GuardExact(cfg: Config, w: World, q: Request, budget: nat)
    requires Inv(cfg, w) && Possible(cfg, w, q) && Guarded(cfg, w)
    ensures Guarded(cfg, Next(cfg, w, Serve(q, budget))) <==> forall sid :: !Exposed(cfg, w, q, budget, sid)
  {
    hide Inv, Exposed, Protected;
    var w' := Next(cfg, w, Serve(q, budget));
    forall sid | sid in w'.rows && w'.rows[sid].active && SessionRevoked(sid) !in w'.redis
      ensures Protected(cfg, w', sid) <==> !Exposed(cfg, w, q, budget, sid)
    {
      GuardedOne(cfg, w, q, budget, sid);
    }
    forall sid | Exposed(cfg, w, q, budget, sid)
      ensures sid in w'.rows && w'.rows[sid].active && SessionRevoked(sid) !in w'.redis
    {
      ExposedOpen(cfg, w, q, budget, sid);
    }
  }

  lemma RatedStep(cfg: Config, w: World, step: Step)
    requires Inv(cfg, w) && Enabled(cfg, w, step) && Guarded(cfg, w) && Rated(cfg, w)
    ensures Rated(cfg, Next(cfg, w, step))
  {
    hide Inv, RequestPlan, Counts;
    if step.Serve? {
      var q, budget := step.request, step.budget;
      var w' := Next(cfg, w, step);
      forall sid | sid in w'.rows && 0 < w'.rows[sid].requests
        ensures Due(cfg, w'.rows[sid]) - cfg.throttleSeconds <= w'.now
      {
        CountStep(cfg, w, q, budget, sid);
        if Counts(cfg, w, q, budget, sid) {
          CountsOpen(cfg, w, q, budget, sid);
          OneMore(cfg, w.rows[sid], w'.rows[sid]);
          CountsLapsed(cfg, w, q, budget, sid);
        } else {
          assert Due(cfg, w'.rows[sid]) == Due(cfg, w.rows[sid]);
        }
      }
    }
  }

  lemma CountsLapsed(cfg: Config, w: World, q: Request, budget: nat, sid: Uuid)
    requires Counts(cfg, w, q, budget, sid) && sid in w.rows && Protected(cfg, w, sid)
    ensures Due(cfg, w.rows[sid]) <= w.now
  {
  }

  /** No request of the run exposes a session. */
  ghost predicate Unexposed(cfg: Config, w: World, steps: seq<Step>)
    decreases |steps|
  {
    steps == [] ||
    (&& (steps[0].Serve? ==> forall sid :: !Exposed(cfg, w, steps[0].request, steps[0].budget, sid))
     && Unexposed(cfg, Next(cfg, w, steps[0]), steps[1..]))
  }

  lemma {:induction false} RatedRun(cfg: Config, w: World, steps: seq<Step>)
    requires Inv(cfg, w) && ValidRun(cfg, w, steps) && Unexposed(cfg, w, steps)
    requires Guarded(cfg, w) && Rated(cfg, w)
    ensures Guarded(cfg, Run(cfg, w, steps)) && Rated(cfg, Run(cfg, w, steps))
    decreases |steps|
  {
    hide Inv, Rated, Exposed;
    if steps != [] {
      var w' := Next(cfg, w, steps[0]);
      InvNext(cfg, w, steps[0]);
      RatedStep(cfg, w, steps[0]);
      if steps[0].Serve? {
        GuardExact(cfg, w, steps[0].request, steps[0].budget);
      } else {
        assert Guarded(cfg, w');
      }
      RatedRun(cfg, w', steps[1..]);
    }
  }

  lemma SmallerFactor(t: int, a: int, b: int)
    requires 0 < t && t * a < t * b
    ensures a < b
  {
    if b <= a {
      LargerFactor(t, b, a);
    }
  }

  lemma LargerFactor(t: int, a: int, b: int)
    requires 0 < t && a <= b
    ensures t * a <= t * b
  {
    assert t * b - t * a == t * (b - a);
  }

  lemma RateBound(throttle: int, n: nat, elapsed: int)
    requires 0 < throttle && throttle * n - throttle <= elapsed
    ensures n <= 1 + elapsed / throttle
  {
    SmallerFactor(throttle, n - 1, elapsed / throttle + 1);
  }

  /** In every run, aborted requests included, that is never cut between the
      two ends of a cache clearing, a session counts at most one request for its
      login instant and one for each throttle interval since. */
  lemma TouchRate(cfg: Config, w0: World, steps: seq<Step>, sid: Uuid)
    requires cfg.Sane() && Initial(w0) && ValidRun(cfg, w0, steps) && Unexposed(cfg, w0, steps)
    requires sid in Run(cfg, w0, steps).rows
    ensures var w := Run(cfg, w0, steps);
            w.rows[sid].requests <= 1 + (w.now - w.rows[sid].loginAt) / cfg.throttleSeconds
  {
    hide Inv;
    var w := Run(cfg, w0, steps);
    InvInitial(cfg, w0);
    InvRun(cfg, w0, steps);
    RatedRun(cfg, w0, steps);
    LoginPast(cfg, w, sid);
    if 0 < w.rows[sid].requests {
      assert Due(cfg, w.rows[sid]) - cfg.throttleSeconds <= w.now;
      RateBound(cfg.throttleSeconds, w.rows[sid].requests, w.now - w.rows[sid].loginAt);
    }
  }

  lemma QuotientBelow(throttle: int, n: nat, elapsed: int)
    requires 0 < throttle && elapsed < throttle * n
    ensures elapsed / throttle < n
  {
    SmallerFactor(throttle, elapsed / throttle, n);
  }

  // ------------------------------------------------- the bound, exactly

  /** The bound: one request for the login instant and one for each throttle
      interval since. */
  predicate RateOk(cfg: Config, w: World, sid: Uuid)
    requires cfg.Sane() && sid in w.rows
  {
    w.rows[sid].requests <= 1 + (w.now - w.rows[sid].loginAt) / cfg.throttleSeconds
  }

  /** The request counts although the next one is not due. */
  predicate CountsEarly(cfg: Config, w: World, q: Request, budget: nat, sid: Uuid) {
    Counts(cfg, w, q, budget, sid) && sid in w.rows && w.now < Due(cfg, w.rows[sid])
  }

  /** Any request, cut anywhere, keeps the bound exactly if it does not count early. */
  lemma RateStep(cfg: Config, w: World, q: Request, budget: nat, sid: Uuid)
    requires Inv(cfg, w) && Possible(cfg, w, q) && sid in w.rows && RateOk(cfg, w, sid)
    ensures var w' := Next(cfg, w, Serve(q, budget));
            sid in w'.rows && (RateOk(cfg, w', sid) <==> !CountsEarly(cfg, w, q, budget, sid))
  {
    hide Core, RequestPlan, Counts;
    var w' := Next(cfg, w, Serve(q, budget));
    InvNext(cfg, w, Serve(q, budget));
    CountStep(cfg, w, q, budget, sid);
    if Counts(cfg, w, q, budget, sid) {
      var elapsed := w.now - w.rows[sid].loginAt;
      if w.now < Due(cfg, w.rows[sid]) {
        QuotientBelow(cfg.throttleSeconds, w.rows[sid].requests, elapsed);
      } else {
        RateBound(cfg.throttleSeconds, w'.rows[sid].requests, elapsed);
      }
    }
  }

  /** The bound holds in every world of the run. */
  ghost predicate RateOkThroughout(cfg: Config, w: World, steps: seq<Step>, sid: Uuid)
    requires cfg.Sane()
    decreases |steps|
  {
    && (sid in w.rows ==> RateOk(cfg, w, sid))
    && (steps != [] ==> RateOkThroughout(cfg, Next(cfg, w, steps[0]), steps[1..], sid))
  }

  /** No request of the run counts early. */
  ghost predicate NeverEarly(cfg: Config, w: World, steps: seq<Step>, sid: Uuid)
    decreases |steps|
  {
    steps == [] ||
    (&& (steps[0].Serve? ==> !CountsEarly(cfg, w, steps[0].request, steps[0].budget, sid))
     && NeverEarly(cfg, Next(cfg, w, steps[0]), steps[1..], sid))
  }

  lemma RateLater(cfg: Config, w: World, seconds: nat, sid: Uuid)
    requires cfg.Sane() && sid in w.rows && RateOk(cfg, w, sid)
    ensures RateOk(cfg, w.(now := w.now + seconds), sid)
  {
    var elapsed := w.now - w.rows[sid].loginAt;
    if (elapsed + seconds) / cfg.throttleSeconds < elapsed / cfg.throttleSeconds {
      LargerFactor(cfg.throttleSeconds, (elapsed + seconds) / cfg.throttleSeconds + 1, elapsed / cfg.throttleSeconds);
    }
  }

  lemma RateNext(cfg: Config, w: World, step: Step, sid: Uuid)
    requires Inv(cfg, w) && Enabled(cfg, w, step) && (sid in w.rows ==> RateOk(cfg, w, sid))
    ensures var w' := Next(cfg, w, step);
            if step.Serve? && CountsEarly(cfg, w, step.request, step.budget, sid)
            then sid in w'.rows && !RateOk(cfg, w', sid)
            else sid in w'.rows ==> RateOk(cfg, w', sid)
  {
    hide Core, RequestPlan, Counts;
    var w' := Next(cfg, w, step);
    InvNext(cfg, w, step);
    if step.Tick? {
      if sid in w.rows {
        RateLater(cfg, w, step.seconds, sid);
      }
    } else if sid in w.rows {
      RateStep(cfg, w, step.request, step.budget, sid);
    } else if sid in w'.rows {
      CountStep(cfg, w, step.request, step.budget, sid);
      LoginPast(cfg, w', sid);
    }
  }

  /** A run keeps the bound for a session, from login on and in every world,
      exactly if none of its requests counts early. */
  lemma {:induction false} RateExact(cfg: Config, w: World, steps: seq<Step>, sid: Uuid)
    requires Inv(cfg, w) && ValidRun(cfg, w, steps) && (sid in w.rows ==> RateOk(cfg, w, sid))
    ensures RateOkThroughout(cfg, w, steps, sid) <==> NeverEarly(cfg, w, steps, sid)
    decreases |steps|
  {
    assert cfg.Sane();
    hide Inv, RateOk, CountsEarly;
    if steps != [] {
      var w' := Next(cfg, w, steps[0]);
      InvNext(cfg, w, steps[0]);
      RateNext(cfg, w, steps[0], sid);
      if sid in w'.rows ==> RateOk(cfg, w', sid) {
        RateExact(cfg, w', steps[1..], sid);
      }
    }
  }

  /** When reading with an admitted token keeps the bound. */
  lemma ReadKeepsRate(cfg: Config, w: World, tok: Token, budget: nat)
    requires Inv(cfg, w) && tok in w.delivered && AdmitsAccess(cfg, w, tok, InGoodStanding)
    requires FaultFree(cfg, w, Serve(Call(Some(tok), InGoodStanding, Read), budget))
    requires tok.sid.Some? && tok.sid.value in w.rows && RateOk(cfg, w, tok.sid.value)
    ensures var w' := Next(cfg, w, Serve(Call(Some(tok), InGoodStanding, Read), budget));
            var sid := tok.sid.value;
            && sid in w'.rows
            && (RateOk(cfg, w', sid) <==> Due(cfg, w.rows[sid]) <= w.now || Live(w.redis, SessionTouch(sid), w.now))
  {
    hide Inv, AuthPlan, RateOk;
    RateStep(cfg, w, Call(Some(tok), InGoodStanding, Read), budget, tok.sid.value);
  }

  /** What an exposed session is: of all the cuts of all requests, those after
      which reading it breaks the bound. */
  lemma ExposedBreaksRate(cfg: Config, w: World, q: Request, budget: nat, tok: Token, readBudget: nat)
    requires Inv(cfg, w) && Possible(cfg, w, q) && Guarded(cfg, w)
    requires var w' := Next(cfg, w, Serve(q, budget));
             && tok in w'.delivered && AdmitsAccess(cfg, w', tok, InGoodStanding)
             && FaultFree(cfg, w', Serve(Call(Some(tok), InGoodStanding, Read), readBudget))
             && tok.sid.Some? && tok.sid.value in w'.rows && RateOk(cfg, w', tok.sid.value)
    ensures var w' := Next(cfg, w, Serve(q, budget));
            var w'' := Next(cfg, w', Serve(Call(Some(tok), InGoodStanding, Read), readBudget));
            && tok.sid.value in w''.rows
            && (RateOk(cfg, w'', tok.sid.value) <==> !Exposed(cfg, w, q, budget, tok.sid.value))
  {
    hide Inv, AuthPlan, RequestPlan, RateOk, Exposed, FaultFree, AdmitsAccess;
    var w', sid := Next(cfg, w, Serve(q, budget)), tok.sid.value;
    InvNext(cfg, w, Serve(q, budget));
    ReadKeepsRate(cfg, w', tok, readBudget);
    AdmittedOpen(cfg, w', tok, sid);
    GuardedOne(cfg, w, q, budget, sid);
    if Exposed(cfg, w, q, budget, sid) {
      ExposedOpen(cfg, w, q, budget, sid);
    }
  }

  lemma AdmittedOpen(cfg: Config, w: World, tok: Token, sid: Uuid)
    requires Inv(cfg, w) && tok in w.delivered && tok.sid == Some(sid) && AdmitsAccess(cfg, w, tok, InGoodStanding)
    ensures sid in w.rows && w.rows[sid].active && SessionRevoked(sid) !in w.redis
  {
    hide Core, AuthPlan;
    SeenRows(cfg, w, Some(tok), InGoodStanding);
    AdmittedNotDoomed(cfg, w, tok, InGoodStanding, sid);
  }

  // ------------------------------------------------- keep-alive

  /** The request recorded activity for the session - the throttle key is set -
      and did not commit it. */
  ghost predicate Aborts(cfg: Config, w: World, q: Request, budget: nat, sid: Uuid) {
    && LetIn(cfg, w, q) && q.cookie.value.sid == Some(sid) && !Live(w.redis, SessionTouch(sid), w.now)
    && Set(SessionTouch(sid), Mark, cfg.throttleSeconds) in Cut(Issued(cfg, w, q).cmds, budget)
    && !Done(cfg, w, q, budget)
  }

  /** After `since`, no request of the run aborts activity of the session. */
  ghost predicate Unaborted(cfg: Config, w: World, steps: seq<Step>, sid: Uuid, since: int)
    decreases |steps|
  {
    steps == [] ||
    (&& (steps[0].Serve? && since < w.now ==> !Aborts(cfg, w, steps[0].request, steps[0].budget, sid))
     && Unaborted(cfg, Next(cfg, w, steps[0]), steps[1..], sid, since))
  }

  /** A throttle key outlives neither the activity it stands for nor `since` by
      more than the throttle interval. */
  ghost predicate Pinned(cfg: Config, w: World, sid: Uuid, since: int) {
    sid in w.rows && SessionTouch(sid) in w.redis ==>
      && w.redis[SessionTouch(sid)].deadline.Some?
      && (|| w.redis[SessionTouch(sid)].deadline.value <= w.rows[sid].lastActivity + cfg.throttleSeconds
          || w.redis[SessionTouch(sid)].deadline.value <= since + cfg.throttleSeconds)
  }

  lemma PinnedOne(cfg: Config, w: World, q: Request, budget: nat, sid: Uuid, since: int)
    requires Inv(cfg, w) && Possible(cfg, w, q) && Pinned(cfg, w, sid, since)
    requires since < w.now ==> !Aborts(cfg, w, q, budget, sid)
    ensures Pinned(cfg, Next(cfg, w, Serve(q, budget)), sid, since)
  {
    hide Core, AuthPlan, RequestPlan, Torn;
    var w' := Next(cfg, w, Serve(q, budget));
    if sid in w'.rows && SessionTouch(sid) in w'.redis {
      InvNext(cfg, w, Serve(q, budget));
      CountStep(cfg, w, q, budget, sid);
      TouchEntry(cfg, w, q, budget, sid);
      if sid !in w.rows {
        FreshUnthrottled(cfg, w, q, sid);
      }
    }
  }

  lemma FreshUnthrottled(cfg: Config, w: World, q: Request, sid: Uuid)
    requires Inv(cfg, w) && Possible(cfg, w, q) && sid in Minted(q)
    ensures SessionTouch(sid) !in w.redis
  {
  }

  lemma {:induction false} PinnedRun(cfg: Config, w: World, steps: seq<Step>, sid: Uuid, since: int)
    requires Inv(cfg, w) && Pinned(cfg, w, sid, since) && ValidRun(cfg, w, steps)
             && Unaborted(cfg, w, steps, sid, since)
    ensures Pinned(cfg, Run(cfg, w, steps), sid, since)
    decreases |steps|
  {
    hide Inv, Aborts;
    if steps != [] {
      var w' := Next(cfg, w, steps[0]);
      InvNext(cfg, w, steps[0]);
      if steps[0].Serve? {
        PinnedOne(cfg, w, steps[0].request, steps[0].budget, sid, since);
      }
      PinnedRun(cfg, w', steps[1..], sid, since);
    }
  }

  /** The session the request is bound to, if it was served to a committed end. */
  function ServedSession(cfg: Config, w: World, q: Request, budget: nat): Option<Uuid> {
    if !Done(cfg, w, q, budget) then None
    else if LetIn(cfg, w, q) then q.cookie.value.sid
    else if q.Rotate? then q.cookie.value.sid
    else None
  }

  /** A request that was let in and served refreshes its session - the recorded
      activity is at most one throttle interval old - exactly if it was not
      throttled or what is recorded was that recent before. */
  lemma CallRefreshes(cfg: Config, w: World, q: Request, budget: nat, sid: Uuid)
    requires Inv(cfg, w) && Possible(cfg, w, q)
    requires LetIn(cfg, w, q) && Done(cfg, w, q, budget) && q.cookie.value.sid == Some(sid)
    ensures var w' := Next(cfg, w, Serve(q, budget));
            && sid in w.rows && sid in w'.rows
            && (w.now - cfg.throttleSeconds <= w'.rows[sid].lastActivity <==>
                  !Live(w.redis, SessionTouch(sid), w.now) || w.now - cfg.throttleSeconds <= w.rows[sid].lastActivity)
  {
    hide Core, AuthPlan, RequestPlan;
    CountedRequest(cfg, w, q, budget);
    SeenRows(cfg, w, q.cookie, q.account);
  }

  lemma RotateRefreshes(cfg: Config, w: World, q: Request, budget: nat, sid: Uuid)
    requires Inv(cfg, w) && Possible(cfg, w, q) && q.Rotate? && Done(cfg, w, q, budget)
    requires q.cookie.Some? && q.cookie.value.sid == Some(sid)
    ensures var w' := Next(cfg, w, Serve(q, budget));
            sid in w'.rows && w'.rows[sid].lastActivity == w.now
  {
    hide Fine, Core, RefreshPlan;
    var p := RequestPlan(cfg, w, q);
    FreshUnused(cfg, w, q.mint);
    AtStart(cfg, w, q);
    KeepsRefresh(Around(cfg, w, q), w, q.cookie, q.mint);
    assert Cut(p.cmds + [Commit], budget) == p.cmds + [Commit];
    ApplyConcat(Start(w), w.now, p.cmds, [Commit]);
  }

  /** Although activity is written at most once per throttle interval, a session
      served a request is not idle until the idle timeout less one throttle
      interval has passed since - whatever happens in between, and unless its
      own activity was aborted within one throttle interval before. */
  lemma KeepAlive(cfg: Config, w0: World, before: seq<Step>, q: Request, budget: nat, sid: Uuid, after: seq<Step>)
    requires cfg.Sane() && Initial(w0) && ValidRun(cfg, w0, before)
    requires Unaborted(cfg, w0, before, sid, Run(cfg, w0, before).now - cfg.throttleSeconds)
    requires var w := Run(cfg, w0, before);
             && ValidRun(cfg, w, [Serve(q, budget)] + after)
             && ServedSession(cfg, w, q, budget) == Some(sid)
             && Run(cfg, Next(cfg, w, Serve(q, budget)), after).now - w.now <= cfg.IdleSeconds() - cfg.throttleSeconds
    ensures var w' := Run(cfg, Next(cfg, Run(cfg, w0, before), Serve(q, budget)), after);
            sid in w'.rows && !Idle(cfg, w'.rows[sid], w'.now)
  {
    hide Inv, LetIn, RequestPlan;
    var w := Run(cfg, w0, before);
    var w1 := Next(cfg, w, Serve(q, budget));
    assert ([Serve(q, budget)] + after)[1..] == after;
    InvInitial(cfg, w0);
    InvRun(cfg, w0, before);
    PinnedRun(cfg, w0, before, sid, w.now - cfg.throttleSeconds);
    if LetIn(cfg, w, q) {
      CallRefreshes(cfg, w, q, budget, sid);
    } else {
      RotateDone(cfg, w, q);
      RotateRefreshes(cfg, w, q, budget, sid);
    }
    InvNext(cfg, w, Serve(q, budget));
    InvRun(cfg, w1, after);
  }

  /** The condition is exact: a served call keeps its session from going idle
      for the idle timeout less one throttle interval, in every run that may
      follow, exactly if it was not throttled or found recent activity. */
  lemma KeepAliveExact(cfg: Config, w: World, q: Request, budget: nat, sid: Uuid)
    requires Inv(cfg, w) && Possible(cfg, w, q)
    requires LetIn(cfg, w, q) && Done(cfg, w, q, budget) && q.cookie.value.sid == Some(sid)
    ensures sid in w.rows
    ensures (forall after | ValidRun(cfg, Next(cfg, w, Serve(q, budget)), after)
                            && Run(cfg, Next(cfg, w, Serve(q, budget)), after).now
                               <= w.now + cfg.IdleSeconds() - cfg.throttleSeconds ::
               KeptAlive(cfg, Run(cfg, Next(cfg, w, Serve(q, budget)), after), sid))
            <==> !Live(w.redis, SessionTouch(sid), w.now) || w.now - cfg.throttleSeconds <= w.rows[sid].lastActivity
  {
    hide Core, LetIn, RequestPlan, Possible, Done;
    var w' := Next(cfg, w, Serve(q, budget));
    InvNext(cfg, w, Serve(q, budget));
    CallRefreshes(cfg, w, q, budget, sid);
    if w.now - cfg.throttleSeconds <= w'.rows[sid].lastActivity {
      forall after | ValidRun(cfg, w', after)
          && Run(cfg, w', after).now <= w.now + cfg.IdleSeconds() - cfg.throttleSeconds
        ensures KeptAlive(cfg, Run(cfg, w', after), sid)
      {
        InvRun(cfg, w', after);
      }
    } else {
      var wait: seq<Step> := [Tick(cfg.IdleSeconds() - cfg.throttleSeconds)];
      RunOne(cfg, w', wait[0]);
      assert !KeptAlive(cfg, Run(cfg, w', wait), sid);
    }
  }

  predicate KeptAlive(cfg: Config, w: World, sid: Uuid) {
    sid in w.rows && !Idle(cfg, w.rows[sid], w.now)
  }

  lemma RunOne(cfg: Config, w: World, step: Step)
    ensures Run(cfg, w, [step]) == Next(cfg, w, step)
    ensures ValidRun(cfg, w, [step]) <==> Enabled(cfg, w, step)
  {
    assert [step][1..] == [];
    assert Run(cfg, Next(cfg, w, step), []) == Next(cfg, w, step);
  }

  lemma RotateDone(cfg: Config, w: World, q: Request)
    requires q.Rotate? && RequestPlan(cfg, w, q).result.Ok?
    ensures q.cookie.Some?
  {
  }
}
