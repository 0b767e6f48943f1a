/** What every request does to one session, as a path through stages. A session
    is closed in one of two ways: a revocation lists its refresh token, closes
    the row, drops the throttle key, sets the flag and commits in the end; an
    expiry closes the row, commits, drops the key and sets the flag. A request
    cut short stops somewhere on the way, and the stage says what it left. */
module SessionStages {
  import opened Base
  import opened Stores
  import opened SessionPlans
  import opened Protocol
  import opened SessionInvariant
  import opened SessionKeeps
  import opened SessionTheorems

  datatype Stage =
    | Open | Listed | Closing | Loose | Marked | Shut  // revocation
    | Lapsing | Lapsed | LapsedLoose | LapsedMarked    // expiry
    | Over                                            // committed, the session still open

  predicate Lists(c: SessionCommand, jti: Uuid) {
    c.Set? && c.key == RevokedJti(jti)
  }

  predicate Flags(c: SessionCommand, sid: Uuid) {
    c.Set? && c.key == SessionRevoked(sid)
  }

  predicate Closes(c: SessionCommand, sid: Uuid) {
    c.Write? && !(sid in c.tables && c.tables[sid].active)
  }

  predicate Reads(c: SessionCommand) {
    c.Exists? || c.Select?
  }

  /** The next stage; none if the command must not come there. */
  function After(stage: Stage, c: SessionCommand, sid: Uuid, jti: Uuid): Option<Stage> {
    if c.Incr? || c.Expire? || (c.Delete? && (c.key.RevokedJti? || c.key.SessionRevoked?)) then None
    else
      match stage
      case Open =>
        if Lists(c, jti) then Some(Listed)
        else if Closes(c, sid) then Some(Lapsing)
        else if c.Commit? then Some(Over)
        else if Flags(c, sid) || c == Delete(SessionTouch(sid)) then None
        else Some(Open)
      case Listed =>
        if Closes(c, sid) then Some(Closing)
        else if c.Commit? then Some(Over)
        else if Flags(c, sid) || c == Delete(SessionTouch(sid)) then None
        else Some(Listed)
      case Closing => if c == Delete(SessionTouch(sid)) then Some(Loose) else if c.Delete? then Some(Closing) else None
      case Loose => if Flags(c, sid) then Some(Marked) else None
      case Marked =>
        if c.Commit? then Some(Shut)
        else if (c.Write? && !Closes(c, sid)) || c == Delete(SessionTouch(sid)) then None
        else Some(Marked)
      case Shut => None
      case Lapsing => if c.Commit? then Some(Lapsed) else None
      case Lapsed =>
        if c == Delete(SessionTouch(sid)) then Some(LapsedLoose) else if c.Delete? then Some(Lapsed) else None
      case LapsedLoose => if Flags(c, sid) then Some(LapsedMarked) else None
      case LapsedMarked => None
      case Over => if c.Write? || Flags(c, sid) || c == Delete(SessionTouch(sid)) then None else Some(Over)
  }

  function Then(stage: Option<Stage>, c: SessionCommand, sid: Uuid, jti: Uuid): Option<Stage> {
    match stage
    case None => None
    case Some(st) => After(st, c, sid, jti)
  }

  function Walk(stage: Option<Stage>, cmds: seq<SessionCommand>, sid: Uuid, jti: Uuid): Option<Stage>
    decreases |cmds|
  {
    if cmds == [] then stage else Walk(Then(stage, cmds[0], sid, jti), cmds[1..], sid, jti)
  }

  lemma {:induction false} WalkConcat(stage: Option<Stage>, a: seq<SessionCommand>, b: seq<SessionCommand>, sid: Uuid,
                                      jti: Uuid)
    ensures Walk(stage, a + b, sid, jti) == Walk(Walk(stage, a, sid, jti), b, sid, jti)
    decreases |a|
  {
    if a == [] {
      assert a + b == b;
    } else {
      assert (a + b)[1..] == a[1..] + b;
      WalkConcat(Then(stage, a[0], sid, jti), a[1..], b, sid, jti);
    }
  }

  lemma {:induction false} WalkNowhere(cmds: seq<SessionCommand>, sid: Uuid, jti: Uuid)
    ensures Walk(None, cmds, sid, jti) == None
    decreases |cmds|
  {
    if cmds != [] {
      WalkNowhere(cmds[1..], sid, jti);
    }
  }

  lemma WalkOne(stage: Option<Stage>, c: SessionCommand, sid: Uuid, jti: Uuid)
    ensures Walk(stage, [c], sid, jti) == Then(stage, c, sid, jti)
  {
    assert [c][1..] == [];
  }

  lemma WalkTwo(stage: Option<Stage>, c: SessionCommand, d: SessionCommand, sid: Uuid, jti: Uuid)
    ensures Walk(stage, [c, d], sid, jti) == Then(Then(stage, c, sid, jti), d, sid, jti)
  {
    assert [c, d][1..] == [d];
    WalkOne(Then(stage, c, sid, jti), d, sid, jti);
  }

  /** A path stays lawful when it is cut. */
  lemma WalkCut(stage: Option<Stage>, cmds: seq<SessionCommand>, budget: nat, sid: Uuid, jti: Uuid)
    requires Walk(stage, cmds, sid, jti).Some?
    ensures Walk(stage, Cut(cmds, budget), sid, jti).Some?
  {
    var n := Min(budget, |cmds|);
    assert cmds == cmds[..n] + cmds[n..];
    WalkConcat(stage, cmds[..n], cmds[n..], sid, jti);
    WalkNowhere(cmds[n..], sid, jti);
  }

  /** Commands that concern the session in no way. */
  predicate Idles(c: SessionCommand, sid: Uuid, jti: Uuid) {
    Reads(c) || (c.Set? && !Lists(c, jti) && !Flags(c, sid)) || (c.Write? && !Closes(c, sid))
  }

  lemma {:induction false} WalkIdly(stage: Stage, cmds: seq<SessionCommand>, sid: Uuid, jti: Uuid)
    requires stage == Open || stage == Listed
    requires forall c | c in cmds :: Idles(c, sid, jti)
    ensures Walk(Some(stage), cmds, sid, jti) == Some(stage)
    decreases |cmds|
  {
    if cmds != [] {
      assert Idles(cmds[0], sid, jti);
      WalkIdly(stage, cmds[1..], sid, jti);
    }
  }

  // ------------------------------------------------- what a stage says

  /** `flagged` and `listed` are what Redis said before the request. */
  ghost predicate Stands(stage: Stage, s: SessionState, sid: Uuid, jti: Uuid, flagged: bool, listed: bool) {
    && sid in s.committed && sid in s.working
    && (s.working[sid].active <==> stage == Open || stage == Listed || stage == Over)
    && (s.committed[sid].active <==> !(stage == Shut || stage == Lapsed || stage == LapsedLoose
                                       || stage == LapsedMarked))
    && (SessionRevoked(sid) in s.redis <==> flagged || stage == Marked || stage == Shut || stage == LapsedMarked)
    && (stage == Listed || stage == Closing || stage == Loose || stage == Marked || stage == Shut ==>
        RevokedJti(jti) in s.redis)
    && (stage == Open || stage.Lapsing? || stage.Lapsed? || stage.LapsedLoose? || stage.LapsedMarked? ==>
          (RevokedJti(jti) in s.redis <==> listed))
    && (stage == Loose || stage == LapsedLoose ==> SessionTouch(sid) !in s.redis)
  }

  lemma StandsStep(stage: Stage, s: SessionState, now: int, c: SessionCommand, sid: Uuid, jti: Uuid, flagged: bool,
                   listed: bool)
    requires Stands(stage, s, sid, jti, flagged, listed) && After(stage, c, sid, jti).Some?
    requires c.Write? ==> sid in c.tables
    ensures Stands(After(stage, c, sid, jti).value, Apply(s, now, c), sid, jti, flagged, listed)
  {
  }

  lemma {:induction false} StandsAfter(stage: Stage, s: SessionState, now: int, cmds: seq<SessionCommand>,
                                       sid: Uuid, jti: Uuid, flagged: bool, listed: bool)
    requires Stands(stage, s, sid, jti, flagged, listed) && Walk(Some(stage), cmds, sid, jti).Some?
    requires forall c | c in cmds && c.Write? :: sid in c.tables
    ensures Stands(Walk(Some(stage), cmds, sid, jti).value, ApplyAll(s, now, cmds), sid, jti, flagged, listed)
    decreases |cmds|
  {
    hide Stands, After;
    if cmds != [] {
      var next := After(stage, cmds[0], sid, jti);
      if next.None? {
        WalkNowhere(cmds[1..], sid, jti);
      }
      StandsStep(stage, s, now, cmds[0], sid, jti, flagged, listed);
      StandsAfter(next.value, Apply(s, now, cmds[0]), now, cmds[1..], sid, jti, flagged, listed);
    }
  }

  // ------------------------------------------------- the parts of requests

  /** Where a list of revocations may start or go on. */
  predicate Ready(stage: Stage, rows: Rows, sid: Uuid, jti: Uuid) {
    && sid in rows
    && (if stage == Marked then !rows[sid].active
        else (stage == Open || stage == Listed) && rows[sid].active && rows[sid].jti == jti)
  }

  lemma RevokeWalks(cfg: Config, now: int, rows: Rows, target: Uuid, reason: string, stage: Stage, sid: Uuid, jti: Uuid)
    requires Ready(stage, rows, sid, jti) && (stage == Marked ==> target != sid)
    ensures var e := Walk(Some(stage), RevokeCmds(cfg, now, rows, target, reason), sid, jti);
            && e.Some? && Ready(e.value, CloseAll(rows, now, [target], reason), sid, jti)
            && (e.value == Marked <==> stage == Marked || target == sid)
    ensures forall c | c in RevokeCmds(cfg, now, rows, target, reason) && c.Write? :: sid in c.tables
  {
    if target in rows {
      var row := rows[target];
      var list: SessionCommand := Set(RevokedJti(row.jti), Mark, cfg.RefreshSeconds(true));
      var close: SessionCommand := Write(rows[target := Closed(row, now, reason)]);
      var rest: seq<SessionCommand> := [Delete(SessionActive(target)), Delete(SessionTouch(target))];
      var flag: SessionCommand := Set(SessionRevoked(target), Mark, cfg.AbsoluteSeconds());
      assert RevokeCmds(cfg, now, rows, target, reason) == [list, close] + rest + [flag];
      WalkTwo(Some(stage), list, close, sid, jti);
      var m := Walk(Some(stage), [list, close], sid, jti);
      WalkConcat(Some(stage), [list, close], rest, sid, jti);
      WalkTwo(m, rest[0], rest[1], sid, jti);
      WalkConcat(Some(stage), [list, close] + rest, [flag], sid, jti);
      WalkOne(Walk(m, rest, sid, jti), flag, sid, jti);
    }
  }

  lemma {:induction false} RevokeEachWalks(cfg: Config, now: int, rows: Rows, order: seq<Uuid>, reason: string,
                                           stage: Stage, sid: Uuid, jti: Uuid)
    requires Ready(stage, rows, sid, jti) && (stage == Marked ==> sid !in order)
    requires forall i, j | 0 <= i < j < |order| :: order[i] != order[j]
    ensures var e := Walk(Some(stage), RevokeEachCmds(cfg, now, rows, order, reason), sid, jti);
            && e.Some? && (e.value == Open || e.value == Listed || e.value == Marked)
            && (e.value == Marked <==> stage == Marked || sid in order)
    ensures forall c | c in RevokeEachCmds(cfg, now, rows, order, reason) && c.Write? :: sid in c.tables
    decreases |order|
  {
    hide RevokeCmds, CloseAll;
    if order != [] {
      var first := RevokeCmds(cfg, now, rows, order[0], reason);
      var rows' := CloseAll(rows, now, [order[0]], reason);
      assert order[..1] == [order[0]];
      RevokeWalks(cfg, now, rows, order[0], reason, stage, sid, jti);
      var e := Walk(Some(stage), first, sid, jti).value;
      assert order[0] !in order[1..];
      RevokeEachWalks(cfg, now, rows', order[1..], reason, e, sid, jti);
      WalkConcat(Some(stage), first, RevokeEachCmds(cfg, now, rows', order[1..], reason), sid, jti);
    }
  }

  /** The access token would close its session: it is past its absolute expiry
      or idle, and Redis does not know it to be revoked. */
  predicate Expiring(cfg: Config, w: World, tok: Token) {
    && tok.kind == Access && w.now < tok.exp && tok.sid.Some?
    && !Live(w.redis, SessionRevoked(tok.sid.value), w.now)
    && Usable(w.rows, tok.sid.value, tok.user)
    && (w.rows[tok.sid.value].expiresAt <= w.now || Idle(cfg, w.rows[tok.sid.value], w.now))
  }

  /** The request presents such a token of the session. */
  predicate Expires(cfg: Config, w: World, q: Request, sid: Uuid) {
    q.Call? && q.cookie.Some? && q.cookie.value.sid == Some(sid) && Expiring(cfg, w, q.cookie.value)
  }

  lemma ExpireWalks(cfg: Config, now: int, rows: Rows, target: Uuid, reason: string, sid: Uuid, jti: Uuid)
    requires sid in rows && rows[sid].active && target in rows
    ensures Walk(Some(Open), ExpireCmds(cfg, now, rows, target, reason), sid, jti)
         == Some(if target == sid then LapsedMarked else Over)
    ensures forall c | c in ExpireCmds(cfg, now, rows, target, reason) && c.Write? :: sid in c.tables
  {
    var close: SessionCommand := Write(rows[target := Closed(rows[target], now, reason)]);
    var rest: seq<SessionCommand> := [Delete(SessionActive(target)), Delete(SessionTouch(target))];
    var flag: SessionCommand := Set(SessionRevoked(target), Mark, cfg.AbsoluteSeconds());
    assert ExpireCmds(cfg, now, rows, target, reason) == [close, Commit] + rest + [flag];
    WalkTwo(Some(Open), close, Commit, sid, jti);
    var m := Walk(Some(Open), [close, Commit], sid, jti);
    WalkConcat(Some(Open), [close, Commit], rest, sid, jti);
    WalkTwo(m, rest[0], rest[1], sid, jti);
    WalkConcat(Some(Open), [close, Commit] + rest, [flag], sid, jti);
    WalkOne(Walk(m, rest, sid, jti), flag, sid, jti);
  }

  /** The stage an authentication ends in. */
  lemma AuthWalks(cfg: Config, w: World, cookie: Option<Token>, account: Account, sid: Uuid)
    requires sid in w.rows && w.rows[sid].active
    ensures var auth := AuthPlan(cfg, w.now, w.redis, w.rows, cookie, account);
            var lapses := account == InGoodStanding && Expires(cfg, w, Call(cookie, account, Read), sid);
            var e := Walk(Some(Open), auth.cmds, sid, w.rows[sid].jti);
            && e.Some?
            && (auth.result.Ok? ==> e.value == Open && !lapses)
            && (auth.result.Raised? ==>
                  e.value == if lapses then LapsedMarked else if Commit in auth.cmds then Over else Open)
            && (forall c | c in auth.cmds && c.Write? :: sid in c.tables)
  {
    hide ExpireCmds, After;
    var jti := w.rows[sid].jti;
    var auth := AuthPlan(cfg, w.now, w.redis, w.rows, cookie, account);
    if account == InGoodStanding && cookie.Some? && Expiring(cfg, w, cookie.value) {
      AuthExpires(cfg, w, cookie.value);
      hide AuthPlan, Expiring;
      var target := cookie.value.sid.value;
      var reason := if w.rows[target].expiresAt <= w.now then "absolute_expiry" else "idle_timeout";
      var asked: seq<SessionCommand> := [Select, Exists(SessionRevoked(target)), Select];
      WalkIdly(Open, asked, sid, jti);
      WalkConcat(Some(Open), asked, ExpireCmds(cfg, w.now, w.rows, target, reason), sid, jti);
      ExpireWalks(cfg, w.now, w.rows, target, reason, sid, jti);
      ExpireCommits(cfg, w.now, w.rows, target, reason);
    } else {
      AuthIdles(cfg, w, cookie, account, sid);
      hide AuthPlan, Expiring;
      WalkIdly(Open, auth.cmds, sid, jti);
    }
  }

  lemma AuthExpires(cfg: Config, w: World, tok: Token)
    requires Expiring(cfg, w, tok)
    ensures var sid := tok.sid.value;
            var reason := if w.rows[sid].expiresAt <= w.now then "absolute_expiry" else "idle_timeout";
            AuthPlan(cfg, w.now, w.redis, w.rows, Some(tok), InGoodStanding)
            == Plan([Select, Exists(SessionRevoked(sid)), Select] + ExpireCmds(cfg, w.now, w.rows, sid, reason),
                    Raised(AuthError))
  {
    hide ExpireCmds;
  }

  lemma ExpireCommits(cfg: Config, now: int, rows: Rows, sid: Uuid, reason: string)
    requires sid in rows
    ensures Commit in ExpireCmds(cfg, now, rows, sid, reason)
  {
    assert ExpireCmds(cfg, now, rows, sid, reason)[1] == Commit;
  }

  lemma AuthIdles(cfg: Config, w: World, cookie: Option<Token>, account: Account, sid: Uuid)
    requires sid in w.rows && w.rows[sid].active
    requires !(account == InGoodStanding && cookie.Some? && Expiring(cfg, w, cookie.value))
    ensures cookie.Some? || AuthPlan(cfg, w.now, w.redis, w.rows, cookie, account).result.Raised?
    ensures forall c | c in AuthPlan(cfg, w.now, w.redis, w.rows, cookie, account).cmds ::
        Idles(c, sid, w.rows[sid].jti)
    ensures Commit !in AuthPlan(cfg, w.now, w.redis, w.rows, cookie, account).cmds
    ensures forall c | c in AuthPlan(cfg, w.now, w.redis, w.rows, cookie, account).cmds && c.Write? :: sid in c.tables
  {
  }

  lemma HandlerWalks(cfg: Config, now: int, rows: Rows, user: Uuid, current: Option<Uuid>, action: Action, sid: Uuid)
    requires sid in rows && rows[sid].active
    requires action.LogoutAll? ==> forall i, j | 0 <= i < j < |action.order| :: action.order[i] != action.order[j]
    ensures var p := HandlerPlan(cfg, now, rows, user, current, action);
            var e := Walk(Some(Open), p.cmds, sid, rows[sid].jti);
            && e.Some? && (e.value == Open || e.value == Listed || e.value == Marked)
            && (forall c | c in p.cmds && c.Write? :: sid in c.tables)
  {
    hide RevokeCmds, RevokeEachCmds, After;
    var jti := rows[sid].jti;
    WalkIdly(Open, [], sid, jti);
    WalkIdly(Open, [Select], sid, jti);
    match action
    case Read =>
    case Fails(_) =>
    case LogoutThis =>
      if current.Some? {
        RevokeWalks(cfg, now, rows, current.value, "logout", Open, sid, jti);
      }
    case LogoutAll(order) =>
      WithoutNone(order);
      RevokeEachWalks(cfg, now, rows, order, "logout_all", Open, sid, jti);
      WalkConcat(Some(Open), [Select], RevokeEachCmds(cfg, now, rows, order, "logout_all"), sid, jti);
    case RevokeOne(target) =>
      RevokeWalks(cfg, now, rows, target, "revoked_by_user", Open, sid, jti);
      WalkConcat(Some(Open), [Select], RevokeCmds(cfg, now, rows, target, "revoked_by_user"), sid, jti);
  }

  /** Where a request can end: with the session untouched, listed by a rotation,
      marked by a revocation, or lapsed. */
  predicate Ends(stage: Option<Stage>, lapses: bool) {
    && stage.Some?
    && (lapses ==> stage.value == LapsedMarked)
    && (!lapses ==> stage.value in {Open, Listed, Marked, Shut, Over})
  }

  /** The account the request names is in good standing, if it names one. */
  predicate Lapses(cfg: Config, w: World, q: Request, sid: Uuid) {
    Expires(cfg, w, q, sid) && q.account == InGoodStanding
  }

  /** What a handler leaves to be committed. */
  predicate Pending(stage: Option<Stage>) {
    stage.Some? && (stage.value == Open || stage.value == Listed || stage.value == Marked)
  }

  lemma AccessWalks(cfg: Config, w: World, q: Request, sid: Uuid)
    requires Possible(cfg, w, q) && q.Call? && sid in w.rows && w.rows[sid].active
    ensures var p := RequestPlan(cfg, w, q);
            var e := Walk(Some(Open), p.cmds, sid, w.rows[sid].jti);
            && Ends(e, Lapses(cfg, w, q, sid)) && (p.result.Ok? ==> Pending(e))
            && (forall c | c in p.cmds && c.Write? :: sid in c.tables)
  {
    hide AuthPlan, HandlerPlan, After, Expiring;
    var jti := w.rows[sid].jti;
    var auth := AuthPlan(cfg, w.now, w.redis, w.rows, q.cookie, q.account);
    AuthWalks(cfg, w, q.cookie, q.account, sid);
    if auth.result.Ok? {
      AuthCookie(cfg, w, q.cookie, q.account);
      var seen := Seen(cfg, w, q.cookie, q.account);
      var handled := HandlerPlan(cfg, w.now, seen, q.cookie.value.user, auth.result.value, q.action);
      SeenRows(cfg, w, q.cookie, q.account);
      HandlerWalks(cfg, w.now, seen, q.cookie.value.user, auth.result.value, q.action, sid);
      WalkConcat(Some(Open), auth.cmds, handled.cmds, sid, jti);
      assert RequestPlan(cfg, w, q).cmds == auth.cmds + handled.cmds;
    }
  }

  lemma AuthCookie(cfg: Config, w: World, cookie: Option<Token>, account: Account)
    requires AuthPlan(cfg, w.now, w.redis, w.rows, cookie, account).result.Ok?
    ensures cookie.Some?
  {
  }

  lemma BySidWalks(cfg: Config, now: int, rows: Rows, target: Uuid, reason: string, stage: Stage, sid: Uuid, jti: Uuid)
    requires Ready(stage, rows, sid, jti) && stage != Marked
    ensures var p := RevokeBySidPlan(cfg, now, rows, target, reason);
            var e := Walk(Some(stage), p.cmds, sid, jti);
            && Pending(e) && (forall c | c in p.cmds && c.Write? :: sid in c.tables)
  {
    hide RevokeCmds, After;
    WalkIdly(stage, [Select], sid, jti);
    RevokeWalks(cfg, now, rows, target, reason, stage, sid, jti);
    WalkConcat(Some(stage), [Select], RevokeCmds(cfg, now, rows, target, reason), sid, jti);
  }

  /** Reading and blacklisting keep a session open or list it. */
  predicate Lenient(c: SessionCommand, sid: Uuid) {
    Reads(c) || (c.Set? && !Flags(c, sid)) || (c.Write? && !Closes(c, sid))
  }

  lemma {:induction false} WalkLeniently(stage: Stage, cmds: seq<SessionCommand>, sid: Uuid, jti: Uuid)
    requires stage == Open || stage == Listed
    requires forall c | c in cmds :: Lenient(c, sid)
    ensures var e := Walk(Some(stage), cmds, sid, jti);
            e.Some? && (e.value == Open || e.value == Listed)
    decreases |cmds|
  {
    if cmds != [] {
      assert Lenient(cmds[0], sid);
      WalkLeniently(After(stage, cmds[0], sid, jti).value, cmds[1..], sid, jti);
    }
  }

  lemma RotateWalks(cfg: Config, w: World, q: Request, sid: Uuid)
    requires q.Rotate? && sid in w.rows && w.rows[sid].active
    ensures var p := RequestPlan(cfg, w, q);
            var e := Walk(Some(Open), p.cmds, sid, w.rows[sid].jti);
            && Ends(e, false) && (p.result.Ok? ==> Pending(e))
            && (forall c | c in p.cmds && c.Write? :: sid in c.tables)
  {
    hide RevokeBySidPlan, After;
    var jti := w.rows[sid].jti;
    var rotated := RotatePlan(cfg, w.redis, q.cookie, q.mint, w.now);
    RotatedLenient(cfg, w, q, sid);
    if rotated.result == Raised(TokenReplay) && q.cookie.value.sid.Some? {
      hide RotatePlan;
      var killed := RevokeBySidPlan(cfg, w.now, w.rows, q.cookie.value.sid.value, "refresh_replay");
      WalkLeniently(Open, rotated.cmds, sid, jti);
      var m := Walk(Some(Open), rotated.cmds, sid, jti).value;
      BySidWalks(cfg, w.now, w.rows, q.cookie.value.sid.value, "refresh_replay", m, sid, jti);
      WalkConcat(Some(Open), rotated.cmds, killed.cmds, sid, jti);
      WalkConcat(Some(Open), rotated.cmds + killed.cmds, [Commit], sid, jti);
      WalkCommit(Walk(Some(Open), rotated.cmds + killed.cmds, sid, jti), sid, jti);
      assert rotated.cmds + (killed.cmds + [Commit]) == rotated.cmds + killed.cmds + [Commit];
      assert killed.cmds + [] == killed.cmds;
    } else {
      WalkLeniently(Open, RequestPlan(cfg, w, q).cmds, sid, jti);
    }
  }

  /** A refresh that kills nothing closes nothing. */
  lemma RotatedLenient(cfg: Config, w: World, q: Request, sid: Uuid)
    requires q.Rotate? && sid in w.rows && w.rows[sid].active
    ensures var rotated := RotatePlan(cfg, w.redis, q.cookie, q.mint, w.now);
            && (rotated.result == Raised(TokenReplay) ==> q.cookie.Some?)
            && (forall c | c in rotated.cmds :: Lenient(c, sid) && !c.Write?)
            && (!(rotated.result == Raised(TokenReplay) && q.cookie.value.sid.Some?) ==>
                  forall c | c in RequestPlan(cfg, w, q).cmds :: Lenient(c, sid) && (c.Write? ==> sid in c.tables))
  {
  }

  lemma WalkCommit(stage: Option<Stage>, sid: Uuid, jti: Uuid)
    requires Pending(stage)
    ensures Walk(stage, [Commit], sid, jti) == Some(if stage.value == Marked then Shut else Over)
  {
    WalkOne(stage, Commit, sid, jti);
  }

  lemma LogoutWalks(cfg: Config, w: World, q: Request, sid: Uuid)
    requires q.Logout? && sid in w.rows && w.rows[sid].active
    ensures var p := RequestPlan(cfg, w, q);
            && Pending(Walk(Some(Open), p.cmds, sid, w.rows[sid].jti))
            && (forall c | c in p.cmds && c.Write? :: sid in c.tables)
  {
    hide RevokeBySidPlan, After;
    var jti := w.rows[sid].jti;
    var verified := VerifyRefreshPlan(w.redis, q.cookie, w.now);
    if q.cookie.Some? && verified.result.Ok? {
      var tok := q.cookie.value;
      var before := verified.cmds + RevokeTokenCmds(tok, w.now);
      WalkLeniently(Open, before, sid, jti);
      assert before + [] == before;
      if tok.sid.Some? {
        var killed := RevokeBySidPlan(cfg, w.now, w.rows, tok.sid.value, "logout");
        BySidWalks(cfg, w.now, w.rows, tok.sid.value, "logout", Walk(Some(Open), before, sid, jti).value, sid, jti);
        WalkConcat(Some(Open), before, killed.cmds, sid, jti);
      }
    } else {
      WalkLeniently(Open, RequestPlan(cfg, w, q).cmds, sid, jti);
    }
  }

  lemma LoginWalks(cfg: Config, w: World, q: Request, sid: Uuid)
    requires q.Login? && sid in w.rows && w.rows[sid].active
    ensures var p := RequestPlan(cfg, w, q);
            && Pending(Walk(Some(Open), p.cmds, sid, w.rows[sid].jti))
            && (forall c | c in p.cmds && c.Write? :: sid in c.tables)
  {
    WalkLeniently(Open, RequestPlan(cfg, w, q).cmds, sid, w.rows[sid].jti);
  }

  /** Every request is a lawful path for every active session. It lapses exactly
      if it presents an expiring token of the session. */
  lemma RequestWalks(cfg: Config, w: World, q: Request, sid: Uuid)
    requires Possible(cfg, w, q) && sid in w.rows && w.rows[sid].active
    ensures Ends(Walk(Some(Open), Issued(cfg, w, q).cmds, sid, w.rows[sid].jti), Lapses(cfg, w, q, sid))
    ensures forall c | c in Issued(cfg, w, q).cmds && c.Write? :: sid in c.tables
  {
    hide RequestPlan, After, Expires, Possible;
    var p := RequestPlan(cfg, w, q);
    match q {
      case Login(_, _, _, _) => LoginWalks(cfg, w, q, sid);
      case Call(_, _, _) => AccessWalks(cfg, w, q, sid);
      case Rotate(_, _) => RotateWalks(cfg, w, q, sid);
      case Logout(_) => LogoutWalks(cfg, w, q, sid);
    }
    assert !q.Call? ==> !Lapses(cfg, w, q, sid) by { OnlyCallsLapse(cfg, w, q, sid); }
    if p.result.Ok? {
      WalkConcat(Some(Open), p.cmds, [Commit], sid, w.rows[sid].jti);
      WalkCommit(Walk(Some(Open), p.cmds, sid, w.rows[sid].jti), sid, w.rows[sid].jti);
    }
  }

  lemma OnlyCallsLapse(cfg: Config, w: World, q: Request, sid: Uuid)
    ensures Expires(cfg, w, q, sid) ==> q.Call?
  {
  }

  /** Where a cut leaves an active session. */
  function StageAt(cfg: Config, w: World, q: Request, budget: nat, sid: Uuid): Option<Stage> {
    if sid in w.rows then Walk(Some(Open), Cut(Issued(cfg, w, q).cmds, budget), sid, w.rows[sid].jti) else None
  }

  /** The stage describes what the request left in both stores. */
  lemma StageTells(cfg: Config, w: World, q: Request, budget: nat, sid: Uuid)
    requires Possible(cfg, w, q) && sid in w.rows && w.rows[sid].active
    ensures var st := StageAt(cfg, w, q, budget, sid);
            && st.Some?
            && Stands(st.value, Left(cfg, w, q, budget), sid, w.rows[sid].jti,
                      SessionRevoked(sid) in w.redis, RevokedJti(w.rows[sid].jti) in w.redis)
  {
    hide Issued, After, Possible;
    var jti := w.rows[sid].jti;
    var cmds := Issued(cfg, w, q).cmds;
    RequestWalks(cfg, w, q, sid);
    WalkCut(Some(Open), cmds, budget, sid, jti);
    assert forall c | c in Cut(cmds, budget) :: c in cmds;
    StandsAfter(Open, Start(w), w.now, Cut(cmds, budget), sid, jti, SessionRevoked(sid) in w.redis,
                RevokedJti(jti) in w.redis);
  }

  predicate InLapse(stage: Stage) {
    stage.Lapsing? || stage.Lapsed? || stage.LapsedLoose? || stage.LapsedMarked?
  }

  /** Once on one of the two ways, a request stays on it. */
  lemma {:induction false} WayStays(stage: Stage, cmds: seq<SessionCommand>, sid: Uuid, jti: Uuid)
    requires Walk(Some(stage), cmds, sid, jti).Some?
    ensures InLapse(stage) ==> InLapse(Walk(Some(stage), cmds, sid, jti).value)
    ensures !InLapse(stage) && stage != Open ==> !InLapse(Walk(Some(stage), cmds, sid, jti).value)
    decreases |cmds|
  {
    if cmds != [] {
      if After(stage, cmds[0], sid, jti).None? {
        WalkNowhere(cmds[1..], sid, jti);
      }
      WayStays(After(stage, cmds[0], sid, jti).value, cmds[1..], sid, jti);
    }
  }

  /** Wherever it is cut, a request is on the way of an expiry only if it
      presents an expiring token, and then on no other. */
  lemma StageWay(cfg: Config, w: World, q: Request, budget: nat, sid: Uuid)
    requires Possible(cfg, w, q) && sid in w.rows && w.rows[sid].active
    ensures var st := StageAt(cfg, w, q, budget, sid);
            && st.Some?
            && (InLapse(st.value) ==> Lapses(cfg, w, q, sid))
            && (Lapses(cfg, w, q, sid) ==> st.value == Open || InLapse(st.value))
  {
    hide Issued, After, Possible, Lapses;
    var jti := w.rows[sid].jti;
    var cmds := Issued(cfg, w, q).cmds;
    var n := Min(budget, |cmds|);
    RequestWalks(cfg, w, q, sid);
    WalkCut(Some(Open), cmds, budget, sid, jti);
    assert cmds == cmds[..n] + cmds[n..];
    WalkConcat(Some(Open), cmds[..n], cmds[n..], sid, jti);
    WayStays(Walk(Some(Open), cmds[..n], sid, jti).value, cmds[n..], sid, jti);
  }

  /** A request that names an account in bad standing closes nothing. */
  lemma BadStanding(cfg: Config, w: World, q: Request, budget: nat, sid: Uuid)
    requires Expires(cfg, w, q, sid) && !Lapses(cfg, w, q, sid)
    ensures Left(cfg, w, q, budget) == Start(w)
  {
    assert Issued(cfg, w, q).cmds == [Select];
    ReadsChangeNothing(Start(w), w.now, Cut(Issued(cfg, w, q).cmds, budget));
  }

  // ------------------------------------------------- what closing leaves behind

  /** However a session comes to be closed, cut requests included: its refresh
      token is blacklisted from then on, unless it was not before and the
      session was closed by an expiry. */
  lemma ClosedIsListed(cfg: Config, w: World, q: Request, budget: nat, sid: Uuid)
    requires Inv(cfg, w) && Possible(cfg, w, q) && sid in w.rows && w.rows[sid].active
    requires sid in Next(cfg, w, Serve(q, budget)).rows && !Next(cfg, w, Serve(q, budget)).rows[sid].active
    ensures RevokedJti(w.rows[sid].jti) in Next(cfg, w, Serve(q, budget)).redis
            <==> RevokedJti(w.rows[sid].jti) in w.redis || !Expires(cfg, w, q, sid)
  {
    hide Inv, Possible, Issued, Walk;
    StageTells(cfg, w, q, budget, sid);
    StageWay(cfg, w, q, budget, sid);
    if Expires(cfg, w, q, sid) && !Lapses(cfg, w, q, sid) {
      BadStanding(cfg, w, q, budget, sid);
    }
  }

  /** The request flags the session, and commits nothing. */
  predicate FlagsUncommitted(cfg: Config, w: World, q: Request, budget: nat, sid: Uuid) {
    var cut := Cut(Issued(cfg, w, q).cmds, budget);
    && sid in w.rows && w.rows[sid].active
    && Commit !in cut && exists c | c in cut :: Flags(c, sid)
  }

  lemma {:induction false} StageCommits(stage: Stage, cmds: seq<SessionCommand>, sid: Uuid, jti: Uuid)
    requires Walk(Some(stage), cmds, sid, jti).Some?
    ensures var e := Walk(Some(stage), cmds, sid, jti).value;
            && (stage == Marked ==> e == Marked || e == Shut)
            && (stage == Shut || stage == Over || stage == LapsedMarked ==> e == stage)
            && (e == Marked ==> Commit !in cmds)
            && (e == Marked ==> stage == Marked || exists c | c in cmds :: Flags(c, sid))
            && ((exists c | c in cmds :: Flags(c, sid)) ==> e == Marked || e == Shut || e == LapsedMarked)
            && (e == Shut ==> stage == Shut || Commit in cmds)
            && (e == LapsedMarked && (stage == Open || stage == Lapsing) ==> Commit in cmds)
    decreases |cmds|
  {
    if cmds != [] {
      var next := After(stage, cmds[0], sid, jti);
      if next.None? {
        WalkNowhere(cmds[1..], sid, jti);
      }
      WayStays(next.value, cmds[1..], sid, jti);
      StageCommits(next.value, cmds[1..], sid, jti);
    }
  }
}
