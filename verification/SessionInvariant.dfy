/** What every command of every request keeps true of the stores and of the
    tokens clients hold. Because it is kept command by command, it holds after
    a request that was cut short anywhere. */
module SessionInvariant {
  import opened Base
  import opened Stores
  import opened SessionPlans
  import opened Protocol

  /** What does not change while a request runs. */
  datatype Env = Env(cfg: Config, now: int, delivered: set<Token>, minted: set<Uuid>)

  /** Delivered tokens name an existing session of their own user. */
  ghost predicate TokensOk(env: Env, rows: Rows) {
    && (forall t | t in env.delivered ::
          && t.sid.Some? && Owned(rows, t.sid.value, t.user) && t.jti in env.minted
          && (t.kind == Refresh ==> t.exp <= env.now + env.cfg.RefreshSeconds(true)))
    && (forall t, u | t in env.delivered && u in env.delivered && t.jti == u.jti :: t == u)
  }

  ghost predicate RowsOk(env: Env, rows: Rows) {
    forall sid | sid in rows ::
      && sid in env.minted && rows[sid].jti in env.minted
      && rows[sid].loginAt <= rows[sid].lastActivity <= env.now
      && rows[sid].expiresAt <= rows[sid].loginAt + env.cfg.AbsoluteSeconds()
  }

  /** A blacklist entry outlives the refresh token it names. */
  ghost predicate BlacklistOk(env: Env, redis: Cache) {
    forall jti | RevokedJti(jti) in redis ::
      && jti in env.minted && redis[RevokedJti(jti)].deadline.Some?
      && (forall t | t in env.delivered && t.kind == Refresh && t.jti == jti ::
            t.exp <= redis[RevokedJti(jti)].deadline.value)
  }

  /** Only the refresh token the row names is still good for an active session. */
  ghost predicate OneLive(env: Env, redis: Cache, rows: Rows) {
    forall t | t in env.delivered && t.kind == Refresh && t.sid.Some? && t.sid.value in rows
               && rows[t.sid.value].active && RevokedJti(t.jti) !in redis ::
      rows[t.sid.value].jti == t.jti
  }

  /** A revocation flag outlives its session, and whatever the row says, the
      session's refresh token is blacklisted by then. */
  ghost predicate FlagsOk(redis: Cache, rows: Rows) {
    forall sid | SessionRevoked(sid) in redis ::
      && sid in rows && redis[SessionRevoked(sid)].deadline.Some?
      && rows[sid].expiresAt <= redis[SessionRevoked(sid)].deadline.value
      && (rows[sid].active ==> RevokedJti(rows[sid].jti) in redis)
  }

  ghost predicate Core(env: Env, redis: Cache, rows: Rows) {
    && TokensOk(env, rows) && RowsOk(env, rows) && BlacklistOk(env, redis)
    && OneLive(env, redis, rows) && FlagsOk(redis, rows)
    && (forall sid | SessionTouch(sid) in redis :: sid in env.minted)
  }

  /** What is never taken back: blacklist entries and flags stay, rows stay,
      keep their owner and their times, and are never reactivated. */
  ghost predicate Since(redis: Cache, rows: Rows, redis': Cache, rows': Rows) {
    && (forall jti | RevokedJti(jti) in redis :: RevokedJti(jti) in redis')
    && (forall sid | SessionRevoked(sid) in redis :: SessionRevoked(sid) in redis')
    && (forall sid | sid in rows ::
          && sid in rows' && rows'[sid].user == rows[sid].user
          && rows'[sid].loginAt == rows[sid].loginAt && rows'[sid].expiresAt == rows[sid].expiresAt
          && (rows'[sid].active ==> rows[sid].active)
          && rows[sid].lastActivity <= rows'[sid].lastActivity
          && rows[sid].requests <= rows'[sid].requests)
  }

  /** A session flagged since `w` is closed in the transaction. */
  ghost predicate NewFlagsClosed(w: World, s: SessionState) {
    forall sid | SessionRevoked(sid) in s.redis && SessionRevoked(sid) !in w.redis ::
      sid in s.working && !s.working[sid].active
  }

  /** Both views of the tables are fine, and nothing was taken back since `w`. */
  ghost predicate Fine(env: Env, w: World, s: SessionState) {
    && Core(env, s.redis, s.committed) && Since(w.redis, w.rows, s.redis, s.committed)
    && Core(env, s.redis, s.working) && Since(w.redis, w.rows, s.redis, s.working)
    && NewFlagsClosed(w, s)
  }

  /** `Fine` as a property of states. */
  ghost function FineAt(env: Env, w: World): SessionState -> bool {
    s => Fine(env, w, s)
  }

  // ------------------------------------------------- single commands

  /** Reads, and writes to keys the invariant does not speak of. */
  ghost predicate Harmless(c: SessionCommand, minted: set<Uuid>) {
    || c.Exists? || c.Select?
    || (c.Set? && c.key.SessionActive?)
    || (c.Set? && c.key.SessionTouch? && c.key.sid in minted)
    || (c.Delete? && (c.key.SessionActive? || c.key.SessionTouch?))
    || c.Commit?
  }

  /** The same blacklist and the same flags. */
  ghost predicate SameVerdicts(redis: Cache, redis': Cache) {
    && (forall jti :: RevokedJti(jti) in redis <==> RevokedJti(jti) in redis')
    && (forall sid :: SessionRevoked(sid) in redis <==> SessionRevoked(sid) in redis')
    && (forall jti | RevokedJti(jti) in redis :: redis'[RevokedJti(jti)] == redis[RevokedJti(jti)])
    && (forall sid | SessionRevoked(sid) in redis :: redis'[SessionRevoked(sid)] == redis[SessionRevoked(sid)])
  }

  lemma SameCore(env: Env, redis: Cache, redis': Cache, rows: Rows)
    requires Core(env, redis, rows) && SameVerdicts(redis, redis')
    requires forall sid | SessionTouch(sid) in redis' :: sid in env.minted
    ensures Core(env, redis', rows)
  {
    hide TokensOk, RowsOk;
    assert BlacklistOk(env, redis');
    assert OneLive(env, redis', rows);
    assert FlagsOk(redis', rows);
  }

  lemma SameSince(redis0: Cache, rows0: Rows, redis: Cache, redis': Cache, rows: Rows)
    requires Since(redis0, rows0, redis, rows) && SameVerdicts(redis, redis')
    ensures Since(redis0, rows0, redis', rows)
  {
  }

  lemma KeepsHarmless(env: Env, w: World, s: SessionState, c: SessionCommand)
    requires Fine(env, w, s) && Harmless(c, env.minted)
    ensures Fine(env, w, Apply(s, env.now, c))
  {
    hide TokensOk, OneLive, RowsOk, FlagsOk, BlacklistOk, Since;
    var s' := Apply(s, env.now, c);
    if !c.Commit? {
      assert SameVerdicts(s.redis, s'.redis);
      SameCore(env, s.redis, s'.redis, s.committed);
      SameCore(env, s.redis, s'.redis, s.working);
      SameSince(w.redis, w.rows, s.redis, s'.redis, s.committed);
      SameSince(w.redis, w.rows, s.redis, s'.redis, s.working);
    }
  }

  lemma BlacklistCore(env: Env, redis: Cache, rows: Rows, jti: Uuid, deadline: int)
    requires Core(env, redis, rows) && jti in env.minted
    requires forall t | t in env.delivered && t.kind == Refresh && t.jti == jti :: t.exp <= deadline
    ensures Core(env, redis[RevokedJti(jti) := Entry(Mark, Some(deadline))], rows)
  {
    hide TokensOk, RowsOk;
    var redis' := redis[RevokedJti(jti) := Entry(Mark, Some(deadline))];
    assert BlacklistOk(env, redis');
    assert OneLive(env, redis', rows);
    assert FlagsOk(redis', rows);
  }

  lemma AddedSince(redis0: Cache, rows0: Rows, redis: Cache, rows: Rows, key: Key, entry: Entry)
    requires Since(redis0, rows0, redis, rows)
    ensures Since(redis0, rows0, redis[key := entry], rows)
  {
  }

  /** Blacklisting a refresh token for at least as long as it lives. */
  lemma KeepsBlacklist(env: Env, w: World, s: SessionState, jti: Uuid, ttl: int)
    requires Fine(env, w, s) && jti in env.minted
    requires forall t | t in env.delivered && t.kind == Refresh && t.jti == jti :: t.exp <= env.now + ttl
    ensures Fine(env, w, Apply(s, env.now, Set(RevokedJti(jti), Mark, ttl)))
  {
    hide Core, Since;
    BlacklistCore(env, s.redis, s.committed, jti, env.now + ttl);
    BlacklistCore(env, s.redis, s.working, jti, env.now + ttl);
    AddedSince(w.redis, w.rows, s.redis, s.committed, RevokedJti(jti), Entry(Mark, Some(env.now + ttl)));
    AddedSince(w.redis, w.rows, s.redis, s.working, RevokedJti(jti), Entry(Mark, Some(env.now + ttl)));
  }

  /** Blacklisting the refresh token a row names, by its id alone. */
  lemma KeepsBlacklistRow(env: Env, w: World, s: SessionState, sid: Uuid)
    requires Fine(env, w, s) && sid in s.working
    ensures Fine(env, w, Apply(s, env.now, RevokeJtiCmds(env.cfg, s.working[sid].jti, 0)[0]))
  {
    KeepsBlacklist(env, w, s, s.working[sid].jti, env.cfg.RefreshSeconds(true));
  }

  /** Blacklisting a presented refresh token until its own expiry. */
  lemma KeepsBlacklistToken(env: Env, w: World, s: SessionState, tok: Token)
    requires Fine(env, w, s) && tok in env.delivered
    ensures Fine(env, w, Apply(s, env.now, Set(RevokedJti(tok.jti), Mark, tok.exp - env.now)))
  {
    KeepsBlacklist(env, w, s, tok.jti, tok.exp - env.now);
  }

  lemma FlagCore(env: Env, redis: Cache, rows: Rows, sid: Uuid)
    requires Core(env, redis, rows) && sid in rows
    requires rows[sid].active ==> RevokedJti(rows[sid].jti) in redis
    ensures Core(env, redis[SessionRevoked(sid) := Entry(Mark, Some(env.now + env.cfg.AbsoluteSeconds()))], rows)
  {
    hide TokensOk;
    var redis' := redis[SessionRevoked(sid) := Entry(Mark, Some(env.now + env.cfg.AbsoluteSeconds()))];
    assert BlacklistOk(env, redis');
    assert OneLive(env, redis', rows);
    assert FlagsOk(redis', rows);
  }

  /** Flagging a session the transaction has closed and whose row, if still
      committed as active, names a blacklisted refresh token. */
  lemma KeepsFlag(env: Env, w: World, s: SessionState, sid: Uuid)
    requires Fine(env, w, s) && sid in s.working && sid in s.committed
    requires !s.working[sid].active
    requires s.committed[sid].active ==> RevokedJti(s.committed[sid].jti) in s.redis
    ensures Fine(env, w, Apply(s, env.now, Set(SessionRevoked(sid), Mark, env.cfg.AbsoluteSeconds())))
  {
    hide Core, Since;
    var entry := Entry(Mark, Some(env.now + env.cfg.AbsoluteSeconds()));
    FlagCore(env, s.redis, s.committed, sid);
    FlagCore(env, s.redis, s.working, sid);
    AddedSince(w.redis, w.rows, s.redis, s.committed, SessionRevoked(sid), entry);
    AddedSince(w.redis, w.rows, s.redis, s.working, SessionRevoked(sid), entry);
  }

  /** How a request may rewrite a row: same owner and times, not reactivated,
      and, if it renames the refresh token, the old one is blacklisted. */
  ghost predicate Rewrite(env: Env, redis: Cache, rows: Rows, sid: Uuid, row: Row) {
    && sid in rows
    && row.user == rows[sid].user && row.jti in env.minted
    && row.loginAt == rows[sid].loginAt && row.expiresAt == rows[sid].expiresAt
    && rows[sid].lastActivity <= row.lastActivity <= env.now
    && rows[sid].requests <= row.requests
    && (row.active ==> rows[sid].active)
    && (row.active && row.jti != rows[sid].jti ==>
          RevokedJti(rows[sid].jti) in redis && SessionRevoked(sid) !in redis)
  }

  lemma RewriteTokens(env: Env, redis: Cache, rows: Rows, sid: Uuid, row: Row)
    requires TokensOk(env, rows) && Rewrite(env, redis, rows, sid, row)
    ensures TokensOk(env, rows[sid := row])
  {
  }

  lemma RewriteOneLive(env: Env, redis: Cache, rows: Rows, sid: Uuid, row: Row)
    requires OneLive(env, redis, rows) && Rewrite(env, redis, rows, sid, row)
    ensures OneLive(env, redis, rows[sid := row])
  {
  }

  lemma RewriteRest(env: Env, redis: Cache, rows: Rows, sid: Uuid, row: Row)
    requires RowsOk(env, rows) && FlagsOk(redis, rows) && Rewrite(env, redis, rows, sid, row)
    ensures RowsOk(env, rows[sid := row]) && FlagsOk(redis, rows[sid := row])
  {
  }

  lemma RewriteSince(env: Env, redis0: Cache, rows0: Rows, redis: Cache, rows: Rows, sid: Uuid, row: Row)
    requires Since(redis0, rows0, redis, rows) && Rewrite(env, redis, rows, sid, row)
    ensures Since(redis0, rows0, redis, rows[sid := row])
  {
  }

  lemma RewriteFlags(env: Env, w: World, s: SessionState, sid: Uuid, row: Row)
    requires NewFlagsClosed(w, s) && Rewrite(env, s.redis, s.working, sid, row)
    ensures NewFlagsClosed(w, s.(working := s.working[sid := row]))
  {
  }

  lemma KeepsWrite(env: Env, w: World, s: SessionState, sid: Uuid, row: Row)
    requires Fine(env, w, s) && Rewrite(env, s.redis, s.working, sid, row)
    ensures Fine(env, w, Apply(s, env.now, Write(s.working[sid := row])))
  {
    hide TokensOk, OneLive, RowsOk, FlagsOk, BlacklistOk, Since, NewFlagsClosed, Rewrite;
    RewriteFlags(env, w, s, sid, row);
    RewriteTokens(env, s.redis, s.working, sid, row);
    RewriteOneLive(env, s.redis, s.working, sid, row);
    RewriteRest(env, s.redis, s.working, sid, row);
    RewriteSince(env, w.redis, w.rows, s.redis, s.working, sid, row);
  }

  lemma KeepsClose(env: Env, w: World, s: SessionState, sid: Uuid, reason: string)
    requires Fine(env, w, s) && sid in s.working
    ensures Fine(env, w, Apply(s, env.now, Write(s.working[sid := Closed(s.working[sid], env.now, reason)])))
  {
    KeepsWrite(env, w, s, sid, Closed(s.working[sid], env.now, reason));
  }

  lemma KeepsTouchWrite(env: Env, w: World, s: SessionState, sid: Uuid, row: Row)
    requires Fine(env, w, s) && sid in s.working
    requires row == s.working[sid].(lastActivity := env.now, requests := s.working[sid].requests + 1)
    ensures Fine(env, w, Apply(s, env.now, Write(s.working[sid := row])))
  {
    KeepsWrite(env, w, s, sid, row);
  }

  lemma KeepsRebindWrite(env: Env, w: World, s: SessionState, sid: Uuid, jti: Uuid)
    requires Fine(env, w, s) && sid in s.working && jti in env.minted
    requires RevokedJti(s.working[sid].jti) in s.redis && SessionRevoked(sid) !in s.redis
    ensures Fine(env, w, Apply(s, env.now,
                               Write(s.working[sid := s.working[sid].(jti := jti, lastActivity := env.now)])))
  {
    KeepsWrite(env, w, s, sid, s.working[sid].(jti := jti, lastActivity := env.now));
  }

  ghost predicate Insert(env: Env, rows: Rows, sid: Uuid, row: Row) {
    && sid !in rows && sid in env.minted && row.jti in env.minted
    && row.loginAt == row.lastActivity == env.now
    && row.expiresAt <= env.now + env.cfg.AbsoluteSeconds()
  }

  lemma InsertTokens(env: Env, rows: Rows, sid: Uuid, row: Row)
    requires TokensOk(env, rows) && Insert(env, rows, sid, row)
    ensures TokensOk(env, rows[sid := row])
  {
  }

  lemma InsertOneLive(env: Env, redis: Cache, rows: Rows, sid: Uuid, row: Row)
    requires TokensOk(env, rows) && OneLive(env, redis, rows) && Insert(env, rows, sid, row)
    ensures OneLive(env, redis, rows[sid := row])
  {
    forall t | t in env.delivered
      ensures t.sid.Some? && t.sid.value != sid && t.sid.value in rows
    {
    }
  }

  lemma InsertRest(env: Env, redis: Cache, rows: Rows, sid: Uuid, row: Row)
    requires RowsOk(env, rows) && FlagsOk(redis, rows) && Insert(env, rows, sid, row)
    ensures RowsOk(env, rows[sid := row]) && FlagsOk(redis, rows[sid := row])
  {
  }

  lemma InsertSince(env: Env, redis0: Cache, rows0: Rows, redis: Cache, rows: Rows, sid: Uuid, row: Row)
    requires Since(redis0, rows0, redis, rows) && Insert(env, rows, sid, row)
    ensures Since(redis0, rows0, redis, rows[sid := row])
  {
  }

  lemma InsertFlags(env: Env, w: World, s: SessionState, sid: Uuid, row: Row)
    requires NewFlagsClosed(w, s) && Insert(env, s.working, sid, row)
    ensures NewFlagsClosed(w, s.(working := s.working[sid := row]))
  {
  }

  lemma KeepsInsert(env: Env, w: World, s: SessionState, sid: Uuid, row: Row)
    requires Fine(env, w, s) && Insert(env, s.working, sid, row)
    ensures Fine(env, w, Apply(s, env.now, Write(s.working[sid := row])))
  {
    hide TokensOk, OneLive, RowsOk, FlagsOk, BlacklistOk, Since, NewFlagsClosed, Insert;
    InsertFlags(env, w, s, sid, row);
    InsertTokens(env, s.working, sid, row);
    InsertOneLive(env, s.redis, s.working, sid, row);
    InsertRest(env, s.redis, s.working, sid, row);
    InsertSince(env, w.redis, w.rows, s.redis, s.working, sid, row);
  }

  // ------------------------------------------------- tokens

  /** A refresh token that still verifies is the one its active session names,
      and that session is not flagged. */
  lemma GoodToken(env: Env, redis: Cache, rows: Rows, tok: Token)
    requires Core(env, redis, rows)
    requires tok in env.delivered && tok.kind == Refresh && env.now < tok.exp
    requires !Live(redis, RevokedJti(tok.jti), env.now)
    ensures RevokedJti(tok.jti) !in redis
    ensures tok.sid.Some? && Owned(rows, tok.sid.value, tok.user)
    ensures rows[tok.sid.value].active ==>
              rows[tok.sid.value].jti == tok.jti && SessionRevoked(tok.sid.value) !in redis
  {
  }

  /** A pair may be sent out once the session names its refresh token. */
  lemma Deliver(env: Env, redis: Cache, rows: Rows, pair: Pair, sid: Uuid)
    requires Core(env, redis, rows)
    requires pair.access.sid == pair.refresh.sid == Some(sid)
    requires pair.access.kind == Access && pair.refresh.kind == Refresh
    requires Owned(rows, sid, pair.refresh.user) && pair.access.user == pair.refresh.user
    requires rows[sid].jti == pair.refresh.jti && RevokedJti(pair.refresh.jti) !in redis
    requires pair.access.jti in env.minted && pair.refresh.jti in env.minted
    requires pair.access.jti != pair.refresh.jti
    requires forall t | t in env.delivered :: t.jti != pair.access.jti && t.jti != pair.refresh.jti
    requires pair.refresh.exp <= env.now + env.cfg.RefreshSeconds(true)
    ensures Core(env.(delivered := env.delivered + {pair.access, pair.refresh}), redis, rows)
  {
    hide FlagsOk;
    var env' := env.(delivered := env.delivered + {pair.access, pair.refresh});
    assert TokensOk(env', rows);
    assert BlacklistOk(env', redis);
    assert OneLive(env', redis, rows);
  }

  /** Drawing identifiers and waiting break nothing. */
  lemma Later(env: Env, env': Env, redis: Cache, rows: Rows)
    requires Core(env, redis, rows)
    requires env'.cfg == env.cfg && env'.delivered == env.delivered
    requires env.now <= env'.now && env.minted <= env'.minted
    ensures Core(env', redis, rows)
  {
    assert TokensOk(env', rows);
    assert BlacklistOk(env', redis);
    assert OneLive(env', redis, rows);
  }
}
