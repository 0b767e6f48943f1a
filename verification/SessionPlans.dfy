/** Session rows, tokens, and what every session or token operation does to the
    two stores, written as plans. The classes in SessionService.dfy are proved
    to run exactly these plans; Protocol.dfy composes them into runs. */
module SessionPlans {
  import opened Base
  import opened Stores

  datatype Device = Device(browser: string, system: string, kind: string)

  datatype Row = Row(
    user: Uuid,
    jti: Uuid,
    device: Device,
    loginAt: int,
    lastActivity: int,
    expiresAt: int,
    active: bool,
    requests: nat,
    logoutAt: Option<int>,
    reason: Option<string>)

  /** The session table, keyed by session uuid. */
  type Rows = map<Uuid, Row>

  datatype TokenKind = Access | Refresh | PreAuth

  /** The claims of a signed token. Times are whole seconds. */
  datatype Token = Token(
    kind: TokenKind,
    user: Uuid,
    jti: Uuid,
    iat: int,
    exp: int,
    remember: bool,
    sid: Option<Uuid>)

  datatype Pair = Pair(access: Token, refresh: Token)

  /** The random identifiers a request draws. */
  datatype Mint = Mint(sid: Uuid, access: Uuid, refresh: Uuid)

  type SessionState = State<Rows>
  type SessionCommand = Command<Rows>
  type SessionPlan<R> = Plan<Rows, R>

  // ------------------------------------------------------------- tokens

  /** A cookie is absent or badly signed (`None`), or it carries a token. */
  function Decode(cookie: Option<Token>, kind: TokenKind, now: int): Attempt<Token> {
    if cookie.None? || cookie.value.exp <= now || cookie.value.kind != kind
    then Raised(AuthError)
    else Ok(cookie.value)
  }

  function IssuePair(cfg: Config, now: int, user: Uuid, remember: bool, sid: Option<Uuid>, mint: Mint): Pair {
    Pair(
      Token(Access, user, mint.access, now, now + cfg.AccessSeconds(), false, sid),
      Token(Refresh, user, mint.refresh, now, now + cfg.RefreshSeconds(remember), remember, sid))
  }

  /** Blacklisting until natural expiry. */
  function RevokeTokenCmds(tok: Token, now: int): seq<SessionCommand> {
    if 0 < tok.exp - now then [Set(RevokedJti(tok.jti), Mark, tok.exp - now)] else []
  }

  /** Blacklisting by id: the caller's lifetime, or the longest a refresh token can have. */
  function RevokeJtiCmds(cfg: Config, jti: Uuid, ttl: int): seq<SessionCommand> {
    [Set(RevokedJti(jti), Mark, if ttl != 0 then ttl else cfg.RefreshSeconds(true))]
  }

  function VerifyRefreshPlan(redis: Cache, cookie: Option<Token>, now: int): SessionPlan<Token> {
    match Decode(cookie, Refresh, now)
    case Raised(e) => Plan([], Raised(e))
    case Ok(tok) =>
      Plan([Exists(RevokedJti(tok.jti))],
           if Live(redis, RevokedJti(tok.jti), now) then Raised(TokenReplay) else Ok(tok))
  }

  function RotatePlan(cfg: Config, redis: Cache, cookie: Option<Token>, mint: Mint, now: int): SessionPlan<Pair> {
    var verified := VerifyRefreshPlan(redis, cookie, now);
    match verified.result
    case Raised(e) => Plan(verified.cmds, Raised(e))
    case Ok(tok) =>
      Plan(verified.cmds + RevokeTokenCmds(tok, now),
           Ok(IssuePair(cfg, now, tok.user, tok.remember, tok.sid, mint)))
  }

  // ------------------------------------------------------------- sessions

  function Expiry(cfg: Config, remember: bool, now: int): int {
    now + Min(cfg.RefreshSeconds(remember), cfg.AbsoluteSeconds())
  }

  predicate HasAny(rows: Rows, user: Uuid) {
    exists sid | sid in rows :: rows[sid].user == user
  }

  predicate HasDevice(rows: Rows, user: Uuid, device: Device) {
    exists sid | sid in rows :: rows[sid].user == user && rows[sid].device == device
  }

  function FreshRow(cfg: Config, now: int, user: Uuid, jti: Uuid, remember: bool, device: Device): Row {
    Row(user, jti, device, now, now, Expiry(cfg, remember, now), true, 0, None, None)
  }

  function SetActive(cfg: Config, sid: Uuid): SessionCommand {
    Set(SessionActive(sid), Mark, cfg.IdleSeconds())
  }

  /** The result says whether the device is new for a user who has signed in before. */
  function CreatePlan(cfg: Config, now: int, rows: Rows, user: Uuid, sid: Uuid, jti: Uuid,
                      remember: bool, device: Device): SessionPlan<bool>
  {
    Plan((if HasAny(rows, user) then [Select, Select] else [Select])
         + [Write(rows[sid := FreshRow(cfg, now, user, jti, remember, device)]), SetActive(cfg, sid)],
         Ok(HasAny(rows, user) && !HasDevice(rows, user, device)))
  }

  function Closed(row: Row, now: int, reason: string): Row {
    row.(active := false, logoutAt := Some(now), reason := Some(reason))
  }

  function ClearCacheCmds(cfg: Config, sid: Uuid, revoke: bool): seq<SessionCommand> {
    [Delete(SessionActive(sid)), Delete(SessionTouch(sid))]
    + if revoke then [Set(SessionRevoked(sid), Mark, cfg.AbsoluteSeconds())] else []
  }

  function ExpireCmds(cfg: Config, now: int, rows: Rows, sid: Uuid, reason: string): seq<SessionCommand>
    requires sid in rows
  {
    [Write(rows[sid := Closed(rows[sid], now, reason)]), Commit] + ClearCacheCmds(cfg, sid, true)
  }

  /** Revoking a row the caller holds; nothing is issued for a row that is not there. */
  function RevokeCmds(cfg: Config, now: int, rows: Rows, sid: Uuid, reason: string): seq<SessionCommand> {
    if sid !in rows then []
    else
      RevokeJtiCmds(cfg, rows[sid].jti, 0)
      + [Write(rows[sid := Closed(rows[sid], now, reason)])]
      + ClearCacheCmds(cfg, sid, true)
  }

  function Touched(rows: Rows, now: int, sid: Uuid): Rows
    requires sid in rows
  {
    rows[sid := rows[sid].(lastActivity := now, requests := rows[sid].requests + 1)]
  }

  function TouchCmds(cfg: Config, now: int, redis: Cache, rows: Rows, sid: Uuid): seq<SessionCommand>
    requires sid in rows
  {
    if Live(redis, SessionTouch(sid), now) then [Exists(SessionTouch(sid))]
    else
      [Exists(SessionTouch(sid)),
       Write(Touched(rows, now, sid)),
       Set(SessionTouch(sid), Mark, cfg.throttleSeconds),
       SetActive(cfg, sid)]
  }

  predicate Owned(rows: Rows, sid: Uuid, user: Uuid) {
    sid in rows && rows[sid].user == user
  }

  predicate Usable(rows: Rows, sid: Uuid, user: Uuid) {
    Owned(rows, sid, user) && rows[sid].active
  }

  predicate Idle(cfg: Config, row: Row, now: int) {
    row.lastActivity + cfg.IdleSeconds() < now
  }

  /** What the database alone says of a session: the decision without Redis. */
  function JudgePlan(cfg: Config, now: int, redis: Cache, rows: Rows, sid: Uuid, user: Uuid): SessionPlan<()> {
    if !Usable(rows, sid, user) then
      Plan([Select], Raised(AuthError))
    else if rows[sid].expiresAt <= now then
      Plan([Select] + ExpireCmds(cfg, now, rows, sid, "absolute_expiry"), Raised(AuthError))
    else if Idle(cfg, rows[sid], now) then
      Plan([Select] + ExpireCmds(cfg, now, rows, sid, "idle_timeout"), Raised(AuthError))
    else
      Plan([Select] + TouchCmds(cfg, now, redis, rows, sid), Ok(()))
  }

  /** The decision with the Redis fast path in front. */
  function ValidatePlan(cfg: Config, now: int, redis: Cache, rows: Rows, sid: Uuid, user: Uuid): SessionPlan<()> {
    if Live(redis, SessionRevoked(sid), now) then
      Plan([Exists(SessionRevoked(sid))], Raised(AuthError))
    else
      var judged := JudgePlan(cfg, now, redis, rows, sid, user);
      Plan([Exists(SessionRevoked(sid))] + judged.cmds, judged.result)
  }

  /** The user's active sessions, most recently active first. */
  ghost predicate Listing(rows: Rows, user: Uuid, order: seq<Uuid>) {
    && (forall i, j | 0 <= i < j < |order| :: order[i] != order[j])
    && (forall sid :: sid in order <==> Usable(rows, sid, user))
    && (forall i, j | 0 <= i < j < |order| && order[i] in rows && order[j] in rows ::
          rows[order[j]].lastActivity <= rows[order[i]].lastActivity)
  }

  /** The order without the session to keep, if one is named. */
  function Without(order: seq<Uuid>, keep: Option<Uuid>): (r: seq<Uuid>)
    ensures forall sid :: sid in r <==> sid in order && keep != Some(sid)
    ensures |r| <= |order|
  {
    if order == [] then []
    else if keep == Some(order[0]) then Without(order[1..], keep)
    else [order[0]] + Without(order[1..], keep)
  }

  /** The table after closing the listed sessions. */
  function CloseAll(rows: Rows, now: int, order: seq<Uuid>, reason: string): Rows {
    map sid | sid in rows :: if sid in order then Closed(rows[sid], now, reason) else rows[sid]
  }

  function RevokeEachCmds(cfg: Config, now: int, rows: Rows, order: seq<Uuid>, reason: string): seq<SessionCommand>
    decreases |order|
  {
    if order == [] then []
    else
      RevokeCmds(cfg, now, rows, order[0], reason)
      + RevokeEachCmds(cfg, now, CloseAll(rows, now, order[..1], reason), order[1..], reason)
  }

  function RevokeAllPlan(cfg: Config, now: int, rows: Rows, order: seq<Uuid>, keep: Option<Uuid>, reason: string)
    : SessionPlan<nat>
  {
    Plan([Select] + RevokeEachCmds(cfg, now, rows, Without(order, keep), reason), Ok(|Without(order, keep)|))
  }

  function RevokeBySidPlan(cfg: Config, now: int, rows: Rows, sid: Uuid, reason: string): SessionPlan<bool> {
    if sid in rows && rows[sid].active
    then Plan([Select] + RevokeCmds(cfg, now, rows, sid, reason), Ok(true))
    else Plan([Select], Ok(false))
  }

  function RevokeByUuidPlan(cfg: Config, now: int, rows: Rows, user: Uuid, sid: Uuid, reason: string): SessionPlan<()> {
    if !Owned(rows, sid, user) then Plan([Select], Raised(NotFound))
    else if rows[sid].active then Plan([Select] + RevokeCmds(cfg, now, rows, sid, reason), Ok(()))
    else Plan([Select], Ok(()))
  }

  function RebindPlan(cfg: Config, now: int, rows: Rows, user: Uuid, sid: Uuid, jti: Uuid): SessionPlan<()> {
    if !Usable(rows, sid, user) then Plan([Select], Raised(AuthError))
    else
      Plan([Select, Write(rows[sid := rows[sid].(jti := jti, lastActivity := now)]), SetActive(cfg, sid)], Ok(()))
  }

  // ------------------------------------------------------------- requests

  /** Finishing a login: mint a pair and insert the session row. */
  function LoginPlan(cfg: Config, now: int, rows: Rows, user: Uuid, remember: bool, device: Device, mint: Mint)
    : SessionPlan<Pair>
  {
    Plan(CreatePlan(cfg, now, rows, user, mint.sid, mint.refresh, remember, device).cmds,
         Ok(IssuePair(cfg, now, user, remember, Some(mint.sid), mint)))
  }

  /** Authenticating an access token; the result is the session it is bound to. */
  function AuthPlan(cfg: Config, now: int, redis: Cache, rows: Rows, cookie: Option<Token>, account: Account)
    : SessionPlan<Option<Uuid>>
  {
    match Decode(cookie, Access, now)
    case Raised(e) => Plan([], Raised(e))
    case Ok(tok) =>
      if account != InGoodStanding then Plan([Select], Raised(AuthError))
      else if tok.sid.None? then Plan([Select], Ok(None))
      else
        var validated := ValidatePlan(cfg, now, redis, rows, tok.sid.value, tok.user);
        Plan([Select] + validated.cmds,
             Yielding(validated.result, tok.sid))
  }

  /** What the authenticated route goes on to do. */
  datatype Action =
    | Read
    | Fails(error: Error)
    | LogoutThis
    | LogoutAll(order: seq<Uuid>)
    | RevokeOne(target: Uuid)

  function HandlerPlan(cfg: Config, now: int, rows: Rows, user: Uuid, current: Option<Uuid>, action: Action)
    : SessionPlan<nat>
  {
    match action
    case Read => Plan([], Ok(0))
    case Fails(e) => Plan([], Raised(e))
    case LogoutThis =>
      if current.None? then Plan([], Raised(AuthError))
      else Plan(RevokeCmds(cfg, now, rows, current.value, "logout"), Ok(1))
    case LogoutAll(order) =>
      if current.None? then Plan([], Raised(AuthError))
      else RevokeAllPlan(cfg, now, rows, order, None, "logout_all")
    case RevokeOne(target) =>
      if current.None? then Plan([], Raised(AuthError))
      else
        var revoked := RevokeByUuidPlan(cfg, now, rows, user, target, "revoked_by_user");
        Plan(revoked.cmds, Yielding(revoked.result, 1))
  }

  function AccessPlan(cfg: Config, now: int, redis: Cache, rows: Rows, cookie: Option<Token>,
                      account: Account, action: Action): SessionPlan<nat>
  {
    var auth := AuthPlan(cfg, now, redis, rows, cookie, account);
    if auth.result.Raised? then Plan(auth.cmds, Raised(auth.result.error))
    else
      var seen := ApplyAll(State(redis, rows, rows), now, auth.cmds).working;
      var handled := HandlerPlan(cfg, now, seen, cookie.value.user, auth.result.value, action);
      Plan(auth.cmds + handled.cmds, handled.result)
  }

  /** A replayed refresh token kills the session it is bound to, and commits. */
  function ReplayCmds(cfg: Config, now: int, rows: Rows, tok: Token): seq<SessionCommand> {
    if tok.sid.None? then []
    else
      var killed := RevokeBySidPlan(cfg, now, rows, tok.sid.value, "refresh_replay");
      killed.cmds + if killed.result == Ok(true) then [Commit] else []
  }

  function RefreshPlan(cfg: Config, now: int, redis: Cache, rows: Rows, cookie: Option<Token>, mint: Mint)
    : SessionPlan<Pair>
  {
    var rotated := RotatePlan(cfg, redis, cookie, mint, now);
    match rotated.result
    case Raised(e) =>
      if e == TokenReplay && cookie.Some?
      then Plan(rotated.cmds + ReplayCmds(cfg, now, rows, cookie.value), Raised(AuthError))
      else Plan(rotated.cmds, Raised(e))
    case Ok(pair) =>
      if pair.refresh.sid.None? then rotated
      else
        var bound := RebindPlan(cfg, now, rows, pair.refresh.user, pair.refresh.sid.value, pair.refresh.jti);
        Plan(rotated.cmds + bound.cmds, Yielding(bound.result, pair))
  }

  function LogoutPlan(cfg: Config, now: int, redis: Cache, rows: Rows, cookie: Option<Token>): SessionPlan<()> {
    if cookie.None? then Plan([], Ok(()))
    else
      var verified := VerifyRefreshPlan(redis, cookie, now);
      if verified.result.Raised? then Plan(verified.cmds, Ok(()))
      else
        var tok := verified.result.value;
        var closing :=
          if tok.sid.None? then []
          else RevokeBySidPlan(cfg, now, rows, tok.sid.value, "logout").cmds;
        Plan(verified.cmds + RevokeTokenCmds(tok, now) + closing, Ok(()))
  }
}
