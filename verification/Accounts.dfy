/** Account identity: registration, e-mail tokens, e-mail change and linked
    OAuth accounts. Session rows written in the same requests are not in these
    tables. */
module Accounts {
  import opened Base
  import opened Stores

  datatype Purpose = VerifyEmail | ResetPassword | ChangeEmail

  datatype User = User(email: string, password: string, active: bool, verified: bool)

  datatype EmailToken = EmailToken(
    user: Uuid, purpose: Purpose, newEmail: Option<string>, expiresAt: int, usedAt: Option<int>)

  datatype ProviderAccount = ProviderAccount(provider: string, id: string)

  /** Token rows are keyed by the raw token, of which the database keeps an
      injective hash. */
  datatype Tables = Tables(
    users: map<Uuid, User>,
    tokens: map<Uuid, EmailToken>,
    links: map<ProviderAccount, Uuid>)

  type AccountCommand = Command<Tables>
  type AccountPlan = Plan<Tables, Option<Uuid>>

  /** What a provider says about the person who signed in there. */
  datatype UserInfo = UserInfo(accountId: string, email: Option<string>, emailVerified: bool)

  datatype Reply = Unavailable | Failed(error: Error) | Info(info: UserInfo)

  predicate HasEmail(users: map<Uuid, User>, id: Uuid, email: string) {
    id in users && Lower(users[id].email) == Lower(email)
  }

  predicate EmailExists(users: map<Uuid, User>, email: string) {
    exists id | id in users :: HasEmail(users, id, email)
  }

  ghost function ByEmail(users: map<Uuid, User>, email: string): (r: Option<Uuid>)
    ensures r.None? <==> !EmailExists(users, email)
    ensures r.Some? ==> HasEmail(users, r.value, email)
  {
    if EmailExists(users, email) then
      var id :| HasEmail(users, id, email);
      Some(id)
    else None
  }

  // ------------------------------------------------- e-mail tokens

  function Superseded(t: Tables, user: Uuid, purpose: Purpose): Tables {
    t.(tokens := map raw | raw in t.tokens && !(t.tokens[raw].user == user && t.tokens[raw].purpose == purpose)
                   :: t.tokens[raw])
  }

  function Added(t: Tables, raw: Uuid, token: EmailToken): Tables {
    t.(tokens := t.tokens[raw := token])
  }

  function IssueCmds(t: Tables, raw: Uuid, token: EmailToken): seq<AccountCommand> {
    [Write(Superseded(t, token.user, token.purpose)),
     Write(Added(Superseded(t, token.user, token.purpose), raw, token))]
  }

  function Issuing(t: Tables, raw: Uuid, token: EmailToken): Tables {
    Added(Superseded(t, token.user, token.purpose), raw, token)
  }

  predicate Consumable(t: Tables, raw: Uuid, purpose: Purpose, now: int) {
    raw in t.tokens && t.tokens[raw].purpose == purpose && t.tokens[raw].usedAt.None? && now < t.tokens[raw].expiresAt
  }

  function Used(t: Tables, raw: Uuid, now: int): Tables
    requires raw in t.tokens
  {
    t.(tokens := t.tokens[raw := t.tokens[raw].(usedAt := Some(now))])
  }

  function ConsumePlan(t: Tables, raw: Uuid, purpose: Purpose, now: int): Plan<Tables, EmailToken> {
    if !Consumable(t, raw, purpose, now) then Plan([Select], Raised(AuthError))
    else Plan([Select, Write(Used(t, raw, now))], Ok(t.tokens[raw].(usedAt := Some(now))))
  }

  function Changing(t: Tables, id: Uuid, user: User): Tables {
    t.(users := t.users[id := user])
  }

  /** What a token authorizes. */
  function Effect(user: User, token: EmailToken, purpose: Purpose, password: string): User {
    match purpose
    case VerifyEmail => user.(verified := true)
    case ResetPassword => user.(password := password)
    case ChangeEmail =>
      if token.newEmail.None? then user else user.(email := token.newEmail.value, verified := true)
  }

  /** Consuming a token and then doing what it authorizes. */
  function EffectPlan(t: Tables, raw: Uuid, purpose: Purpose, now: int, password: string): AccountPlan {
    var consumed := ConsumePlan(t, raw, purpose, now);
    match consumed.result
    case Raised(e) => Plan(consumed.cmds, Raised(e))
    case Ok(token) =>
      var t' := Used(t, raw, now);
      if token.user !in t.users then Plan(consumed.cmds + [Select], Raised(AuthError))
      else
        var effect := Write(Changing(t', token.user, Effect(t.users[token.user], token, purpose, password)));
        if purpose != ChangeEmail then Plan(consumed.cmds + [Select, effect], Ok(None))
        else if token.newEmail.None? then Plan(consumed.cmds + [Select], Raised(AuthError))
        else if EmailExists(t.users, token.newEmail.value) then Plan(consumed.cmds + [Select, Select], Raised(Conflict))
        else Plan(consumed.cmds + [Select, Select, effect], Ok(None))
  }

  function VerifyToken(cfg: Config, user: Uuid, now: int): EmailToken {
    EmailToken(user, VerifyEmail, None, now + cfg.verifyHours * 3600, None)
  }

  function ResetToken(cfg: Config, user: Uuid, now: int): EmailToken {
    EmailToken(user, ResetPassword, None, now + cfg.resetMinutes * 60, None)
  }

  function ChangeToken(cfg: Config, user: Uuid, email: string, now: int): EmailToken {
    EmailToken(user, ChangeEmail, Some(email), now + cfg.changeHours * 3600, None)
  }

  function RegisterPlan(cfg: Config, t: Tables, now: int, id: Uuid, email: string, password: string, strong: bool,
                        raw: Uuid)
    : AccountPlan
  {
    if !strong then Plan([], Raised(Invalid))
    else if EmailExists(t.users, email) then Plan([Select], Raised(Conflict))
    else
      var t' := Changing(t, id, User(Lower(email), password, true, false));
      Plan([Select, Write(t')] + IssueCmds(t', raw, VerifyToken(cfg, id, now)), Ok(None))
  }

  /** `id` is the authenticated caller. */
  function ResendPlan(cfg: Config, t: Tables, now: int, id: Uuid, raw: Uuid): AccountPlan {
    if id !in t.users then Plan([Select], Raised(AuthError))
    else if t.users[id].verified then Plan([Select], Raised(Conflict))
    else Plan([Select] + IssueCmds(t, raw, VerifyToken(cfg, id, now)), Ok(None))
  }

  ghost function ForgotPlan(cfg: Config, t: Tables, now: int, email: string, raw: Uuid): AccountPlan {
    var found := ByEmail(t.users, email);
    if found.None? || !t.users[found.value].active then Plan([Select], Ok(None))
    else Plan([Select] + IssueCmds(t, raw, ResetToken(cfg, found.value, now)), Ok(None))
  }

  function ChangePlan(cfg: Config, t: Tables, now: int, id: Uuid, email: string, password: string,
                      raw: Uuid): AccountPlan
  {
    if id !in t.users || t.users[id].password != password then Plan([Select], Raised(AuthError))
    else if Lower(email) == t.users[id].email then Plan([Select], Raised(Invalid))
    else if EmailExists(t.users, Lower(email)) then Plan([Select, Select], Raised(Conflict))
    else Plan([Select, Select] + IssueCmds(t, raw, ChangeToken(cfg, id, Lower(email), now)), Ok(None))
  }

  // ------------------------------------------------- OAuth

  function StartPlan(cfg: Config, provider: string, available: bool, link: Option<Uuid>, state: Uuid): AccountPlan {
    if !available then Plan([], Raised(NotFound))
    else Plan([Set(OAuthState(state), Authorization(provider, link), cfg.oauthStateSeconds)], Ok(None))
  }

  function Linked(t: Tables, account: ProviderAccount, id: Uuid): Tables {
    t.(links := t.links[account := id])
  }

  /** A user for a provider account that is not linked yet: the one asking to
      link, the one with the same verified address, or a new one. */
  ghost function ResolvePlan(t: Tables, info: UserInfo, link: Option<Uuid>, newId: Uuid, secret: string)
    : Plan<Tables, Uuid>
  {
    if link.Some? then
      if link.value in t.users then Plan([Select], Ok(link.value)) else Plan([Select], Raised(AuthError))
    else if info.email.None? || info.email.value == "" then Plan([], Raised(AuthError))
    else
      var found := ByEmail(t.users, info.email.value);
      if found.Some? then
        if info.emailVerified && t.users[found.value].verified then Plan([Select], Ok(found.value))
        else Plan([Select], Raised(Conflict))
      else
        Plan([Select, Write(Changing(t, newId, User(Lower(info.email.value), secret, true, info.emailVerified)))],
             Ok(newId))
  }

  /** The table after `ResolvePlan`. */
  ghost function Resolved(t: Tables, info: UserInfo, link: Option<Uuid>, newId: Uuid, secret: string): Tables {
    var cmds := ResolvePlan(t, info, link, newId, secret).cmds;
    if |cmds| == 2 && cmds[1].Write? then cmds[1].tables else t
  }

  ghost function SignInPlan(t: Tables, provider: string, info: UserInfo, link: Option<Uuid>, newId: Uuid,
                            secret: string): AccountPlan
  {
    var account := ProviderAccount(provider, info.accountId);
    if account in t.links then
      if link.Some? && t.links[account] != link.value then Plan([Select], Raised(Conflict))
      else if t.links[account] !in t.users then Plan([Select, Select], Raised(AuthError))
      else Plan([Select, Select], Ok(Some(t.links[account])))
    else
      var resolved := ResolvePlan(t, info, link, newId, secret);
      match resolved.result
      case Raised(e) => Plan([Select] + resolved.cmds, Raised(e))
      case Ok(id) =>
        Plan([Select] + resolved.cmds + [Write(Linked(Resolved(t, info, link, newId, secret), account, id))],
             Ok(Some(id)))
  }

  /** The state value is deleted before anything else is looked at. */
  function PopCmds(redis: Cache, now: int, state: Uuid): seq<AccountCommand> {
    if Live(redis, OAuthState(state), now) then [Exists(OAuthState(state)), Delete(OAuthState(state))]
    else [Exists(OAuthState(state))]
  }

  function Popped(redis: Cache, now: int, provider: string, state: Uuid): Attempt<Option<Uuid>> {
    if !Live(redis, OAuthState(state), now) then Raised(AuthError)
    else
      match redis[OAuthState(state)].value
      case Authorization(p, link) => if p != provider then Raised(AuthError) else Ok(link)
      case _ => Raised(AuthError)
  }

  ghost function CallbackPlan(redis: Cache, t: Tables, now: int, provider: string, state: Uuid, reply: Reply,
                              newId: Uuid, secret: string): AccountPlan
  {
    var popped := Popped(redis, now, provider, state);
    if popped.Raised? then Plan(PopCmds(redis, now, state), Raised(popped.error))
    else
      match reply
      case Unavailable => Plan(PopCmds(redis, now, state), Raised(NotFound))
      case Failed(e) => Plan(PopCmds(redis, now, state), Raised(e))
      case Info(info) =>
        var signed := SignInPlan(t, provider, info, popped.value, newId, secret);
        Plan(PopCmds(redis, now, state) + signed.cmds, signed.result)
  }

  // ------------------------------------------------- requests

  datatype Request =
    | Register(id: Uuid, email: string, password: string, strong: bool, raw: Uuid)
    | Resend(id: Uuid, raw: Uuid)
    | Forgot(email: string, raw: Uuid)
    | RequestChange(id: Uuid, email: string, password: string, raw: Uuid)
    | Present(raw: Uuid, purpose: Purpose, password: string, strong: bool)
    | StartOAuth(provider: string, available: bool, link: Option<Uuid>, state: Uuid)
    | Callback(provider: string, state: Uuid, reply: Reply, newId: Uuid, secret: string)

  ghost function RequestPlan(cfg: Config, redis: Cache, t: Tables, now: int, q: Request): AccountPlan {
    match q
    case Register(id, email, password, strong, raw) => RegisterPlan(cfg, t, now, id, email, password, strong, raw)
    case Resend(id, raw) => ResendPlan(cfg, t, now, id, raw)
    case Forgot(email, raw) => ForgotPlan(cfg, t, now, email, raw)
    case RequestChange(id, email, password, raw) => ChangePlan(cfg, t, now, id, email, password, raw)
    case Present(raw, purpose, password, strong) =>
      if purpose == ResetPassword && !strong then Plan([], Raised(Invalid))
      else EffectPlan(t, raw, purpose, now, password)
    case StartOAuth(provider, available, link, state) => StartPlan(cfg, provider, available, link, state)
    case Callback(provider, state, reply, newId, secret) =>
      CallbackPlan(redis, t, now, provider, state, reply, newId, secret)
  }

  ghost function Issued(cfg: Config, w: World, q: Request): AccountPlan {
    Committing(RequestPlan(cfg, w.redis, w.tables, w.now, q))
  }

  /** `mailed` says to which address a raw token went; `proven` who has shown
      control of which address, by presenting a token mailed there or by the
      word of a provider. Neither is stored anywhere. */
  datatype World = World(
    now: int,
    redis: Cache,
    tables: Tables,
    minted: set<Uuid>,
    mailed: map<Uuid, string>,
    proven: set<(Uuid, string)>)

  datatype Step = Wait(seconds: nat) | Serve(request: Request, budget: nat)

  function Minted(q: Request): set<Uuid> {
    match q
    case Register(id, _, _, _, raw) => {id, raw}
    case Resend(_, raw) => {raw}
    case Forgot(_, raw) => {raw}
    case RequestChange(_, _, _, raw) => {raw}
    case Present(_, _, _, _) => {}
    case StartOAuth(_, _, _, state) => {state}
    case Callback(_, _, _, newId, _) => {newId}
  }

  ghost predicate Done(cfg: Config, w: World, step: Step) {
    step.Serve? && Issued(cfg, w, step.request).Ending(step.budget).Ok?
  }

  /** Mail is sent in the background of a request that succeeded. */
  ghost function Mailed(w: World, q: Request): map<Uuid, string> {
    match q
    case Register(_, email, _, _, raw) => map[raw := Lower(email)]
    case Resend(id, raw) => if id in w.tables.users then map[raw := w.tables.users[id].email] else map[]
    case Forgot(email, raw) =>
      var found := ByEmail(w.tables.users, email);
      if found.Some? && w.tables.users[found.value].active then map[raw := w.tables.users[found.value].email] else map[]
    case RequestChange(_, email, _, raw) => map[raw := Lower(email)]
    case _ => map[]
  }

  /** What a request that succeeded shows. */
  ghost function Proven(w: World, q: Request, result: Attempt<Option<Uuid>>): set<(Uuid, string)> {
    match q
    case Present(raw, _, _, _) =>
      if raw in w.tables.tokens && raw in w.mailed then {(w.tables.tokens[raw].user, w.mailed[raw])} else {}
    case Callback(_, _, reply, _, _) =>
      if reply.Info? && reply.info.emailVerified && reply.info.email.Some? && result.Ok? && result.value.Some?
      then {(result.value.value, Lower(reply.info.email.value))} else {}
    case _ => {}
  }

  ghost function Next(cfg: Config, w: World, step: Step): World {
    match step
    case Wait(seconds) => w.(now := w.now + seconds)
    case Serve(q, budget) =>
      var p := Issued(cfg, w, q);
      var s := Reach(State(w.redis, w.tables, w.tables), budget, w.now, p.cmds);
      World(w.now, s.redis, s.committed, w.minted + Minted(q),
            if p.Ending(budget).Ok? then w.mailed + Mailed(w, q) else w.mailed,
            if p.Ending(budget).Ok? then w.proven + Proven(w, q, p.result) else w.proven)
  }

  ghost function Run(cfg: Config, w: World, steps: seq<Step>): World
    decreases |steps|
  {
    if steps == [] then w else Run(cfg, Next(cfg, w, steps[0]), steps[1..])
  }

  /** Random identifiers are fresh. */
  ghost predicate Possible(w: World, step: Step) {
    step.Serve? ==>
      && Minted(step.request) !! w.minted
      && (step.request.Register? ==> step.request.id != step.request.raw)
  }

  ghost predicate ValidRun(cfg: Config, w: World, steps: seq<Step>)
    decreases |steps|
  {
    steps == [] || (Possible(w, steps[0]) && ValidRun(cfg, Next(cfg, w, steps[0]), steps[1..]))
  }

  predicate Initial(w: World) {
    && w.redis == map[] && w.tables == Tables(map[], map[], map[])
    && w.minted == {} && w.mailed == map[] && w.proven == {}
  }

  /** The tables a request that succeeds commits. */
  ghost function Final(cfg: Config, redis: Cache, t: Tables, now: int, q: Request): Tables {
    match q
    case Register(id, email, password, _, raw) =>
      Issuing(Changing(t, id, User(Lower(email), password, true, false)), raw, VerifyToken(cfg, id, now))
    case Resend(id, raw) => Issuing(t, raw, VerifyToken(cfg, id, now))
    case Forgot(email, raw) =>
      var found := ByEmail(t.users, email);
      if found.Some? && t.users[found.value].active then Issuing(t, raw, ResetToken(cfg, found.value, now)) else t
    case RequestChange(id, email, _, raw) => Issuing(t, raw, ChangeToken(cfg, id, Lower(email), now))
    case Present(raw, purpose, password, _) =>
      if raw !in t.tokens || t.tokens[raw].user !in t.users then t
      else
        var token := t.tokens[raw];
        Changing(Used(t, raw, now), token.user, Effect(t.users[token.user], token, purpose, password))
    case StartOAuth(_, _, _, _) => t
    case Callback(provider, state, reply, newId, secret) =>
      var popped := Popped(redis, now, provider, state);
      if popped.Raised? || !reply.Info? then t
      else
        var account := ProviderAccount(provider, reply.info.accountId);
        var resolved := ResolvePlan(t, reply.info, popped.value, newId, secret);
        if account in t.links || resolved.result.Raised? then t
        else Linked(Resolved(t, reply.info, popped.value, newId, secret), account, resolved.result.value)
  }

  lemma PlanCommits(cfg: Config, redis: Cache, t: Tables, now: int, q: Request)
    ensures forall c | c in RequestPlan(cfg, redis, t, now, q).cmds :: !c.Commit?
  {
    hide EffectPlan, SignInPlan;
    match q
    case Present(raw, purpose, password, _) =>
      EffectCommits(t, raw, purpose, now, password);
    case Callback(provider, state, reply, newId, secret) =>
      var popped := Popped(redis, now, provider, state);
      if popped.Ok? && reply.Info? {
        SignInCommits(t, provider, reply.info, popped.value, newId, secret);
      }
    case _ =>
  }

  lemma EffectCommits(t: Tables, raw: Uuid, purpose: Purpose, now: int, password: string)
    ensures forall c | c in EffectPlan(t, raw, purpose, now, password).cmds :: c.Select? || c.Write?
  {
  }

  lemma SignInCommits(t: Tables, provider: string, info: UserInfo, link: Option<Uuid>, newId: Uuid, secret: string)
    ensures forall c | c in SignInPlan(t, provider, info, link, newId, secret).cmds :: c.Select? || c.Write?
  {
  }

  lemma PlanFinal(cfg: Config, redis: Cache, t: Tables, now: int, q: Request)
    requires RequestPlan(cfg, redis, t, now, q).result.Ok?
    ensures ApplyAll(State(redis, t, t), now, RequestPlan(cfg, redis, t, now, q).cmds).working
            == Final(cfg, redis, t, now, q)
  {
    var s := State(redis, t, t);
    var cmds := RequestPlan(cfg, redis, t, now, q).cmds;
    var n := |cmds| - 1;
    PlanEnds(cfg, redis, t, now, q);
    hide RequestPlan, Final;
    if cmds[n].Write? {
      assert cmds == cmds[..n] + [cmds[n]];
      LastWrite(s, now, cmds[..n], cmds[n]);
    } else {
      WritesNothing(s, now, cmds);
    }
  }

  /** What a successful plan writes last; it may write nothing. */
  ghost predicate WritesLast(cmds: seq<AccountCommand>, t: Tables, final: Tables) {
    && cmds != []
    && (var last := cmds[|cmds| - 1];
        if last.Write? then last.tables == final else final == t && forall c | c in cmds :: !c.Write?)
  }

  lemma PlanEnds(cfg: Config, redis: Cache, t: Tables, now: int, q: Request)
    requires RequestPlan(cfg, redis, t, now, q).result.Ok?
    ensures WritesLast(RequestPlan(cfg, redis, t, now, q).cmds, t, Final(cfg, redis, t, now, q))
  {
    if q.Present? {
      PresentEnds(cfg, redis, t, now, q);
    } else if q.Callback? {
      CallbackEnds(cfg, redis, t, now, q);
    } else {
      MailingEnds(cfg, redis, t, now, q);
    }
  }

  lemma PresentEnds(cfg: Config, redis: Cache, t: Tables, now: int, q: Request)
    requires q.Present? && RequestPlan(cfg, redis, t, now, q).result.Ok?
    ensures WritesLast(RequestPlan(cfg, redis, t, now, q).cmds, t, Final(cfg, redis, t, now, q))
  {
  }

  lemma CallbackEnds(cfg: Config, redis: Cache, t: Tables, now: int, q: Request)
    requires q.Callback? && RequestPlan(cfg, redis, t, now, q).result.Ok?
    ensures WritesLast(RequestPlan(cfg, redis, t, now, q).cmds, t, Final(cfg, redis, t, now, q))
  {
    hide ResolvePlan, Resolved;
    var popped := Popped(redis, now, q.provider, q.state);
    var account := ProviderAccount(q.provider, q.reply.info.accountId);
    if account !in t.links {
      var cmds := RequestPlan(cfg, redis, t, now, q).cmds;
      assert cmds[|cmds| - 1].Write?;
    }
  }

  lemma MailingEnds(cfg: Config, redis: Cache, t: Tables, now: int, q: Request)
    requires !q.Present? && !q.Callback? && RequestPlan(cfg, redis, t, now, q).result.Ok?
    ensures WritesLast(RequestPlan(cfg, redis, t, now, q).cmds, t, Final(cfg, redis, t, now, q))
  {
  }

  /** A request changes the tables exactly when it succeeds, and then in full:
      a token is used up together with its effect or not at all. */
  lemma RequestTables(cfg: Config, w: World, step: Step)
    ensures Next(cfg, w, step).tables
         == if Done(cfg, w, step) then Final(cfg, w.redis, w.tables, w.now, step.request) else w.tables
  {
    if step.Serve? {
      var p := RequestPlan(cfg, w.redis, w.tables, w.now, step.request);
      PlanCommits(cfg, w.redis, w.tables, w.now, step.request);
      AllOrNothing(State(w.redis, w.tables, w.tables), step.budget, w.now, p);
      if p.result.Ok? {
        PlanFinal(cfg, w.redis, w.tables, w.now, step.request);
      }
    }
  }
}
