/** Runs of the session protocol: a clock, the two stores, the tokens clients
    hold, and one step per request. Every request may be cut after any number
    of its commands; the unit of work then rolls back and nothing is delivered. */
module Protocol {
  import opened Base
  import opened Stores
  import opened SessionPlans

  datatype World = World(
    now: int,
    redis: Cache,
    rows: Rows,
    delivered: set<Token>,  // every token a client was ever sent
    minted: set<Uuid>)      // every identifier ever drawn

  datatype Request =
    | Login(user: Uuid, remember: bool, device: Device, mint: Mint)
    | Call(cookie: Option<Token>, account: Account, action: Action)
    | Rotate(cookie: Option<Token>, mint: Mint)
    | Logout(cookie: Option<Token>)

  datatype Step = Tick(seconds: nat) | Serve(request: Request, budget: nat)

  function InResponse(a: Attempt<Pair>): Attempt<Option<Pair>> {
    match a
    case Ok(pair) => Ok(Some(pair))
    case Raised(e) => Raised(e)
  }

  function RequestPlan(cfg: Config, w: World, q: Request): SessionPlan<Option<Pair>> {
    match q
    case Login(user, remember, device, mint) =>
      var p := LoginPlan(cfg, w.now, w.rows, user, remember, device, mint);
      Plan(p.cmds, InResponse(p.result))
    case Call(cookie, account, action) =>
      var p := AccessPlan(cfg, w.now, w.redis, w.rows, cookie, account, action);
      Plan(p.cmds, Yielding(p.result, None))
    case Rotate(cookie, mint) =>
      var p := RefreshPlan(cfg, w.now, w.redis, w.rows, cookie, mint);
      Plan(p.cmds, InResponse(p.result))
    case Logout(cookie) =>
      var p := LogoutPlan(cfg, w.now, w.redis, w.rows, cookie);
      Plan(p.cmds, Yielding(p.result, None))
  }

  /** What the request issues, the final commit included. */
  function Issued(cfg: Config, w: World, q: Request): SessionPlan<Option<Pair>> {
    Committing(RequestPlan(cfg, w, q))
  }

  function Minted(q: Request): set<Uuid> {
    match q
    case Login(_, _, _, mint) => {mint.sid, mint.access, mint.refresh}
    case Rotate(_, mint) => {mint.sid, mint.access, mint.refresh}
    case Call(_, _, _) => {}
    case Logout(_) => {}
  }

  /** The tokens in the response: none unless the request succeeded. */
  function Response(ending: Attempt<Option<Pair>>): set<Token> {
    if ending.Ok? && ending.value.Some?
    then {ending.value.value.access, ending.value.value.refresh}
    else {}
  }

  /** The stores after the request, before the transaction is closed. */
  function Left(cfg: Config, w: World, q: Request, budget: nat): SessionState {
    ApplyAll(State(w.redis, w.rows, w.rows), w.now, Cut(Issued(cfg, w, q).cmds, budget))
  }

  function Next(cfg: Config, w: World, step: Step): World {
    match step
    case Tick(seconds) => w.(now := w.now + seconds)
    case Serve(q, budget) =>
      var s := Left(cfg, w, q, budget);
      World(w.now, s.redis, s.committed,
            w.delivered + Response(Issued(cfg, w, q).Ending(budget)),
            w.minted + Minted(q))
  }

  function Run(cfg: Config, w: World, steps: seq<Step>): World
    decreases |steps|
  {
    if steps == [] then w else Run(cfg, Next(cfg, w, steps[0]), steps[1..])
  }

  predicate Fresh(w: World, mint: Mint) {
    && mint.sid !in w.minted && mint.access !in w.minted && mint.refresh !in w.minted
    && mint.sid != mint.access && mint.access != mint.refresh && mint.sid != mint.refresh
  }

  /** Signed tokens cannot be forged: a client presents one it was sent. */
  predicate Held(w: World, cookie: Option<Token>) {
    cookie.Some? ==> cookie.value in w.delivered
  }

  /** The session table as the handler of an authenticated route sees it. */
  function Seen(cfg: Config, w: World, cookie: Option<Token>, account: Account): Rows {
    ApplyAll(State(w.redis, w.rows, w.rows), w.now,
             AuthPlan(cfg, w.now, w.redis, w.rows, cookie, account).cmds).working
  }

  /** The request presents tokens the client was sent and draws fresh identifiers. */
  predicate Asked(w: World, q: Request) {
    match q
    case Login(_, _, _, mint) => Fresh(w, mint)
    case Rotate(cookie, mint) => Held(w, cookie) && Fresh(w, mint)
    case Logout(cookie) => Held(w, cookie)
    case Call(cookie, _, _) => Held(w, cookie)
  }

  /** A request that can come, logout-all with a listing its query could return. */
  ghost predicate Possible(cfg: Config, w: World, q: Request) {
    && Asked(w, q)
    && (q.Call? && q.action.LogoutAll? && q.cookie.Some? ==>
          Listing(Seen(cfg, w, q.cookie, q.account), q.cookie.value.user, q.action.order))
  }

  ghost predicate Enabled(cfg: Config, w: World, step: Step) {
    step.Serve? ==> Possible(cfg, w, step.request)
  }

  ghost predicate ValidRun(cfg: Config, w: World, steps: seq<Step>)
    decreases |steps|
  {
    steps == [] || (Enabled(cfg, w, steps[0]) && ValidRun(cfg, Next(cfg, w, steps[0]), steps[1..]))
  }

  /** Before the first request. */
  predicate Initial(w: World) {
    w.redis == map[] && w.rows == map[] && w.delivered == {} && w.minted == {}
  }

  /** The request ran to its end without a command failing. */
  predicate FaultFree(cfg: Config, w: World, step: Step) {
    step.Serve? ==> |Issued(cfg, w, step.request).cmds| <= step.budget
  }

  ghost predicate FaultFreeRun(cfg: Config, w: World, steps: seq<Step>)
    decreases |steps|
  {
    steps == [] || (FaultFree(cfg, w, steps[0]) && FaultFreeRun(cfg, Next(cfg, w, steps[0]), steps[1..]))
  }

  // ------------------------------------------------- who is let in

  /** The access token passes authentication. */
  predicate AdmitsAccess(cfg: Config, w: World, tok: Token, account: Account) {
    AuthPlan(cfg, w.now, w.redis, w.rows, Some(tok), account).result.Ok?
  }

  /** The refresh token is exchanged for a new pair. */
  predicate AdmitsRefresh(cfg: Config, w: World, tok: Token, mint: Mint) {
    RefreshPlan(cfg, w.now, w.redis, w.rows, Some(tok), mint).result.Ok?
  }

  /** No token of the session is let in, in whatever role it is presented. */
  ghost predicate ShutOut(cfg: Config, w: World, sid: Uuid) {
    forall tok | tok in w.delivered && tok.sid == Some(sid) ::
      && (forall account :: !AdmitsAccess(cfg, w, tok, account))
      && (forall mint :: !AdmitsRefresh(cfg, w, tok, mint))
  }

  lemma {:induction false} RunConcat(cfg: Config, w: World, a: seq<Step>, b: seq<Step>)
    ensures Run(cfg, w, a + b) == Run(cfg, Run(cfg, w, a), b)
    ensures ValidRun(cfg, w, a + b) <==> ValidRun(cfg, w, a) && ValidRun(cfg, Run(cfg, w, a), b)
    decreases |a|
  {
    if a == [] {
      assert a + b == b;
    } else {
      assert (a + b)[1..] == a[1..] + b;
      RunConcat(cfg, Next(cfg, w, a[0]), a[1..], b);
    }
  }
}
