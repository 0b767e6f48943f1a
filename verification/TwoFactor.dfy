/** One-time factors: TOTP codes with replay protection and single-use recovery
    codes, both behind one lockout per user. */
module TwoFactor {
  import opened Base
  import opened Stores
  import opened RateLimit
  import opened RateLimitRuns

  const OTP_STEP: int := 30

  /** The one-time password of a secret at a time step (RFC 6238). */
  type Generator = (Uuid, int) -> string

  datatype Factor = Factor(secret: Uuid, enabled: bool, verifiedAt: Option<int>)

  /** A recovery code row. The hash is taken to be injective, so the row stands
      for the code itself. */
  datatype CodeRow = CodeRow(id: Uuid, user: Uuid, text: string, usedAt: Option<int>)

  /** A session row as far as this protocol goes, with the recovery code that
      opened it, which the database does not record. */
  datatype Opening = Opening(sid: Uuid, user: Uuid, via: Option<Uuid>)

  /** `batches` is not in the database either: how many sets of recovery codes
      were inserted since the last time they were all deleted. */
  datatype Tables = Tables(
    factors: map<Uuid, Factor>,
    codes: seq<CodeRow>,
    sessions: seq<Opening>,
    batches: map<Uuid, nat>)

  type FactorCommand = Command<Tables>
  type FactorPlan = Plan<Tables, ()>

  function Digits(n: nat): string {
    if n < 10 then [('0' as int + n) as char] else Digits(n / 10) + Digits(n % 10)
  }

  /** TOTP and recovery codes of one user fail under one identifier. */
  function LockId(user: Uuid): string {
    "2fa:" + Digits(user.n)
  }

  function LockScope(user: Uuid): string {
    Scoped(LockId(user), None)
  }

  predicate InSpan(cfg: Config, step: int, now: int) {
    now / OTP_STEP - cfg.totpWindow <= step <= now / OTP_STEP + cfg.totpWindow
  }

  predicate Accepts(cfg: Config, g: Generator, secret: Uuid, otp: string, now: int) {
    exists step | now / OTP_STEP - cfg.totpWindow <= step <= now / OTP_STEP + cfg.totpWindow :: g(secret, step) == otp
  }

  function ReplaySeconds(cfg: Config): int {
    OTP_STEP * (2 * cfg.totpWindow + 1)
  }

  predicate TwoFactorOn(t: Tables, user: Uuid) {
    user in t.factors && t.factors[user].enabled
  }

  /** A credential check behind the lock: what it reads and writes before the
      verdict, the verdict, and the error if it is not in favour. */
  datatype Guard = Guard(between: seq<FactorCommand>, verdict: Verdict, refusal: Error)

  function TotpGuard(cfg: Config, g: Generator, redis: Cache, t: Tables, now: int, user: Uuid, otp: string): Guard {
    var key := OtpUsed(user, otp);
    if !TwoFactorOn(t, user) then Guard([Select], Refused, Conflict)
    else if Live(redis, key, now) || !Accepts(cfg, g, t.factors[user].secret, otp, now)
    then Guard([Select, Exists(key)], Wrong, AuthError)
    else Guard([Select, Exists(key), Set(key, Mark, ReplaySeconds(cfg))], Right, AuthError)
  }

  // ------------------------------------------------- recovery codes

  function UpperChar(c: char): char {
    if 'a' <= c <= 'z' then (c as int - 32) as char else c
  }

  predicate Blank(c: char) {
    c == ' ' || c == '\t' || c == '\n' || c == '\r'
  }

  function Strip(s: string): string
    decreases |s|
  {
    if s == "" then s
    else if Blank(s[0]) then Strip(s[1..])
    else if Blank(s[|s| - 1]) then Strip(s[..|s| - 1])
    else s
  }

  function Normalize(s: string): string {
    var stripped := Strip(s);
    seq(|stripped|, i requires 0 <= i < |stripped| => UpperChar(stripped[i]))
  }

  predicate Open(row: CodeRow, user: Uuid) {
    row.user == user && row.usedAt.None?
  }

  /** The first unused code of the user, from `i` on, that matches. */
  function Match(codes: seq<CodeRow>, user: Uuid, text: string, i: nat): (r: Option<nat>)
    ensures r.Some? ==> i <= r.value < |codes| && Open(codes[r.value], user) && codes[r.value].text == text
    ensures r.None? ==> forall k | i <= k < |codes| :: !(Open(codes[k], user) && codes[k].text == text)
    decreases |codes| - i
  {
    if |codes| <= i then None
    else if Open(codes[i], user) && codes[i].text == text then Some(i)
    else Match(codes, user, text, i + 1)
  }

  function Spend(t: Tables, i: nat, now: int): Tables
    requires i < |t.codes|
  {
    t.(codes := t.codes[i := t.codes[i].(usedAt := Some(now))])
  }

  function RecoveryGuard(t: Tables, now: int, user: Uuid, code: string): Guard {
    match Match(t.codes, user, Normalize(code), 0)
    case None => Guard([Select], Wrong, AuthError)
    case Some(i) => Guard([Select, Write(Spend(t, i, now))], Right, AuthError)
  }

  function Remaining(codes: seq<CodeRow>, user: Uuid): nat {
    if codes == [] then 0 else (if Open(codes[0], user) then 1 else 0) + Remaining(codes[1..], user)
  }

  function Others(codes: seq<CodeRow>, user: Uuid): (r: seq<CodeRow>)
    ensures forall row :: row in r <==> row in codes && row.user != user
  {
    if codes == [] then []
    else if codes[0].user == user then Others(codes[1..], user)
    else [codes[0]] + Others(codes[1..], user)
  }

  /** A code drawn for insertion. */
  datatype Drawn = Drawn(id: Uuid, text: string)

  function Batch(user: Uuid, drawn: seq<Drawn>): seq<CodeRow> {
    seq(|drawn|, i requires 0 <= i < |drawn| => CodeRow(drawn[i].id, user, drawn[i].text, None))
  }

  function Batches(t: Tables, user: Uuid): nat {
    if user in t.batches then t.batches[user] else 0
  }

  function WithoutCodes(t: Tables, user: Uuid): Tables {
    t.(codes := Others(t.codes, user), batches := t.batches[user := 0])
  }

  function WithBatch(t: Tables, user: Uuid, drawn: seq<Drawn>): Tables {
    t.(codes := t.codes + Batch(user, drawn), batches := t.batches[user := Batches(t, user) + 1])
  }

  /** The result is what the handler returns, before the commit. */
  function GeneratePlan(t: Tables, user: Uuid, replace: bool, drawn: seq<Drawn>): FactorPlan {
    if Remaining(t.codes, user) != 0 && !replace then Plan([Select], Raised(Conflict))
    else if replace then Plan([Select, Write(WithoutCodes(t, user)),
                               Write(WithBatch(WithoutCodes(t, user), user, drawn))], Ok(()))
    else Plan([Select, Write(WithBatch(t, user, drawn))], Ok(()))
  }

  function WithoutFactor(t: Tables, user: Uuid): Tables {
    t.(factors := t.factors - {user})
  }

  function RemovePlan(t: Tables, user: Uuid): FactorPlan {
    if user in t.factors
    then Plan([Select, Write(WithoutFactor(t, user)), Write(WithoutCodes(WithoutFactor(t, user), user))], Ok(()))
    else Plan([Select, Write(WithoutCodes(t, user))], Ok(()))
  }

  function Opened(t: Tables, sid: Uuid, user: Uuid, via: Option<Uuid>): Tables {
    t.(sessions := t.sessions + [Opening(sid, user, via)])
  }

  function SetupPlan(t: Tables, now: int, user: Uuid, passwordOk: bool, secret: Uuid): FactorPlan {
    if !passwordOk then Plan([], Raised(AuthError))
    else if TwoFactorOn(t, user) then Plan([Select], Raised(Conflict))
    else Plan([Select, Write(t.(factors := t.factors[user := Factor(secret, false, None)]))], Ok(()))
  }

  function ConfirmPlan(cfg: Config, g: Generator, t: Tables, now: int, user: Uuid, otp: string): FactorPlan {
    if user !in t.factors then Plan([Select], Raised(NotFound))
    else if t.factors[user].enabled then Plan([Select], Raised(Conflict))
    else if !Accepts(cfg, g, t.factors[user].secret, otp, now) then Plan([Select], Raised(AuthError))
    else
      Plan([Select,
            Write(t.(factors := t.factors[user := t.factors[user].(enabled := true, verifiedAt := Some(now))]))],
           Ok(()))
  }

  // ------------------------------------------------- requests

  datatype Request =
    | Setup(user: Uuid, passwordOk: bool, secret: Uuid)
    | Confirm(user: Uuid, otp: string)
    | TotpLogin(user: Uuid, otp: string, sid: Uuid)
    | RecoveryLogin(user: Uuid, code: string, sid: Uuid)
    | Generate(user: Uuid, passwordOk: bool, otp: string, replace: bool, drawn: seq<Drawn>)
    | Disable(user: Uuid, passwordOk: bool, otp: string)

  /** The request reaches a check behind the lock. */
  predicate Guarded(q: Request) {
    match q
    case Setup(_, _, _) => false
    case Confirm(_, _) => false
    case TotpLogin(_, _, _) => true
    case RecoveryLogin(_, _, _) => true
    case Generate(_, passwordOk, _, _, _) => passwordOk
    case Disable(_, passwordOk, _) => passwordOk
  }

  function GuardOf(cfg: Config, g: Generator, redis: Cache, t: Tables, now: int, q: Request): Guard
    requires Guarded(q)
  {
    if q.RecoveryLogin? then RecoveryGuard(t, now, q.user, q.code)
    else TotpGuard(cfg, g, redis, t, now, q.user, q.otp)
  }

  /** What a guarded request does once its check is passed. */
  function Body(t: Tables, now: int, q: Request): FactorPlan {
    match q
    case TotpLogin(user, _, sid) => Plan([Write(Opened(t, sid, user, None))], Ok(()))
    case RecoveryLogin(user, code, sid) =>
      (match Match(t.codes, user, Normalize(code), 0)
       case None => Plan([], Raised(AuthError))
       case Some(i) => Plan([Write(Opened(Spend(t, i, now), sid, user, Some(t.codes[i].id)))], Ok(())))
    case Generate(user, _, _, replace, drawn) => GeneratePlan(t, user, replace, drawn)
    case Disable(user, _, _) => RemovePlan(t, user)
    case _ => Plan([], Raised(AuthError))
  }

  function RequestPlan(cfg: Config, g: Generator, redis: Cache, t: Tables, now: int, q: Request): FactorPlan {
    if Guarded(q) then
      var guard := GuardOf(cfg, g, redis, t, now, q);
      var scope := LockScope(q.user);
      var check := CheckCmds(cfg, redis, now, scope, guard.between, guard.verdict);
      if Live(redis, Lockout(scope), now) then Plan(check, Raised(AccountLocked))
      else if guard.verdict != Right then Plan(check, Raised(guard.refusal))
      else
        var body := Body(t, now, q);
        Plan(check + body.cmds, body.result)
    else
      match q
      case Setup(user, passwordOk, secret) => SetupPlan(t, now, user, passwordOk, secret)
      case Confirm(user, otp) => ConfirmPlan(cfg, g, t, now, user, otp)
      case _ => Plan([], Raised(AuthError))
  }

  /** How a check behind the lock ends: a lock that cannot be read denies, what
      the limiter cannot record is ignored. */
  function CheckEnding(redis: Cache, now: int, scope: string, guard: Guard, budget: nat): Attempt<()> {
    if budget == 0 then Raised(ServiceUnavailable)
    else if Live(redis, Lockout(scope), now) then Raised(AccountLocked)
    else if budget <= |guard.between| then Raised(StoreDown)
    else if guard.verdict == Right then Ok(())
    else Raised(guard.refusal)
  }

  /** How the check of a guarded request ends; an error is the response. */
  function CheckedBy(cfg: Config, g: Generator, redis: Cache, t: Tables, now: int, q: Request, budget: nat): Attempt<()>
    requires Guarded(q)
  {
    CheckEnding(redis, now, LockScope(q.user), GuardOf(cfg, g, redis, t, now, q), budget)
  }

  datatype World = World(now: int, redis: Cache, tables: Tables, minted: set<Uuid>)

  datatype Step = Wait(seconds: nat) | Serve(request: Request, budget: nat)

  function Issued(cfg: Config, g: Generator, w: World, q: Request): FactorPlan {
    Committing(RequestPlan(cfg, g, w.redis, w.tables, w.now, q))
  }

  function Minted(q: Request): set<Uuid> {
    match q
    case TotpLogin(_, _, sid) => {sid}
    case RecoveryLogin(_, _, sid) => {sid}
    case Generate(_, _, _, _, drawn) => set d | d in drawn :: d.id
    case _ => {}
  }

  function Next(cfg: Config, g: Generator, w: World, step: Step): World {
    match step
    case Wait(seconds) => w.(now := w.now + seconds)
    case Serve(q, budget) =>
      var s := Reach(State(w.redis, w.tables, w.tables), budget, w.now, Issued(cfg, g, w, q).cmds);
      World(w.now, s.redis, s.committed, w.minted + Minted(q))
  }

  function Run(cfg: Config, g: Generator, w: World, steps: seq<Step>): World
    decreases |steps|
  {
    if steps == [] then w else Run(cfg, g, Next(cfg, g, w, steps[0]), steps[1..])
  }

  /** The random identifiers a request draws are fresh, and a batch has as many
      codes as configured. */
  ghost predicate Possible(cfg: Config, w: World, step: Step) {
    step.Serve? ==>
      && Minted(step.request) !! w.minted
      && (step.request.Generate? ==>
            && |step.request.drawn| == cfg.backupCodes
            && forall i, j | 0 <= i < j < |step.request.drawn| :: step.request.drawn[i].id != step.request.drawn[j].id)
  }

  ghost predicate ValidRun(cfg: Config, g: Generator, w: World, steps: seq<Step>)
    decreases |steps|
  {
    steps == [] || (Possible(cfg, w, steps[0]) && ValidRun(cfg, g, Next(cfg, g, w, steps[0]), steps[1..]))
  }

  predicate Initial(w: World) {
    w.redis == map[] && w.tables == Tables(map[], [], [], map[]) && w.minted == {}
  }

  /** The request went through: every command got through and it did not raise. */
  predicate Done(cfg: Config, g: Generator, w: World, step: Step) {
    step.Serve? && Issued(cfg, g, w, step.request).Ending(step.budget).Ok?
  }

  /** The tables a request commits if it goes through. */
  function Final(t: Tables, now: int, q: Request): Tables {
    match q
    case Setup(user, _, secret) => t.(factors := t.factors[user := Factor(secret, false, None)])
    case Confirm(user, _) =>
      if user in t.factors
      then t.(factors := t.factors[user := t.factors[user].(enabled := true, verifiedAt := Some(now))]) else t
    case TotpLogin(user, _, sid) => Opened(t, sid, user, None)
    case RecoveryLogin(user, code, sid) =>
      (match Match(t.codes, user, Normalize(code), 0)
       case None => t
       case Some(i) => Opened(Spend(t, i, now), sid, user, Some(t.codes[i].id)))
    case Generate(user, _, _, replace, drawn) => WithBatch(if replace then WithoutCodes(t, user) else t, user, drawn)
    case Disable(user, _, _) => WithoutCodes(WithoutFactor(t, user), user)
  }

  lemma CheckCommits<T>(cfg: Config, redis: Cache, now: int, scope: string, between: seq<Command<T>>, verdict: Verdict)
    requires forall c | c in between :: !c.Commit?
    ensures forall c | c in CheckCmds(cfg, redis, now, scope, between, verdict) :: !c.Commit?
  {
    assert forall c | c in TailCmds<T>(cfg, redis, now, scope, verdict) :: !c.Commit?;
  }

  lemma PlanCommits(cfg: Config, g: Generator, redis: Cache, t: Tables, now: int, q: Request)
    ensures forall c | c in RequestPlan(cfg, g, redis, t, now, q).cmds :: !c.Commit?
  {
    if Guarded(q) {
      hide CheckCmds;
      var guard := GuardOf(cfg, g, redis, t, now, q);
      assert forall c | c in guard.between :: !c.Commit?;
      assert forall c | c in Body(t, now, q).cmds :: !c.Commit?;
      CheckCommits(cfg, redis, now, LockScope(q.user), guard.between, guard.verdict);
    }
  }

  lemma PlanEnds(cfg: Config, g: Generator, redis: Cache, t: Tables, now: int, q: Request)
    requires RequestPlan(cfg, g, redis, t, now, q).result.Ok?
    ensures var cmds := RequestPlan(cfg, g, redis, t, now, q).cmds;
            cmds != [] && cmds[|cmds| - 1] == Write(Final(t, now, q))
  {
    hide CheckCmds;
    if Guarded(q) {
      var guard := GuardOf(cfg, g, redis, t, now, q);
      var check := CheckCmds(cfg, redis, now, LockScope(q.user), guard.between, guard.verdict);
      BodyEnds(cfg, g, redis, t, now, q);
      hide Final, GuardOf, Body;
      var cmds := check + Body(t, now, q).cmds;
      assert cmds[|cmds| - 1] == Body(t, now, q).cmds[|Body(t, now, q).cmds| - 1];
    }
  }

  lemma BodyEnds(cfg: Config, g: Generator, redis: Cache, t: Tables, now: int, q: Request)
    requires Guarded(q) && GuardOf(cfg, g, redis, t, now, q).verdict == Right && Body(t, now, q).result.Ok?
    ensures var cmds := Body(t, now, q).cmds;
            cmds != [] && cmds[|cmds| - 1] == Write(Final(t, now, q))
  {
  }

  lemma PlanFinal(cfg: Config, g: Generator, redis: Cache, t: Tables, now: int, q: Request)
    requires RequestPlan(cfg, g, redis, t, now, q).result.Ok?
    ensures ApplyAll(State(redis, t, t), now, RequestPlan(cfg, g, redis, t, now, q).cmds).working == Final(t, now, q)
  {
    PlanEnds(cfg, g, redis, t, now, q);
    hide RequestPlan, Final;
    var cmds := RequestPlan(cfg, g, redis, t, now, q).cmds;
    var n := |cmds| - 1;
    assert cmds == cmds[..n] + [cmds[n]];
    LastWrite(State(redis, t, t), now, cmds[..n], cmds[n]);
  }

  /** A request changes the tables exactly when it goes through, and then in
      full: whatever it spent or deleted is committed with what it created. */
  lemma RequestTables(cfg: Config, g: Generator, w: World, step: Step)
    ensures Next(cfg, g, w, step).tables
         == if Done(cfg, g, w, step) then Final(w.tables, w.now, step.request) else w.tables
  {
    if step.Serve? {
      var p := RequestPlan(cfg, g, w.redis, w.tables, w.now, step.request);
      PlanCommits(cfg, g, w.redis, w.tables, w.now, step.request);
      AllOrNothing(State(w.redis, w.tables, w.tables), step.budget, w.now, p);
      if p.result.Ok? {
        PlanFinal(cfg, g, w.redis, w.tables, w.now, step.request);
      }
    }
  }
}
