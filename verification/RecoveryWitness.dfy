/** A run from an empty system in which a second set of recovery codes comes
    while the first still counts. */
module RecoveryWitness {
  import opened Base
  import opened Stores
  import opened RateLimit
  import opened RateLimitRuns
  import opened TwoFactor
  import opened TwoFactorRuns
  import opened RecoveryCodes

  /** The request sent whole. */
  function Whole(cfg: Config, g: Generator, w: TwoFactor.World, q: Request): TwoFactor.Step {
    TwoFactor.Serve(q, |Issued(cfg, g, w, q).cmds|)
  }

  function Plan2(cfg: Config, g: Generator, w: TwoFactor.World, q: Request): FactorPlan {
    RequestPlan(cfg, g, w.redis, w.tables, w.now, q)
  }

  /** Nobody is locked out and the code's mark does not last past `until`. */
  predicate Calm(w: TwoFactor.World, user: Uuid, otp: string, until: int) {
    var key := OtpUsed(user, otp);
    && Lockout(LockScope(user)) !in w.redis
    && (key in w.redis ==> w.redis[key].deadline.Some? && w.redis[key].deadline.value <= until)
  }

  lemma {:induction false} MarkAtMost<T>(s: State<T>, now: int, cmds: seq<Command<T>>, key: Key, seconds: int,
                                         until: int)
    requires key in s.redis ==> s.redis[key].deadline.Some? && s.redis[key].deadline.value <= until
    requires now + seconds <= until && forall c | c in cmds :: OnlyMarks(c, key, seconds)
    ensures var redis := ApplyAll(s, now, cmds).redis;
            key in redis ==> redis[key].deadline.Some? && redis[key].deadline.value <= until
    decreases |cmds|
  {
    if cmds != [] {
      assert OnlyMarks(cmds[0], key, seconds);
      MarkAtMost(Apply(s, now, cmds[0]), now, cmds[1..], key, seconds, until);
    }
  }

  /** A request that succeeds locks nobody out. */
  lemma SuccessLocksNobody(cfg: Config, g: Generator, w: TwoFactor.World, q: Request, scope: string)
    requires Plan2(cfg, g, w, q).result.Ok?
    ensures forall c | c in Issued(cfg, g, w, q).cmds :: NeverPuts(c, Lockout(scope))
  {
    if Guarded(q) {
      hide CheckCmds, GuardOf, Body;
      var guard := GuardOf(cfg, g, w.redis, w.tables, w.now, q);
      GuardLocksNobody(cfg, g, w, q, scope);
      BodyLocksNobody(w.tables, w.now, q, scope);
      CheckLocksNobody(cfg, w.redis, w.now, LockScope(q.user), guard.between, scope);
    }
  }

  lemma GuardLocksNobody(cfg: Config, g: Generator, w: TwoFactor.World, q: Request, scope: string)
    requires Guarded(q)
    ensures forall c | c in GuardOf(cfg, g, w.redis, w.tables, w.now, q).between :: NeverPuts(c, Lockout(scope))
  {
  }

  lemma BodyLocksNobody(t: Tables, now: int, q: Request, scope: string)
    ensures forall c | c in Body(t, now, q).cmds :: NeverPuts(c, Lockout(scope))
  {
  }

  lemma CheckLocksNobody<T>(cfg: Config, redis: Cache, now: int, own: string, between: seq<Command<T>>, scope: string)
    requires forall c | c in between :: NeverPuts(c, Lockout(scope))
    ensures forall c | c in CheckCmds(cfg, redis, now, own, between, Right) :: NeverPuts(c, Lockout(scope))
  {
  }

  /** A request that is granted commits its tables and leaves the user calm. */
  lemma Granted(cfg: Config, g: Generator, w: TwoFactor.World, q: Request, otp: string, until: int)
    requires Plan2(cfg, g, w, q).result.Ok? && Calm(w, q.user, otp, until) && w.now + ReplaySeconds(cfg) <= until
    ensures var step := Whole(cfg, g, w, q);
            var w' := TwoFactor.Next(cfg, g, w, step);
            && TwoFactor.Done(cfg, g, w, step) && w'.tables == Final(w.tables, w.now, q)
            && w'.now == w.now && w'.minted == w.minted + TwoFactor.Minted(q) && Calm(w', q.user, otp, until)
  {
    hide RequestPlan;
    var s := State(w.redis, w.tables, w.tables);
    var cmds := Issued(cfg, g, w, q).cmds;
    RequestTables(cfg, g, w, Whole(cfg, g, w, q));
    assert Cut(cmds, |cmds|) == cmds;
    SuccessLocksNobody(cfg, g, w, q, LockScope(q.user));
    StaysAway(s, w.now, cmds, Lockout(LockScope(q.user)));
    MarkCommands(cfg, g, w, q, OtpUsed(q.user, otp));
    MarkAtMost(s, w.now, cmds, OtpUsed(q.user, otp), ReplaySeconds(cfg), until);
  }

  /** The one-time password is always the same. */
  function Constant(): Generator {
    (secret, step) => "123456"
  }

  lemma AlwaysAccepts(cfg: Config, secret: Uuid, now: int)
    requires cfg.Sane()
    ensures Accepts(cfg, Constant(), secret, "123456", now)
  {
    assert Constant()(secret, now / OTP_STEP) == "123456";
  }

  lemma RunOn(cfg: Config, g: Generator, w: TwoFactor.World, steps: seq<TwoFactor.Step>, last: TwoFactor.Step)
    ensures TwoFactor.Run(cfg, g, w, steps + [last])
         == TwoFactor.Next(cfg, g, TwoFactor.Run(cfg, g, w, steps), last)
    ensures TwoFactor.ValidRun(cfg, g, w, steps + [last])
            <==> TwoFactor.ValidRun(cfg, g, w, steps) && TwoFactor.Possible(cfg, TwoFactor.Run(cfg, g, w, steps), last)
    decreases |steps|
  {
    if steps == [] {
      assert [last][1..] == [] && steps + [last] == [last];
      assert TwoFactor.Run(cfg, g, TwoFactor.Next(cfg, g, w, last), []) == TwoFactor.Next(cfg, g, w, last);
    } else {
      assert (steps + [last])[1..] == steps[1..] + [last];
      RunOn(cfg, g, TwoFactor.Next(cfg, g, w, steps[0]), steps[1..], last);
    }
  }

  /** With one code a set: set 2FA up, confirm it, regenerate, log in with the
      code, wait until the one-time password works again, ask for codes. */
  lemma SecondSetReached(cfg: Config, w0: TwoFactor.World)
    requires cfg.Sane() && cfg.backupCodes == 1 && TwoFactor.Initial(w0)
    ensures exists steps, user :: TwoFactor.ValidRun(cfg, Constant(), w0, steps)
              && var t := TwoFactor.Run(cfg, Constant(), w0, steps).tables;
                 Remaining(t.codes, user) + Redeemed(t.codes, t.sessions, user) == 2 * cfg.backupCodes
  {
    var g, otp, user := Constant(), "123456", Uuid(0);
    var until := w0.now + ReplaySeconds(cfg);
    var steps, w4 := FirstSetSpent(cfg, w0, user, otp);
    hide Issued, RequestPlan, TwoFactor.Next, Calm;
    var wait := TwoFactor.Wait(ReplaySeconds(cfg));
    var w5 := Waited(w4, ReplaySeconds(cfg));
    RunOn(cfg, g, w0, steps, wait);
    assert TwoFactor.Next(cfg, g, w4, wait) == w5 by { WaitNext(cfg, g, w4, ReplaySeconds(cfg)); }
    var q := Generate(user, true, otp, false, [Drawn(Uuid(4), "B")]);
    AlwaysAccepts(cfg, w5.tables.factors[user].secret, w5.now);
    CalmUnmarked(w4, user, otp, until, ReplaySeconds(cfg));
    GenerateGranted(cfg, g, w5, q);
    CalmLonger(w4, w5, user, otp, until, until + ReplaySeconds(cfg));
    Granted(cfg, g, w5, q, otp, until + ReplaySeconds(cfg));
    var last := Whole(cfg, g, w5, q);
    SetsOut(cfg, g, w5, last, user);
    RunOn(cfg, g, w0, steps + [wait], last);
    Conservation(cfg, g, w0, steps + [wait] + [last], user);
  }

  function Waited(w: TwoFactor.World, seconds: nat): TwoFactor.World {
    w.(now := w.now + seconds)
  }

  lemma WaitNext(cfg: Config, g: Generator, w: TwoFactor.World, seconds: nat)
    ensures TwoFactor.Next(cfg, g, w, TwoFactor.Wait(seconds)) == Waited(w, seconds)
  {
  }

  lemma CalmUnmarked(w: TwoFactor.World, user: Uuid, otp: string, until: int, seconds: nat)
    requires Calm(w, user, otp, until) && until <= w.now + seconds
    ensures Lockout(LockScope(user)) !in w.redis && !Live(w.redis, OtpUsed(user, otp), w.now + seconds)
  {
  }

  lemma CalmLonger(w: TwoFactor.World, w': TwoFactor.World, user: Uuid, otp: string, until: int, until': int)
    requires Calm(w, user, otp, until) && w'.redis == w.redis && until <= until'
    ensures Calm(w', user, otp, until')
  {
  }

  lemma GenerateGranted(cfg: Config, g: Generator, w: TwoFactor.World, q: Request)
    requires q.Generate? && q.passwordOk && TwoFactorOn(w.tables, q.user)
    requires Lockout(LockScope(q.user)) !in w.redis && !Live(w.redis, OtpUsed(q.user, q.otp), w.now)
    requires Accepts(cfg, g, w.tables.factors[q.user].secret, q.otp, w.now)
    requires q.replace || Remaining(w.tables.codes, q.user) == 0
    ensures Plan2(cfg, g, w, q).result.Ok?
  {
  }

  lemma RecoveryGranted(cfg: Config, g: Generator, w: TwoFactor.World, q: Request)
    requires q.RecoveryLogin? && Lockout(LockScope(q.user)) !in w.redis
    requires Match(w.tables.codes, q.user, Normalize(q.code), 0).Some?
    ensures Plan2(cfg, g, w, q).result.Ok?
  {
  }

  lemma SetupGranted(cfg: Config, g: Generator, w: TwoFactor.World, q: Request)
    requires q.Setup? && q.passwordOk && !TwoFactorOn(w.tables, q.user)
    ensures Plan2(cfg, g, w, q).result.Ok?
  {
  }

  lemma ConfirmGranted(cfg: Config, g: Generator, w: TwoFactor.World, q: Request)
    requires q.Confirm? && q.user in w.tables.factors && !w.tables.factors[q.user].enabled
    requires Accepts(cfg, g, w.tables.factors[q.user].secret, q.otp, w.now)
    ensures Plan2(cfg, g, w, q).result.Ok?
  {
  }

  /** The first half of the run: one set is out and all of it is spent. */
  lemma FirstSetSpent(cfg: Config, w0: TwoFactor.World, user: Uuid, otp: string)
    returns (steps: seq<TwoFactor.Step>, w4: TwoFactor.World)
    requires cfg.Sane() && cfg.backupCodes == 1 && TwoFactor.Initial(w0) && otp == "123456"
    ensures TwoFactor.ValidRun(cfg, Constant(), w0, steps) && w4 == TwoFactor.Run(cfg, Constant(), w0, steps)
    ensures w4.now == w0.now && w4.minted == {Uuid(2), Uuid(3)} && TwoFactorOn(w4.tables, user)
    ensures Calm(w4, user, otp, w0.now + ReplaySeconds(cfg))
    ensures Batches(w4.tables, user) == 1 && Remaining(w4.tables.codes, user) == 0
  {
    hide Issued, RequestPlan, TwoFactor.Next, Normalize, Accepts;
    var g, secret := Constant(), Uuid(1);
    var until := w0.now + ReplaySeconds(cfg);
    var q1, q2 := Setup(user, true, secret), Confirm(user, otp);
    var q3, q4 := Generate(user, true, otp, true, [Drawn(Uuid(2), "A")]), RecoveryLogin(user, "A", Uuid(3));
    AlwaysAccepts(cfg, secret, w0.now);
    SetupGranted(cfg, g, w0, q1);
    Granted(cfg, g, w0, q1, otp, until);
    var w1 := TwoFactor.Next(cfg, g, w0, Whole(cfg, g, w0, q1));
    ConfirmGranted(cfg, g, w1, q2);
    Granted(cfg, g, w1, q2, otp, until);
    var w2 := TwoFactor.Next(cfg, g, w1, Whole(cfg, g, w1, q2));
    SetupUnmarked(cfg, g, w0, w1, q1, w2, q2, otp);
    GenerateGranted(cfg, g, w2, q3);
    Granted(cfg, g, w2, q3, otp, until);
    var w3 := TwoFactor.Next(cfg, g, w2, Whole(cfg, g, w2, q3));
    var row := CodeRow(Uuid(2), user, "A", None);
    assert w3.tables.codes == [row];
    NormalA();
    assert Match([row], user, "A", 0) == Some(0);
    RecoveryGranted(cfg, g, w3, q4);
    Granted(cfg, g, w3, q4, otp, until);
    w4 := TwoFactor.Next(cfg, g, w3, Whole(cfg, g, w3, q4));
    assert w4.tables.codes == [row.(usedAt := Some(w0.now))];
    steps := [Whole(cfg, g, w0, q1)];
    assert [] + steps == steps;
    RunOn(cfg, g, w0, [], steps[0]);
    RunOn(cfg, g, w0, steps, Whole(cfg, g, w1, q2));
    steps := steps + [Whole(cfg, g, w1, q2)];
    RunOn(cfg, g, w0, steps, Whole(cfg, g, w2, q3));
    steps := steps + [Whole(cfg, g, w2, q3)];
    RunOn(cfg, g, w0, steps, Whole(cfg, g, w3, q4));
    steps := steps + [Whole(cfg, g, w3, q4)];
  }

  lemma NormalA()
    ensures Normalize("A") == "A"
  {
    assert Strip("A") == "A";
  }

  /** Setting up and confirming mark no code. */
  lemma SetupUnmarked(cfg: Config, g: Generator, w0: TwoFactor.World, w1: TwoFactor.World, q1: Request,
                      w2: TwoFactor.World, q2: Request, otp: string)
    requires q1.Setup? && q2.Confirm? && w0.redis == map[]
    requires w1 == TwoFactor.Next(cfg, g, w0, Whole(cfg, g, w0, q1))
    requires w2 == TwoFactor.Next(cfg, g, w1, Whole(cfg, g, w1, q2))
    ensures w2.redis == map[]
  {
    NoRedis(cfg, g, w0, q1);
    NoRedis(cfg, g, w1, q2);
  }

  lemma NoRedis(cfg: Config, g: Generator, w: TwoFactor.World, q: Request)
    requires q.Setup? || q.Confirm?
    requires w.redis == map[]
    ensures TwoFactor.Next(cfg, g, w, Whole(cfg, g, w, q)).redis == map[]
  {
    var cmds := Issued(cfg, g, w, q).cmds;
    forall key | key in TwoFactor.Next(cfg, g, w, Whole(cfg, g, w, q)).redis
      ensures false
    {
      StaysAway(State(w.redis, w.tables, w.tables), w.now, Cut(cmds, |cmds|), key);
    }
  }
}
