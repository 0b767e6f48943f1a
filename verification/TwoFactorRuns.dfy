/** What holds of one-time factors over whole runs. */
module TwoFactorRuns {
  import opened Base
  import opened Stores
  import opened RateLimit
  import opened RateLimitRuns
  import opened TwoFactor
  import opened TwoFactorAnswers

  // ----------------------------------------------------- TOTP replay

  /** `verify_totp` returned normally. */
  predicate OtpAccepted(cfg: Config, g: Generator, w: TwoFactor.World, step: TwoFactor.Step) {
    && step.Serve? && VerifiesOtp(step.request)
    && CheckedBy(cfg, g, w.redis, w.tables, w.now, step.request, step.budget).Ok?
  }

  predicate Marked(redis: Cache, key: Key, until: int) {
    key in redis && (redis[key].deadline.None? || until <= redis[key].deadline.value)
  }

  predicate OnlyMarks<T>(c: Command<T>, key: Key, seconds: int) {
    Touches(c, key) ==> c == Set(key, Mark, seconds)
  }

  lemma {:induction false} MarkKept<T>(s: State<T>, now: int, cmds: seq<Command<T>>, key: Key, seconds: int, until: int)
    requires Marked(s.redis, key, until) && until <= now + seconds
    requires forall c | c in cmds :: OnlyMarks(c, key, seconds)
    ensures Marked(ApplyAll(s, now, cmds).redis, key, until)
    decreases |cmds|
  {
    if cmds != [] {
      assert OnlyMarks(cmds[0], key, seconds);
      MarkKept(Apply(s, now, cmds[0]), now, cmds[1..], key, seconds, until);
    }
  }

  /** The commands of a request leave a code's mark alone, or set it afresh
      when it is not in force. */
  lemma MarkCommands(cfg: Config, g: Generator, w: TwoFactor.World, q: Request, key: Key)
    requires key.OtpUsed?
    ensures forall c | c in Issued(cfg, g, w, q).cmds :: OnlyMarks(c, key, ReplaySeconds(cfg))
    ensures Live(w.redis, key, w.now) ==> forall c | c in Issued(cfg, g, w, q).cmds :: !Touches(c, key)
  {
    if Guarded(q) {
      hide CheckCmds, GuardOf, Body;
      var guard := GuardOf(cfg, g, w.redis, w.tables, w.now, q);
      BodyLeavesMarks(w.tables, w.now, q, key);
      GuardMarks(cfg, g, w, q, key);
      CheckLeavesMarks(cfg, w.redis, w.now, LockScope(q.user), guard.between, guard.verdict, key);
    }
  }

  lemma BodyLeavesMarks(t: Tables, now: int, q: Request, key: Key)
    ensures forall c | c in Body(t, now, q).cmds :: !Touches(c, key)
  {
  }

  lemma GuardMarks(cfg: Config, g: Generator, w: TwoFactor.World, q: Request, key: Key)
    requires Guarded(q) && key.OtpUsed?
    ensures var between := GuardOf(cfg, g, w.redis, w.tables, w.now, q).between;
            && (forall c | c in between :: OnlyMarks(c, key, ReplaySeconds(cfg)))
            && (Live(w.redis, key, w.now) ==> forall c | c in between :: !Touches(c, key))
  {
  }

  lemma CheckLeavesMarks<T>(cfg: Config, redis: Cache, now: int, scope: string, between: seq<Command<T>>,
                            verdict: Verdict, key: Key)
    requires key.OtpUsed?
    ensures forall c | c in CheckCmds(cfg, redis, now, scope, between, verdict) :: c in between || !Touches(c, key)
  {
    assert forall c | c in TailCmds<T>(cfg, redis, now, scope, verdict) :: !Touches(c, key);
  }

  lemma MarkStep(cfg: Config, g: Generator, w: TwoFactor.World, step: TwoFactor.Step, key: Key, until: int)
    requires cfg.Sane() && key.OtpUsed? && Marked(w.redis, key, until)
    ensures Marked(TwoFactor.Next(cfg, g, w, step).redis, key, until)
  {
    if step.Serve? {
      var s := State(w.redis, w.tables, w.tables);
      var cmds := Cut(Issued(cfg, g, w, step.request).cmds, step.budget);
      MarkCommands(cfg, g, w, step.request, key);
      if Live(w.redis, key, w.now) {
        Untouched(s, w.now, cmds, key);
      } else {
        MarkKept(s, w.now, cmds, key, ReplaySeconds(cfg), until);
      }
    }
  }

  lemma {:induction false} MarkRun(cfg: Config, g: Generator, w: TwoFactor.World, steps: seq<TwoFactor.Step>, key: Key,
                                   until: int)
    requires cfg.Sane() && key.OtpUsed? && Marked(w.redis, key, until)
    ensures Marked(TwoFactor.Run(cfg, g, w, steps).redis, key, until)
    decreases |steps|
  {
    if steps != [] {
      MarkStep(cfg, g, w, steps[0], key, until);
      MarkRun(cfg, g, TwoFactor.Next(cfg, g, w, steps[0]), steps[1..], key, until);
    }
  }

  lemma AcceptanceMarks(cfg: Config, g: Generator, w: TwoFactor.World, step: TwoFactor.Step)
    requires cfg.Sane() && OtpAccepted(cfg, g, w, step)
    ensures Marked(TwoFactor.Next(cfg, g, w, step).redis, OtpUsed(step.request.user, step.request.otp),
                   w.now + ReplaySeconds(cfg))
  {
    var q := step.request;
    var key := OtpUsed(q.user, q.otp);
    var s := State(w.redis, w.tables, w.tables);
    var until := w.now + ReplaySeconds(cfg);
    var cmds := Cut(Issued(cfg, g, w, q).cmds, step.budget);
    var mark: FactorCommand := Set(key, Mark, ReplaySeconds(cfg));
    assert cmds[3] == mark;
    assert cmds == cmds[..3] + ([mark] + cmds[4..]);
    ApplyConcat(s, w.now, cmds[..3], [mark] + cmds[4..]);
    var s1 := ApplyAll(s, w.now, cmds[..3]);
    ApplyConcat(s1, w.now, [mark], cmds[4..]);
    ApplyOne(s1, w.now, mark);
    MarkCommands(cfg, g, w, q, key);
    forall c | c in cmds[4..]
      ensures OnlyMarks(c, key, ReplaySeconds(cfg))
    {
      assert c in Issued(cfg, g, w, q).cmds;
    }
    MarkKept(Apply(s1, w.now, mark), w.now, cmds[4..], key, ReplaySeconds(cfg), until);
  }

  /** No code is accepted twice. Whenever `verify_totp` accepts the same digits
      from the same user again, both times they were the digits of some step
      within its validity window, and no step was within it both times. */
  lemma OtpAcceptedOnce(cfg: Config, g: Generator, w: TwoFactor.World, first: TwoFactor.Step,
                        steps: seq<TwoFactor.Step>, again: TwoFactor.Step)
    requires cfg.Sane() && OtpAccepted(cfg, g, w, first)
    requires var later := TwoFactor.Run(cfg, g, TwoFactor.Next(cfg, g, w, first), steps);
             && OtpAccepted(cfg, g, later, again)
             && again.request.user == first.request.user && again.request.otp == first.request.otp
    ensures var user, otp := first.request.user, first.request.otp;
            var later := TwoFactor.Run(cfg, g, TwoFactor.Next(cfg, g, w, first), steps);
            && user in w.tables.factors && user in later.tables.factors
            && (exists s :: Valid(cfg, g, w.tables.factors[user].secret, otp, s, w.now))
            && (exists s :: Valid(cfg, g, later.tables.factors[user].secret, otp, s, later.now))
            && forall s, a, b :: !(Valid(cfg, g, a, otp, s, w.now) && Valid(cfg, g, b, otp, s, later.now))
  {
    var w1 := TwoFactor.Next(cfg, g, w, first);
    var later := TwoFactor.Run(cfg, g, w1, steps);
    var key, otp := OtpUsed(first.request.user, first.request.otp), first.request.otp;
    OtpPassesExactly(cfg, g, w, first.request, first.budget);
    OtpPassesExactly(cfg, g, later, again.request, again.budget);
    AcceptanceMarks(cfg, g, w, first);
    MarkRun(cfg, g, w1, steps, key, w.now + ReplaySeconds(cfg));
    assert w.now + ReplaySeconds(cfg) <= later.now;
    forall s, a, b | Valid(cfg, g, a, otp, s, w.now)
      ensures !Valid(cfg, g, b, otp, s, later.now)
    {
      MarkOutlivesCode(cfg, s, w.now);
    }
  }

  /** The arithmetic of the mark: set for a code of `step` at `now`, it lasts at
      least to the end of that code's acceptance span, and the bound is tight. */
  lemma MarkOutlivesCode(cfg: Config, step: int, now: int)
    requires cfg.Sane() && InSpan(cfg, step, now)
    ensures OTP_STEP * (step + cfg.totpWindow + 1) <= now + ReplaySeconds(cfg)
    ensures forall t :: InSpan(cfg, step, t)
                        <==> OTP_STEP * (step - cfg.totpWindow) <= t < OTP_STEP * (step + cfg.totpWindow + 1)
    ensures OTP_STEP * (step - cfg.totpWindow) + ReplaySeconds(cfg) == OTP_STEP * (step + cfg.totpWindow + 1)
  {
  }

  /** Confirming the setup does not mark its code: the code is accepted for a
      login in the same instant exactly if it was not marked already and the
      user is not locked out. */
  lemma SetupCodeStillWorks(cfg: Config, g: Generator, w: TwoFactor.World, user: Uuid, otp: string, sid: Uuid,
                            budget: nat, loginBudget: nat)
    requires cfg.Sane() && 4 <= loginBudget
    requires TwoFactor.Done(cfg, g, w, TwoFactor.Serve(Confirm(user, otp), budget))
    ensures var w' := TwoFactor.Next(cfg, g, w, TwoFactor.Serve(Confirm(user, otp), budget));
            OtpAccepted(cfg, g, w', TwoFactor.Serve(TotpLogin(user, otp, sid), loginBudget))
            <==> !Live(w.redis, OtpUsed(user, otp), w.now) && !Live(w.redis, Lockout(LockScope(user)), w.now)
  {
    RequestTables(cfg, g, w, TwoFactor.Serve(Confirm(user, otp), budget));
    var s := State(w.redis, w.tables, w.tables);
    var cmds := Issued(cfg, g, w, Confirm(user, otp)).cmds;
    Untouched(s, w.now, Cut(cmds, budget), OtpUsed(user, otp));
    Untouched(s, w.now, Cut(cmds, budget), Lockout(LockScope(user)));
  }
}
