/** TOTP and recovery codes share one lockout: a run of two-factor requests is,
    to the limiter, one run of checks under the user's scope. */
module TwoFactorLockout {
  import opened Base
  import opened Stores
  import opened RateLimit
  import L = RateLimitRuns
  import opened TwoFactor

  /** The limiter's view of a step. */
  function Seen(cfg: Config, g: Generator, w: World, step: Step): L.LimitStep<Tables> {
    match step
    case Wait(seconds) => L.Tick(seconds)
    case Serve(q, budget) =>
      if Guarded(q) then
        var guard := GuardOf(cfg, g, w.redis, w.tables, w.now, q);
        L.Check(LockScope(q.user), guard.between, guard.verdict, budget)
      else L.Tick(0)
  }

  function SeenAll(cfg: Config, g: Generator, w: World, steps: seq<Step>): seq<L.LimitStep<Tables>>
    decreases |steps|
  {
    if steps == [] then [] else [Seen(cfg, g, w, steps[0])] + SeenAll(cfg, g, Next(cfg, g, w, steps[0]), steps[1..])
  }

  predicate QuietRedis<T>(c: Command<T>) {
    c.Exists? || c.Select? || c.Write? || c.Commit?
  }

  lemma {:induction false} QuietKeeps<T>(s: State<T>, now: int, cmds: seq<Command<T>>)
    requires forall c | c in cmds :: QuietRedis(c)
    ensures ApplyAll(s, now, cmds).redis == s.redis
    decreases |cmds|
  {
    if cmds != [] {
      assert QuietRedis(cmds[0]);
      QuietKeeps(Apply(s, now, cmds[0]), now, cmds[1..]);
    }
  }

  /** What a command does to Redis does not depend on the tables. */
  lemma {:induction false} RedisApart<T>(a: State<T>, b: State<T>, now: int, cmds: seq<Command<T>>)
    requires a.redis == b.redis
    ensures ApplyAll(a, now, cmds).redis == ApplyAll(b, now, cmds).redis
    decreases |cmds|
  {
    if cmds != [] {
      RedisApart(Apply(a, now, cmds[0]), Apply(b, now, cmds[0]), now, cmds[1..]);
    }
  }

  /** After the check a request only reads, writes rows and commits. */
  lemma AfterCheck(cfg: Config, g: Generator, w: World, q: Request) returns (rest: seq<FactorCommand>)
    requires Guarded(q)
    ensures Issued(cfg, g, w, q).cmds
            == L.StepCmds(cfg, L.Limits(w.now, w.redis, w.tables), Seen(cfg, g, w, Serve(q, 0))) + rest
    ensures forall c | c in rest :: QuietRedis(c)
  {
    hide L.CheckCmds;
    var guard := GuardOf(cfg, g, w.redis, w.tables, w.now, q);
    var check := L.CheckCmds(cfg, w.redis, w.now, LockScope(q.user), guard.between, guard.verdict);
    var body: FactorPlan :=
      if Live(w.redis, Lockout(LockScope(q.user)), w.now) then Plan([], Raised(AccountLocked))
      else if guard.verdict != L.Right then Plan([], Raised(guard.refusal))
      else Body(w.tables, w.now, q);
    rest := body.cmds + if body.result.Ok? then [Commit] else [];
    assert RequestPlan(cfg, g, w.redis, w.tables, w.now, q).cmds == check + body.cmds;
    assert check + body.cmds + [Commit] == check + (body.cmds + [Commit]);
    assert body.cmds + [] == body.cmds;
    assert forall c | c in Body(w.tables, w.now, q).cmds :: QuietRedis(c);
  }

  lemma GuardProper(cfg: Config, g: Generator, w: World, q: Request)
    requires Guarded(q)
    ensures forall c | c in GuardOf(cfg, g, w.redis, w.tables, w.now, q).between :: L.Apart(c)
  {
  }

  lemma UnguardedQuiet(cfg: Config, g: Generator, w: World, q: Request)
    requires !Guarded(q)
    ensures forall c | c in Issued(cfg, g, w, q).cmds :: QuietRedis(c)
  {
  }

  lemma SeenStep(cfg: Config, g: Generator, w: World, step: Step, t: Tables)
    ensures var l := L.Next(cfg, L.Limits(w.now, w.redis, t), Seen(cfg, g, w, step));
            var w' := Next(cfg, g, w, step);
            l.now == w'.now && l.redis == w'.redis && l.tables == t
    ensures L.Proper(Seen(cfg, g, w, step))
  {
    if step.Serve? {
      var q, s := step.request, State(w.redis, w.tables, w.tables);
      if Guarded(q) {
        GuardProper(cfg, g, w, q);
        hide L.CheckCmds, Issued, GuardOf, L.Apart;
        var check := L.StepCmds(cfg, L.Limits(w.now, w.redis, w.tables), Seen(cfg, g, w, step));
        var rest := AfterCheck(cfg, g, w, q);
        ReachConcat(s, step.budget, w.now, check, rest);
        if |check| <= step.budget {
          var s1 := Reach(s, step.budget, w.now, check);
          QuietKeeps(s1, w.now, Cut(rest, step.budget - |check|));
        }
        RedisApart(s, State(w.redis, t, t), w.now, Cut(check, step.budget));
      } else {
        UnguardedQuiet(cfg, g, w, q);
        QuietKeeps(s, w.now, Cut(Issued(cfg, g, w, q).cmds, step.budget));
      }
    }
  }

  lemma {:induction false} SeenRun(cfg: Config, g: Generator, w: World, steps: seq<Step>, t: Tables)
    ensures var l := L.Run(cfg, L.Limits(w.now, w.redis, t), SeenAll(cfg, g, w, steps));
            var w' := Run(cfg, g, w, steps);
            l.now == w'.now && l.redis == w'.redis
    ensures forall step | step in SeenAll(cfg, g, w, steps) :: L.Proper(step)
    decreases |steps|
  {
    if steps != [] {
      hide L.Next, Seen, Next, L.Proper;
      var w1 := Next(cfg, g, w, steps[0]);
      SeenStep(cfg, g, w, steps[0], t);
      SeenRun(cfg, g, w1, steps[1..], t);
      assert SeenAll(cfg, g, w, steps)[1..] == SeenAll(cfg, g, w1, steps[1..]);
    }
  }

  /** The wrong one-time passwords and wrong recovery codes since the user's
      last success, in one list. */
  function Mistakes(cfg: Config, g: Generator, w: World, steps: seq<Step>, user: Uuid): seq<int> {
    L.History(cfg, L.Limits(w.now, w.redis, w.tables), SeenAll(cfg, g, w, steps), LockScope(user), [])
  }

  /** The lockout of a user's second factor is exact over both kinds of mistake. */
  lemma SharedLockoutExact(cfg: Config, g: Generator, w: World, steps: seq<Step>, user: Uuid)
    requires cfg.Sane() && Initial(w)
    requires L.AllRecorded(cfg, L.Limits(w.now, w.redis, w.tables), SeenAll(cfg, g, w, steps), LockScope(user))
    ensures var w' := Run(cfg, g, w, steps);
            Live(w'.redis, Lockout(LockScope(user)), w'.now)
            <==> L.LockedOut(cfg, Mistakes(cfg, g, w, steps, user), w'.now)
  {
    SeenRun(cfg, g, w, steps, w.tables);
    L.LockoutExact(cfg, L.Limits(w.now, w.redis, w.tables), SeenAll(cfg, g, w, steps), LockScope(user));
  }

  /** And the guessing bound covers both kinds together. */
  lemma SharedGuessingBound(cfg: Config, g: Generator, w: World, steps: seq<Step>, user: Uuid, a: int, n: nat)
    requires cfg.Sane() && Initial(w)
    ensures var l := L.Limits(w.now, w.redis, w.tables);
            var seen := SeenAll(cfg, g, w, steps);
            var b := a + n * cfg.lockoutSeconds;
            L.Failures(cfg, l, seen, LockScope(user), a, b)
            <= (n + 1 + L.Successes(cfg, l, seen, LockScope(user), a, b)) * cfg.maxFailedLogins
               + L.Unrecorded(cfg, l, seen, LockScope(user), a, b)
  {
    SeenRun(cfg, g, w, steps, w.tables);
    L.GuessingBound(cfg, L.Limits(w.now, w.redis, w.tables), SeenAll(cfg, g, w, steps), LockScope(user), a, n);
  }

  /** A request of either kind adds a mistake exactly if its check answers that
      the credential is wrong, and empties the list exactly if it passes. */
  lemma MistakesGrow(cfg: Config, g: Generator, w: World, steps: seq<Step>, q: Request, budget: nat)
    requires Guarded(q)
    ensures var w' := Run(cfg, g, w, steps);
            var answer := CheckedBy(cfg, g, w'.redis, w'.tables, w'.now, q, budget);
            Mistakes(cfg, g, w, steps + [Serve(q, budget)], q.user)
            == if answer == Raised(AuthError) then Mistakes(cfg, g, w, steps, q.user) + [w'.now]
               else if answer.Ok? then []
               else Mistakes(cfg, g, w, steps, q.user)
  {
    HistoryAppend(cfg, g, w, steps, Serve(q, budget), w.tables, LockScope(q.user), []);
  }

  lemma {:induction false} HistoryAppend(cfg: Config, g: Generator, w: World, steps: seq<Step>, last: Step, t: Tables,
                                         scope: string, before: seq<int>)
    ensures var w' := Run(cfg, g, w, steps);
            var l := L.Limits(w'.now, w'.redis, t);
            var seen := Seen(cfg, g, w', last);
            var h := L.History(cfg, L.Limits(w.now, w.redis, t), SeenAll(cfg, g, w, steps), scope, before);
            L.History(cfg, L.Limits(w.now, w.redis, t), SeenAll(cfg, g, w, steps + [last]), scope, before)
            == if L.Fails(l, seen, scope) then h + [w'.now]
               else if L.Succeeds(l, seen, scope) then [] else h
    decreases |steps|
  {
    hide L.Fails, L.Succeeds, Seen, L.Next, Next;
    if steps == [] {
      assert steps + [last] == [last];
      assert SeenAll(cfg, g, w, [last])
             == [Seen(cfg, g, w, last)] + SeenAll(cfg, g, Next(cfg, g, w, last), [last][1..]);
      assert [last][1..] == [];
      assert SeenAll(cfg, g, w, [last]) == [Seen(cfg, g, w, last)];
    } else {
      var all := SeenAll(cfg, g, w, steps + [last]);
      var w1 := Next(cfg, g, w, steps[0]);
      assert (steps + [last])[1..] == steps[1..] + [last];
      SeenStep(cfg, g, w, steps[0], t);
      var l := L.Limits(w.now, w.redis, t);
      var first := Seen(cfg, g, w, steps[0]);
      HistoryAppend(cfg, g, w1, steps[1..], last, t, scope,
                    if L.Fails(l, first, scope) then before + [w.now]
                    else if L.Succeeds(l, first, scope) then [] else before);
      assert all[1..] == SeenAll(cfg, g, w1, steps[1..] + [last]);
      assert SeenAll(cfg, g, w, steps)[1..] == SeenAll(cfg, g, w1, steps[1..]);
    }
  }
}
