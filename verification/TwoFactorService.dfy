/** The two-factor service over one request's connections, and its requests
    inside the unit of work. */
module TwoFactorService {
  import opened Base
  import opened Stores
  import opened RateLimit
  import opened RateLimitRuns
  import opened TwoFactor

  class TwoFactorManager {
    const cfg: Config
    const g: Generator
    const conn: Connection<Tables>
    const limiter: RateLimiter<Tables>

    constructor (cfg: Config, g: Generator, conn: Connection<Tables>)
      ensures this.cfg == cfg && this.g == g && this.conn == conn && Valid()
    {
      this.cfg := cfg;
      this.g := g;
      this.conn := conn;
      limiter := new RateLimiter(cfg, conn);
    }

    ghost predicate Valid() {
      limiter.cfg == cfg && limiter.conn == conn
    }

    method StartSetup(user: Uuid, passwordOk: bool, secret: Uuid, now: int) returns (r: Attempt<()>)
      modifies conn
      ensures var p := SetupPlan(old(conn.working), now, user, passwordOk, secret);
              conn.Did(old(conn.Snapshot()), old(conn.budget), now, p.cmds) && r == p.Ending(old(conn.budget))
    {
      hide Reach;
      ghost var s0, b0 := conn.Snapshot(), conn.budget;
      ghost var write: FactorCommand :=
          Write(conn.working.(factors := conn.working.factors[user := Factor(secret, false, None)]));
      ghost var select: seq<FactorCommand> := [Select];
      ReachNothing(s0, b0, now);
      ReachConcat(s0, b0, now, select, [write]);
      assert select + [write] == [Select, write];
      if !passwordOk {
        return Raised(AuthError);
      }
      var t :- conn.Query(now);
      if user in t.factors && t.factors[user].enabled {
        return Raised(Conflict);
      }
      var factor := if user in t.factors
                    then t.factors[user].(secret := secret, enabled := false, verifiedAt := None)
                    else Factor(secret, false, None);
      var _ :- conn.Flush(t.(factors := t.factors[user := factor]), now);
      return Ok(());
    }

    method ConfirmSetup(user: Uuid, otp: string, now: int) returns (r: Attempt<()>)
      modifies conn
      ensures var p := ConfirmPlan(cfg, g, old(conn.working), now, user, otp);
              conn.Did(old(conn.Snapshot()), old(conn.budget), now, p.cmds) && r == p.Ending(old(conn.budget))
    {
      hide Reach;
      ghost var s0, b0 := conn.Snapshot(), conn.budget;
      ghost var p := ConfirmPlan(cfg, g, conn.working, now, user, otp);
      ghost var select: seq<FactorCommand> := [Select];
      ReachConcat(s0, b0, now, select, p.cmds[1..]);
      assert select + p.cmds[1..] == p.cmds;
      var t :- conn.Query(now);
      if user !in t.factors {
        return Raised(NotFound);
      }
      if t.factors[user].enabled {
        return Raised(Conflict);
      }
      if !Accepts(cfg, g, t.factors[user].secret, otp, now) {
        return Raised(AuthError);
      }
      var factor := t.factors[user].(enabled := true);
      factor := factor.(verifiedAt := Some(now));
      assert p.cmds[1..] == [Write(t.(factors := t.factors[user := factor]))];
      var _ :- conn.Flush(t.(factors := t.factors[user := factor]), now);
      return Ok(());
    }

    /** Verify a one-time password, with lockout and replay protection. */
    method VerifyTotp(user: Uuid, otp: string, now: int) returns (r: Attempt<()>)
      requires Valid()
      modifies conn
      ensures var guard := TotpGuard(cfg, g, old(conn.redis), old(conn.working), now, user, otp);
              && conn.Did(old(conn.Snapshot()), old(conn.budget), now,
                          CheckCmds(cfg, old(conn.redis), now, LockScope(user), guard.between, guard.verdict))
              && r == CheckEnding(old(conn.redis), now, LockScope(user), guard, old(conn.budget))
      ensures r.Ok? ==> conn.working == old(conn.working)
    {
      hide Reach, FailureCmds, ClearCmds;
      var key := OtpUsed(user, otp);
      ghost var s0, b0 := conn.Snapshot(), conn.budget;
      ghost var guard := TotpGuard(cfg, g, conn.redis, conn.working, now, user, otp);
      CheckParts(cfg, s0, b0, now, LockScope(user), guard.between, guard.verdict);
      ghost var head: seq<FactorCommand> := [Exists(Lockout(LockScope(user)))];
      ghost var select: seq<FactorCommand> := [Select];
      ghost var used: seq<FactorCommand> := [Exists(key)];
      ghost var mark: seq<FactorCommand> := [Set(key, Mark, ReplaySeconds(cfg))];
      ReachConcat(s0, b0, now, head, select);
      ReachConcat(s0, b0, now, head + select, used);
      ReachConcat(s0, b0, now, head + select + used, mark);
      ReachConcat(s0, b0, now, head + select, guard.between[1..]);
      assert head + guard.between == head + select + guard.between[1..];
      var _ :- limiter.EnsureNotLocked(LockId(user), None, now);
      var t :- conn.Query(now);
      if !TwoFactorOn(t, user) {
        assert head + guard.between == head + select;
        ReachNothing(conn.Snapshot(), conn.budget, now);
        return Raised(Conflict);
      }
      assert head + guard.between == head + select + used || head + guard.between == head + select + used + mark;
      var replayed :- conn.RedisExists(key, now);
      if replayed || !Accepts(cfg, g, t.factors[user].secret, otp, now) {
        assert head + guard.between == head + select + used;
        limiter.RecordFailure(LockId(user), None, now);
        return Raised(AuthError);
      }
      assert head + guard.between == head + select + used + mark;
      var ttl := OTP_STEP * (2 * cfg.totpWindow + 1);
      var _ :- conn.RedisSet(key, Mark, ttl, now);
      limiter.ClearFailures(LockId(user), None, now);
      ClearWritesNothing<Tables>(LockScope(user));
      SameTables(s0, b0, now, CheckCmds(cfg, s0.redis, now, LockScope(user), guard.between, guard.verdict));
      return Ok(());
    }

    /** Spend the first unused code that matches. */
    method ConsumeRecoveryCode(user: Uuid, code: string, now: int) returns (r: Attempt<Uuid>)
      requires Valid()
      modifies conn
      ensures var guard := RecoveryGuard(old(conn.working), now, user, code);
              && conn.Did(old(conn.Snapshot()), old(conn.budget), now,
                          CheckCmds(cfg, old(conn.redis), now, LockScope(user), guard.between, guard.verdict))
              && Yielding(r, ()) == CheckEnding(old(conn.redis), now, LockScope(user), guard, old(conn.budget))
      ensures var m := Match(old(conn.working).codes, user, Normalize(code), 0);
              r.Ok? ==> m.Some? && r.value == old(conn.working).codes[m.value].id
                        && conn.working == Spend(old(conn.working), m.value, now)
    {
      hide Reach, FailureCmds, ClearCmds;
      ghost var s0, b0 := conn.Snapshot(), conn.budget;
      ghost var guard := RecoveryGuard(conn.working, now, user, code);
      CheckParts(cfg, s0, b0, now, LockScope(user), guard.between, guard.verdict);
      ghost var head: seq<FactorCommand> := [Exists(Lockout(LockScope(user)))];
      ghost var select: seq<FactorCommand> := [Select];
      ReachConcat(s0, b0, now, head, select);
      ReachConcat(s0, b0, now, head + select, guard.between[1..]);
      assert head + guard.between == head + select + guard.between[1..];
      assert head + select + [] == head + select;
      var _ :- limiter.EnsureNotLocked(LockId(user), None, now);
      var normalized := Normalize(code);
      var t :- conn.Query(now);
      ghost var s1, b1 := conn.Snapshot(), conn.budget;
      var i := 0;
      while i < |t.codes|
        invariant i <= |t.codes|
        invariant conn.Snapshot() == s1 && conn.budget == b1
        invariant Match(t.codes, user, normalized, 0) == Match(t.codes, user, normalized, i)
      {
        var candidate := t.codes[i];
        if candidate.user == user && candidate.usedAt.None? && candidate.text == normalized {
          var spent := t.codes[i := candidate.(usedAt := Some(now))];
          var flushed := conn.Flush(t.(codes := spent), now);
          if flushed.Raised? {
            return Raised(flushed.error);
          }
          limiter.ClearFailures(LockId(user), None, now);
          ClearWritesNothing<Tables>(LockScope(user));
          LastTables(s0, b0, now, head + select, Write(Spend(t, i, now)), ClearCmds(LockScope(user)));
          return Ok(candidate.id);
        }
        i := i + 1;
      }
      limiter.RecordFailure(LockId(user), None, now);
      return Raised(AuthError);
    }

    method GenerateRecoveryCodes(user: Uuid, replace: bool, drawn: seq<Drawn>, now: int) returns (r: Attempt<()>)
      modifies conn
      ensures var p := GeneratePlan(old(conn.working), user, replace, drawn);
              conn.Did(old(conn.Snapshot()), old(conn.budget), now, p.cmds) && r == p.Ending(old(conn.budget))
    {
      hide Reach;
      ghost var s0, b0 := conn.Snapshot(), conn.budget;
      ghost var t0 := conn.working;
      ghost var p := GeneratePlan(t0, user, replace, drawn);
      ghost var select: seq<FactorCommand> := [Select];
      ghost var forget: seq<FactorCommand> := if replace then [Write(WithoutCodes(t0, user))] else [];
      ReachConcat(s0, b0, now, select, forget);
      ReachConcat(s0, b0, now, select + forget, p.cmds[|select + forget|..]);
      assert p.result.Ok? ==> p.cmds == select + forget + p.cmds[|select + forget|..];
      assert select + [] == select;
      var t :- conn.Query(now);
      var existing := Remaining(t.codes, user);
      if existing != 0 && !replace {
        return Raised(Conflict);
      }
      if replace {
        t := WithoutCodes(t, user);
        var _ :- conn.Flush(t, now);
      }
      assert p.cmds[|select + forget|..] == [Write(WithBatch(t, user, drawn))];
      var _ :- conn.Flush(WithBatch(t, user, drawn), now);
      return Ok(());
    }

    /** The last part of switching two-factor off. */
    method Remove(user: Uuid, now: int) returns (r: Attempt<()>)
      modifies conn
      ensures var p := RemovePlan(old(conn.working), user);
              conn.Did(old(conn.Snapshot()), old(conn.budget), now, p.cmds) && r == p.Ending(old(conn.budget))
    {
      hide Reach;
      ghost var s0, b0 := conn.Snapshot(), conn.budget;
      ghost var t0 := conn.working;
      ghost var p := RemovePlan(t0, user);
      ghost var select: seq<FactorCommand> := [Select];
      ghost var drop: seq<FactorCommand> := if user in t0.factors then [Write(WithoutFactor(t0, user))] else [];
      ReachConcat(s0, b0, now, select, drop);
      ReachConcat(s0, b0, now, select + drop, p.cmds[|select + drop|..]);
      assert p.cmds == select + drop + p.cmds[|select + drop|..];
      assert select + [] == select;
      var t :- conn.Query(now);
      if user in t.factors {
        t := WithoutFactor(t, user);
        var _ :- conn.Flush(t, now);
      }
      assert p.cmds[|select + drop|..] == [Write(WithoutCodes(t, user))];
      var _ :- conn.Flush(WithoutCodes(t, user), now);
      return Ok(());
    }

    /** The request has issued its plan and answered as the plan ends; an error
        of its check is the answer. */
    ghost predicate Answered(q: Request, s: State<Tables>, before: nat, now: int, r: Attempt<()>)
      reads conn
    {
      var p := RequestPlan(cfg, g, s.redis, s.working, now, q);
      && conn.Did(s, before, now, p.cmds)
      && (r.Ok? <==> p.Ending(before).Ok?)
      && (|p.cmds| <= before ==> r == p.result)
      && (Guarded(q) ==>
            var checked := CheckedBy(cfg, g, s.redis, s.working, now, q, before);
            checked.Raised? ==> r == checked)
    }

    method LoginOtp(q: Request, now: int) returns (r: Attempt<()>)
      requires Valid() && q.TotpLogin?
      modifies conn
      ensures Answered(q, old(conn.Snapshot()), old(conn.budget), now, r)
    {
      hide Reach, CheckCmds, TotpGuard;
      RouteParts(cfg, g, conn.Snapshot(), conn.budget, now, q);
      var _ :- VerifyTotp(q.user, q.otp, now);
      ReachBroke(conn.Snapshot(), now, Body(conn.working, now, q).cmds);
      r := conn.Flush(Opened(conn.working, q.sid, q.user, None), now);
    }

    method LoginRecoveryCode(q: Request, now: int) returns (r: Attempt<()>)
      requires Valid() && q.RecoveryLogin?
      modifies conn
      ensures Answered(q, old(conn.Snapshot()), old(conn.budget), now, r)
    {
      hide Reach, CheckCmds, Normalize;
      ghost var t0 := conn.working;
      RouteParts(cfg, g, conn.Snapshot(), conn.budget, now, q);
      var id := ConsumeRecoveryCode(q.user, q.code, now);
      if id.Raised? {
        return Raised(id.error);
      }
      ReachBroke(conn.Snapshot(), now, Body(t0, now, q).cmds);
      r := conn.Flush(Opened(conn.working, q.sid, q.user, Some(id.value)), now);
    }

    method RecoveryCodes(q: Request, now: int) returns (r: Attempt<()>)
      requires Valid() && q.Generate?
      modifies conn
      ensures Answered(q, old(conn.Snapshot()), old(conn.budget), now, r)
    {
      hide Reach, CheckCmds, TotpGuard, GeneratePlan;
      ReachNothing(conn.Snapshot(), conn.budget, now);
      if !q.passwordOk {
        return Raised(AuthError);
      }
      RouteParts(cfg, g, conn.Snapshot(), conn.budget, now, q);
      var _ :- VerifyTotp(q.user, q.otp, now);
      ReachBroke(conn.Snapshot(), now, Body(conn.working, now, q).cmds);
      r := GenerateRecoveryCodes(q.user, q.replace, q.drawn, now);
    }

    method Disable(q: Request, now: int) returns (r: Attempt<()>)
      requires Valid() && q.Disable?
      modifies conn
      ensures Answered(q, old(conn.Snapshot()), old(conn.budget), now, r)
    {
      hide Reach, CheckCmds, TotpGuard, RemovePlan;
      ReachNothing(conn.Snapshot(), conn.budget, now);
      if !q.passwordOk {
        return Raised(AuthError);
      }
      RouteParts(cfg, g, conn.Snapshot(), conn.budget, now, q);
      var _ :- VerifyTotp(q.user, q.otp, now);
      ReachBroke(conn.Snapshot(), now, Body(conn.working, now, q).cmds);
      r := Remove(q.user, now);
    }

    /** The route a request goes to. */
    method Dispatch(q: Request, now: int) returns (r: Attempt<()>)
      requires Valid() && conn.working == conn.committed
      modifies conn
      ensures Answered(q, old(conn.Snapshot()), old(conn.budget), now, r)
    {
      match q
      case Setup(user, passwordOk, secret) =>
        r := StartSetup(user, passwordOk, secret, now);
      case Confirm(user, otp) =>
        r := ConfirmSetup(user, otp, now);
      case TotpLogin(_, _, _) =>
        r := LoginOtp(q, now);
      case RecoveryLogin(_, _, _) =>
        r := LoginRecoveryCode(q, now);
      case Generate(_, _, _, _, _) =>
        r := RecoveryCodes(q, now);
      case Disable(_, _, _) =>
        r := Disable(q, now);
    }

    /** One request in its unit of work is one step of the specification. */
    method Serve(q: Request, now: int, ghost minted: set<Uuid>) returns (r: Attempt<()>)
      requires Valid() && conn.working == conn.committed
      modifies conn
      ensures var w := World(now, old(conn.redis), old(conn.committed), minted);
              var w' := TwoFactor.Next(cfg, g, w, TwoFactor.Serve(q, old(conn.budget)));
              && conn.redis == w'.redis && conn.committed == w'.tables && conn.working == w'.tables
              && (r.Ok? <==> Done(cfg, g, w, TwoFactor.Serve(q, old(conn.budget))))
      ensures Guarded(q) ==>
                var checked := CheckedBy(cfg, g, old(conn.redis), old(conn.working), now, q, old(conn.budget));
                checked.Raised? ==> r == checked
    {
      hide Reach, RequestPlan;
      ghost var s0, b0 := conn.Snapshot(), conn.budget;
      ghost var p := RequestPlan(cfg, g, conn.redis, conn.working, now, q);
      ReachConcat(s0, b0, now, p.cmds, [Commit]);
      r := Dispatch(q, now);
      if r.Ok? {
        r := conn.CommitWork(now);
      }
      if r.Raised? {
        conn.Rollback();
      }
    }
  }

  /** A check, command by command: the lock, what comes before the verdict, the limiter's tail. */
  lemma CheckParts<T>(cfg: Config, s: State<T>, budget: nat, now: int, scope: string, between: seq<Command<T>>,
                      verdict: Verdict)
    ensures var head: seq<Command<T>> := [Exists(Lockout(scope))];
            var all := CheckCmds(cfg, s.redis, now, scope, between, verdict);
            var tail := TailCmds<T>(cfg, s.redis, now, scope, verdict);
            && (Live(s.redis, Lockout(scope), now) ==> all == head)
            && (budget == 0 ==> Reach(s, budget, now, all) == Reach(s, budget, now, head))
            && (!Live(s.redis, Lockout(scope), now) ==> all == head + between + tail)
            && (!Live(s.redis, Lockout(scope), now) && budget < |head + between| ==>
                  Reach(s, budget, now, all) == Reach(s, budget, now, head + between))
            && (!Live(s.redis, Lockout(scope), now) && |head + between| <= budget ==>
                  Reach(s, budget, now, all)
                  == Reach(Reach(s, budget, now, head + between), budget - |head + between|, now, tail))
  {
    hide Reach;
    var head: seq<Command<T>> := [Exists(Lockout(scope))];
    var tail := TailCmds<T>(cfg, s.redis, now, scope, verdict);
    if Live(s.redis, Lockout(scope), now) {
      assert head + [] == head;
    } else {
      assert head + between + tail == head + (between + tail);
      ReachConcat(s, budget, now, head + between, tail);
      ReachConcat(s, budget, now, head, between + tail);
    }
  }

  /** A guarded request is its check and then its body. */
  lemma RouteParts(cfg: Config, g: Generator, s: State<Tables>, budget: nat, now: int, q: Request)
    requires Guarded(q)
    ensures var guard := GuardOf(cfg, g, s.redis, s.working, now, q);
            var check := CheckCmds(cfg, s.redis, now, LockScope(q.user), guard.between, guard.verdict);
            var body := Body(s.working, now, q).cmds;
            && 1 <= |check|
            && (!Live(s.redis, Lockout(LockScope(q.user)), now) ==> 1 + |guard.between| <= |check|)
            && (Body(s.working, now, q).result.Ok? ==> 1 <= |body|)
            && (budget < |check| ==> Reach(s, budget, now, check + body) == Reach(s, budget, now, check))
            && (|check| <= budget ==>
                  Reach(s, budget, now, check + body)
                      == Reach(Reach(s, budget, now, check), budget - |check|, now, body))
  {
    hide Reach;
    var guard := GuardOf(cfg, g, s.redis, s.working, now, q);
    var check := CheckCmds(cfg, s.redis, now, LockScope(q.user), guard.between, guard.verdict);
    ReachConcat(s, budget, now, check, Body(s.working, now, q).cmds);
    CheckLength(cfg, s.redis, now, LockScope(q.user), guard);
    BodyLength(s.working, now, q);
  }

  lemma CheckLength(cfg: Config, redis: Cache, now: int, scope: string, guard: Guard)
    ensures !Live(redis, Lockout(scope), now) ==>
              1 + |guard.between| <= |CheckCmds(cfg, redis, now, scope, guard.between, guard.verdict)|
    ensures 1 <= |CheckCmds(cfg, redis, now, scope, guard.between, guard.verdict)|
  {
  }

  lemma ClearWritesNothing<T>(scope: string)
    ensures forall c | c in ClearCmds<T>(scope) :: !c.Write?
  {
  }

  /** A broken connection changes nothing. */
  lemma ReachBroke<T>(s: State<T>, now: int, cmds: seq<Command<T>>)
    ensures Reach(s, 0, now, cmds) == s
  {
    assert Cut(cmds, 0) == [];
  }

  lemma BodyLength(t: Tables, now: int, q: Request)
    ensures Guarded(q) && Body(t, now, q).result.Ok? ==> 1 <= |Body(t, now, q).cmds|
  {
  }

  /** Commands that write no tables leave them as they were. */
  lemma SameTables<T>(s: State<T>, budget: nat, now: int, cmds: seq<Command<T>>)
    ensures (forall c | c in cmds :: !c.Write?) ==> Reach(s, budget, now, cmds).working == s.working
  {
    if forall c | c in cmds :: !c.Write? {
      WritesNothing(s, now, Cut(cmds, budget));
    }
  }

  lemma LastTables<T>(s: State<T>, budget: nat, now: int, a: seq<Command<T>>, write: Command<T>, b: seq<Command<T>>)
    requires write.Write? && |a| < budget && forall c | c in b :: !c.Write?
    ensures Reach(s, budget, now, a + [write] + b).working == write.tables
  {
    ReachConcat(s, budget, now, a + [write], b);
    assert Cut(a + [write], budget) == a + [write];
    LastWrite(s, now, a, write);
    SameTables(Reach(s, budget, now, a + [write]), budget - |a| - 1, now, b);
  }
}
