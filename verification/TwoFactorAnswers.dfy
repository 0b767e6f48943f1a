/** What the two-factor requests answer and leave behind, said in terms of the
    tables, the Redis keys and the clock alone. */
module TwoFactorAnswers {
  import opened Base
  import opened Stores
  import opened RateLimit
  import opened RateLimitRuns
  import opened TwoFactor

  /** The digits are those of `step`, and `now` is within the validity window,
      `W` steps of thirty seconds to either side. */
  predicate Valid(cfg: Config, g: Generator, secret: Uuid, otp: string, step: int, now: int) {
    g(secret, step) == otp && 30 * (step - cfg.totpWindow) <= now < 30 * (step + cfg.totpWindow + 1)
  }

  lemma AcceptsExactly(cfg: Config, g: Generator, secret: Uuid, otp: string, now: int)
    ensures Accepts(cfg, g, secret, otp, now) <==> exists step :: Valid(cfg, g, secret, otp, step, now)
  {
    if Accepts(cfg, g, secret, otp, now) {
      var step :| now / OTP_STEP - cfg.totpWindow <= step <= now / OTP_STEP + cfg.totpWindow && g(secret, step) == otp;
      assert Valid(cfg, g, secret, otp, step, now);
    }
    if step :| Valid(cfg, g, secret, otp, step, now) {
      assert now / OTP_STEP - cfg.totpWindow <= step <= now / OTP_STEP + cfg.totpWindow;
      assert g(secret, step) == otp;
    }
  }

  /** The request verifies a one-time password. */
  predicate VerifiesOtp(q: Request) {
    Guarded(q) && !q.RecoveryLogin?
  }

  /** An OTP check passes exactly if two-factor is on, the user is not locked
      out, the digits are not marked as used, and they are valid now. */
  lemma OtpPassesExactly(cfg: Config, g: Generator, w: TwoFactor.World, q: Request, budget: nat)
    requires VerifiesOtp(q)
    ensures CheckedBy(cfg, g, w.redis, w.tables, w.now, q, budget).Ok? <==>
              && 4 <= budget
              && q.user in w.tables.factors && w.tables.factors[q.user].enabled
              && !Live(w.redis, Lockout(LockScope(q.user)), w.now) && !Live(w.redis, OtpUsed(q.user, q.otp), w.now)
              && exists step :: Valid(cfg, g, w.tables.factors[q.user].secret, q.otp, step, w.now)
  {
    if q.user in w.tables.factors {
      AcceptsExactly(cfg, g, w.tables.factors[q.user].secret, q.otp, w.now);
    }
    hide Accepts, Valid;
  }

  /** And otherwise the answer says why. */
  lemma OtpRefusedExactly(cfg: Config, g: Generator, w: TwoFactor.World, q: Request, budget: nat)
    requires VerifiesOtp(q) && 4 <= budget
    ensures var answer := CheckedBy(cfg, g, w.redis, w.tables, w.now, q, budget);
            var locked := Live(w.redis, Lockout(LockScope(q.user)), w.now);
            var on := q.user in w.tables.factors && w.tables.factors[q.user].enabled;
            && (answer == Raised(AccountLocked) <==> locked)
            && (answer == Raised(Conflict) <==> !locked && !on)
            && (answer == Raised(AuthError) <==>
                  && !locked && on
                  && (Live(w.redis, OtpUsed(q.user, q.otp), w.now)
                      || !exists step :: Valid(cfg, g, w.tables.factors[q.user].secret, q.otp, step, w.now)))
  {
    if q.user in w.tables.factors {
      AcceptsExactly(cfg, g, w.tables.factors[q.user].secret, q.otp, w.now);
    }
    hide Accepts, Valid;
  }

  /** A whole OTP login: it succeeds exactly as its check does, and then opens a
      session for the user and changes nothing else in the tables. */
  lemma TotpLoginExactly(cfg: Config, g: Generator, w: TwoFactor.World, q: Request, budget: nat)
    requires q.TotpLogin? && |Issued(cfg, g, w, q).cmds| <= budget
    ensures var step := TwoFactor.Serve(q, budget);
            && (TwoFactor.Done(cfg, g, w, step) <==>
                  && q.user in w.tables.factors && w.tables.factors[q.user].enabled
                  && !Live(w.redis, Lockout(LockScope(q.user)), w.now) && !Live(w.redis, OtpUsed(q.user, q.otp), w.now)
                  && exists s :: Valid(cfg, g, w.tables.factors[q.user].secret, q.otp, s, w.now))
            && TwoFactor.Next(cfg, g, w, step).tables
               == if TwoFactor.Done(cfg, g, w, step)
                  then w.tables.(sessions := w.tables.sessions + [Opening(q.sid, q.user, None)]) else w.tables
  {
    RequestTables(cfg, g, w, TwoFactor.Serve(q, budget));
    OtpPassesExactly(cfg, g, w, q, 4);
    hide Accepts, Valid, CheckCmds;
  }

  /** Confirming a setup: exactly when a secret is pending and the digits are
      valid now; it enables that secret and changes nothing else. */
  lemma ConfirmExactly(cfg: Config, g: Generator, w: TwoFactor.World, q: Request, budget: nat)
    requires q.Confirm? && 3 <= budget
    ensures var step := TwoFactor.Serve(q, budget);
            && (TwoFactor.Done(cfg, g, w, step) <==>
                  && q.user in w.tables.factors && !w.tables.factors[q.user].enabled
                  && exists s :: Valid(cfg, g, w.tables.factors[q.user].secret, q.otp, s, w.now))
            && TwoFactor.Next(cfg, g, w, step).tables
               == if TwoFactor.Done(cfg, g, w, step)
                  then w.tables.(factors := w.tables.factors[
                                   q.user := Factor(w.tables.factors[q.user].secret, true, Some(w.now))])
                  else w.tables
  {
    RequestTables(cfg, g, w, TwoFactor.Serve(q, budget));
    if q.user in w.tables.factors {
      AcceptsExactly(cfg, g, w.tables.factors[q.user].secret, q.otp, w.now);
    }
    hide Accepts, Valid;
  }

  /** Starting a setup: exactly with the right password and while two-factor is
      off; it stores the new secret as pending, not enabled. */
  lemma SetupExactly(cfg: Config, g: Generator, w: TwoFactor.World, q: Request, budget: nat)
    requires q.Setup? && 3 <= budget
    ensures var step := TwoFactor.Serve(q, budget);
            && (TwoFactor.Done(cfg, g, w, step) <==>
                  q.passwordOk && !(q.user in w.tables.factors && w.tables.factors[q.user].enabled))
            && TwoFactor.Next(cfg, g, w, step).tables
               == if TwoFactor.Done(cfg, g, w, step)
                  then w.tables.(factors := w.tables.factors[q.user := Factor(q.secret, false, None)]) else w.tables
  {
    RequestTables(cfg, g, w, TwoFactor.Serve(q, budget));
  }

  /** Switching two-factor off: exactly with the right password and digits; then
      the user has neither factor nor codes, and nobody else is affected. */
  lemma DisableExactly(cfg: Config, g: Generator, w: TwoFactor.World, q: Request, budget: nat)
    requires q.Disable? && |Issued(cfg, g, w, q).cmds| <= budget
    ensures var step := TwoFactor.Serve(q, budget);
            var t, t' := w.tables, TwoFactor.Next(cfg, g, w, step).tables;
            && (TwoFactor.Done(cfg, g, w, step) <==>
                  && q.passwordOk && q.user in t.factors && t.factors[q.user].enabled
                  && !Live(w.redis, Lockout(LockScope(q.user)), w.now) && !Live(w.redis, OtpUsed(q.user, q.otp), w.now)
                  && exists s :: Valid(cfg, g, t.factors[q.user].secret, q.otp, s, w.now))
            && (TwoFactor.Done(cfg, g, w, step) ==>
                  && q.user !in t'.factors && t'.sessions == t.sessions
                  && (forall user | user != q.user ::
                        (user in t'.factors <==> user in t.factors)
                        && (user in t.factors ==> t'.factors[user] == t.factors[user]))
                  && (forall row :: row in t'.codes <==> row in t.codes && row.user != q.user))
            && (!TwoFactor.Done(cfg, g, w, step) ==> t' == t)
  {
    RequestTables(cfg, g, w, TwoFactor.Serve(q, budget));
    if q.passwordOk {
      OtpPassesExactly(cfg, g, w, q, 4);
    }
    hide Accepts, Valid, CheckCmds;
  }

  /** Asking for codes: exactly with the right password and digits, and without
      replacing only while none is unused. The user then has the codes drawn,
      unused - those alone if they replace the earlier ones. */
  lemma GenerateExactly(cfg: Config, g: Generator, w: TwoFactor.World, q: Request, budget: nat)
    requires q.Generate? && |Issued(cfg, g, w, q).cmds| <= budget
    ensures var step := TwoFactor.Serve(q, budget);
            var t, t' := w.tables, TwoFactor.Next(cfg, g, w, step).tables;
            && (TwoFactor.Done(cfg, g, w, step) <==>
                  && q.passwordOk && q.user in t.factors && t.factors[q.user].enabled
                  && !Live(w.redis, Lockout(LockScope(q.user)), w.now) && !Live(w.redis, OtpUsed(q.user, q.otp), w.now)
                  && (exists s :: Valid(cfg, g, t.factors[q.user].secret, q.otp, s, w.now))
                  && (q.replace || forall row | row in t.codes :: !(row.user == q.user && row.usedAt.None?)))
            && (TwoFactor.Done(cfg, g, w, step) ==>
                  && t'.factors == t.factors && t'.sessions == t.sessions
                  && forall row :: row in t'.codes <==>
                       || (row in t.codes && (row.user != q.user || !q.replace))
                       || (row.user == q.user && row.usedAt.None? && Drawn(row.id, row.text) in q.drawn))
            && (!TwoFactor.Done(cfg, g, w, step) ==> t' == t)
  {
    RequestTables(cfg, g, w, TwoFactor.Serve(q, budget));
    if q.passwordOk {
      OtpPassesExactly(cfg, g, w, q, 4);
    }
    NoneRemaining(w.tables.codes, q.user);
    BatchExactly(q.user, q.drawn);
    hide Accepts, Valid, CheckCmds, Batch;
  }

  lemma {:induction false} NoneRemaining(codes: seq<CodeRow>, user: Uuid)
    ensures Remaining(codes, user) == 0 <==> forall row | row in codes :: !(row.user == user && row.usedAt.None?)
  {
    if codes != [] {
      NoneRemaining(codes[1..], user);
      assert codes[0] in codes;
    }
  }

  lemma BatchExactly(user: Uuid, drawn: seq<Drawn>)
    ensures forall row: CodeRow :: row in Batch(user, drawn) <==>
              row.user == user && row.usedAt.None? && Drawn(row.id, row.text) in drawn
  {
    forall row: CodeRow | row.user == user && row.usedAt.None? && Drawn(row.id, row.text) in drawn
      ensures row in Batch(user, drawn)
    {
      var k :| 0 <= k < |drawn| && drawn[k] == Drawn(row.id, row.text);
      assert Batch(user, drawn)[k] == row;
    }
  }

  /** A recovery check passes exactly if the user is not locked out and has an
      unused code that matches what was typed. */
  lemma RecoveryPassesExactly(cfg: Config, g: Generator, w: TwoFactor.World, q: Request, budget: nat)
    requires q.RecoveryLogin?
    ensures CheckedBy(cfg, g, w.redis, w.tables, w.now, q, budget).Ok? <==>
              && 3 <= budget && !Live(w.redis, Lockout(LockScope(q.user)), w.now)
              && exists row | row in w.tables.codes ::
                   row.user == q.user && row.usedAt.None? && row.text == Normalize(q.code)
  {
    hide Normalize;
    var m := Match(w.tables.codes, q.user, Normalize(q.code), 0);
    if m.Some? {
      assert w.tables.codes[m.value] in w.tables.codes;
    }
  }

  /** And a login with it spends one such code, stamped with the time, and opens
      the session that stands for it; every other code stays as it was. */
  lemma RecoveryLoginOutcome(cfg: Config, g: Generator, w: TwoFactor.World, q: Request, budget: nat)
    requires q.RecoveryLogin? && |Issued(cfg, g, w, q).cmds| <= budget
    ensures var step := TwoFactor.Serve(q, budget);
            var t, t' := w.tables, TwoFactor.Next(cfg, g, w, step).tables;
            && (TwoFactor.Done(cfg, g, w, step) <==>
                  CheckedBy(cfg, g, w.redis, t, w.now, q, |Issued(cfg, g, w, q).cmds|).Ok?)
            && (!TwoFactor.Done(cfg, g, w, step) ==> t' == t)
            && (TwoFactor.Done(cfg, g, w, step) ==>
                  exists i | 0 <= i < |t.codes| ::
                    && t.codes[i].user == q.user && t.codes[i].usedAt.None? && t.codes[i].text == Normalize(q.code)
                    && t' == t.(codes := t.codes[i := t.codes[i].(usedAt := Some(w.now))],
                                sessions := t.sessions + [Opening(q.sid, q.user, Some(t.codes[i].id))]))
  {
    hide Normalize;
    RequestTables(cfg, g, w, TwoFactor.Serve(q, budget));
    CheckIsLong(cfg, w.redis, w.now, LockScope(q.user), RecoveryGuard(w.tables, w.now, q.user, q.code));
    hide CheckCmds;
    var m := Match(w.tables.codes, q.user, Normalize(q.code), 0);
    if m.Some? {
      assert 0 <= m.value < |w.tables.codes|;
    }
  }

  lemma CheckIsLong(cfg: Config, redis: Cache, now: int, scope: string, guard: Guard)
    ensures var cmds := CheckCmds(cfg, redis, now, scope, guard.between, guard.verdict);
            1 <= |cmds| && (!Live(redis, Lockout(scope), now) ==> 1 + |guard.between| <= |cmds|)
  {
  }

  // ------------------------------------------------- whose lock

  lemma {:induction false} DigitsDiffer(a: nat, b: nat)
    requires Digits(a) == Digits(b)
    ensures a == b
    decreases a
  {
    LastDigit(a);
    LastDigit(b);
    if 10 <= a && 10 <= b {
      assert Digits(a)[..|Digits(a)| - 1] == Digits(a / 10) && Digits(b)[..|Digits(b)| - 1] == Digits(b / 10);
      DigitsDiffer(a / 10, b / 10);
    }
  }

  lemma {:induction false} LastDigit(n: nat)
    ensures Digits(n) != [] && Digits(n)[|Digits(n)| - 1] as int == '0' as int + n % 10
    ensures 10 <= n ==> 2 <= |Digits(n)|
    ensures forall c | c in Digits(n) :: '0' <= c <= '9'
  {
    if 10 <= n {
      LastDigit(n / 10);
      LastDigit(n % 10);
    }
  }

  /** Two users' second factors never share a counter or a lock. */
  lemma LocksApart(a: Uuid, b: Uuid)
    requires LockScope(a) == LockScope(b)
    ensures a == b
  {
    LockScopeIs(a);
    LockScopeIs(b);
    assert LockScope(a)[4..] == Digits(a.n) && LockScope(b)[4..] == Digits(b.n);
    DigitsDiffer(a.n, b.n);
  }

  lemma LockScopeIs(user: Uuid)
    ensures LockScope(user) == "2fa:" + Digits(user.n)
  {
    LastDigit(user.n);
    var id := "2fa:" + Digits(user.n);
    forall i | 0 <= i < |id|
      ensures Lower(id)[i] == id[i]
    {
      if 4 <= i {
        assert id[i] in Digits(user.n);
      }
    }
    assert Lower(id) == id;
  }

  // ------------------------------------------------- typing a code

  predicate Blanks(s: string) {
    forall i | 0 <= i < |s| :: s[i] == ' ' || s[i] == '\t' || s[i] == '\n' || s[i] == '\r'
  }

  /** The same character, or the small letter for a capital. */
  predicate Typed(c: char, typed: char) {
    typed == c || ('A' <= c <= 'Z' && typed as int == c as int + 32)
  }

  lemma {:induction false} StripInside(left: string, typed: string, right: string)
    requires Blanks(left) && Blanks(right)
    requires forall i | 0 <= i < |typed| :: !Blanks([typed[i]])
    ensures Strip(left + typed + right) == typed
    decreases |left| + |right|
  {
    var s := left + typed + right;
    if left != [] {
      assert s[0] == left[0] && Blank(s[0]);
      assert s[1..] == left[1..] + typed + right;
      StripInside(left[1..], typed, right);
    } else if typed == [] {
      assert s == right;
      if right != [] {
        assert Blank(s[0]) && s[1..] == [] + typed + right[1..];
        StripInside([], typed, right[1..]);
      }
    } else {
      assert [typed[0]][0] == typed[0] && !Blank(s[0]) by { NotBlank(typed[0]); }
      if right != [] {
        var n := |right| - 1;
        assert s[|s| - 1] == right[n] && Blank(s[|s| - 1]);
        assert s[..|s| - 1] == [] + typed + right[..n];
        StripInside([], typed, right[..n]);
      } else {
        assert s == typed && s[|s| - 1] == typed[|typed| - 1];
        assert !Blank(s[|s| - 1]) by { NotBlank(typed[|typed| - 1]); }
      }
    }
  }

  lemma NotBlank(c: char)
    ensures Blanks([c]) <==> Blank(c)
  {
    assert [c][0] == c;
  }

  /** A code may be typed in capitals or small letters and with blanks around it. */
  lemma TypedCodeMatches(code: string, left: string, typed: string, right: string)
    requires Blanks(left) && Blanks(right) && |typed| == |code|
    requires forall i | 0 <= i < |code| :: Typed(code[i], typed[i]) && !('a' <= code[i] <= 'z') && !Blanks([code[i]])
    ensures Normalize(left + typed + right) == code
  {
    forall i | 0 <= i < |typed|
      ensures !Blanks([typed[i]])
    {
      NotBlank(typed[i]);
      NotBlank(code[i]);
    }
    StripInside(left, typed, right);
  }
}
