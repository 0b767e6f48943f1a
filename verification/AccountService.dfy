/** The account services over one request's connections, step by step, and
    their requests inside the unit of work. Provider calls are inputs. */
module AccountService {
  import opened Base
  import opened Stores
  import opened Accounts
  import opened AccountRuns

  class AccountManager {
    const cfg: Config
    const conn: Connection<Tables>

    constructor (cfg: Config, conn: Connection<Tables>)
      ensures this.cfg == cfg && this.conn == conn
    {
      this.cfg := cfg;
      this.conn := conn;
    }

    method GetByEmail(email: string, now: int) returns (r: Attempt<Option<Uuid>>)
      requires EmailsOk(conn.working)
      modifies conn
      ensures conn.Did(old(conn.Snapshot()), old(conn.budget), now, [Select])
      ensures r == if old(conn.budget) == 0 then Raised(StoreDown) else Ok(ByEmail(old(conn.working).users, email))
      ensures r.Ok? ==> conn.Snapshot() == old(conn.Snapshot())
    {
      var t :- conn.Query(now);
      if id :| id in t.users && HasEmail(t.users, id, email) {
        ghost var found := ByEmail(t.users, email);
        assert Lowered(t.users[id].email) && Lowered(t.users[found.value].email);
        return Ok(Some(id));
      }
      return Ok(None);
    }

    // --------------------------------------------- e-mail tokens

    /** Issue a token, superseding the one before it. */
    method Issue(raw: Uuid, token: EmailToken, now: int) returns (r: Attempt<()>)
      modifies conn
      ensures conn.Did(old(conn.Snapshot()), old(conn.budget), now, IssueCmds(old(conn.working), raw, token))
      ensures r == Plan(IssueCmds(old(conn.working), raw, token), Ok(())).Ending(old(conn.budget))
    {
      hide Reach;
      ghost var t0 := conn.working;
      ghost var forget: seq<AccountCommand> := [Write(Superseded(t0, token.user, token.purpose))];
      ghost var add: seq<AccountCommand> := [Write(Issuing(t0, raw, token))];
      ReachConcat(conn.Snapshot(), conn.budget, now, forget, add);
      assert IssueCmds(t0, raw, token) == forget + add;
      var _ :- conn.Flush(Superseded(conn.working, token.user, token.purpose), now);
      var _ :- conn.Flush(Added(conn.working, raw, token), now);
      return Ok(());
    }

    /** Use a token up, in this transaction. */
    method Consume(raw: Uuid, purpose: Purpose, now: int) returns (r: Attempt<EmailToken>)
      modifies conn
      ensures var p := ConsumePlan(old(conn.working), raw, purpose, now);
              conn.Did(old(conn.Snapshot()), old(conn.budget), now, p.cmds) && r == p.Ending(old(conn.budget))
      ensures r.Ok? ==> raw in old(conn.working).tokens && conn.working == Used(old(conn.working), raw, now)
    {
      hide Reach;
      ghost var s0, b0 := conn.Snapshot(), conn.budget;
      ghost var select: seq<AccountCommand> := [Select];
      ghost var p := ConsumePlan(conn.working, raw, purpose, now);
      ReachConcat(s0, b0, now, select, p.cmds[1..]);
      assert p.cmds == select + p.cmds[1..];
      var t :- conn.Query(now);
      if raw !in t.tokens || t.tokens[raw].purpose != purpose || t.tokens[raw].usedAt.Some? {
        return Raised(AuthError);
      }
      var expires := t.tokens[raw].expiresAt;
      if expires <= now {
        return Raised(AuthError);
      }
      var token := t.tokens[raw].(usedAt := Some(now));
      assert p.cmds[1..] == [Write(Used(t, raw, now))];
      var _ :- conn.Flush(t.(tokens := t.tokens[raw := token]), now);
      return Ok(token);
    }

    /** Verify an address, reset a password or confirm a new address, whichever
        the token is for. */
    method PresentToken(raw: Uuid, purpose: Purpose, password: string, now: int) returns (r: Attempt<Option<Uuid>>)
      modifies conn
      ensures var p := EffectPlan(old(conn.working), raw, purpose, now, password);
              conn.Did(old(conn.Snapshot()), old(conn.budget), now, p.cmds) && r == p.Ending(old(conn.budget))
    {
      hide Reach, ConsumePlan, EmailExists;
      ghost var s0, b0, t0 := conn.Snapshot(), conn.budget, conn.working;
      ghost var consume := ConsumePlan(t0, raw, purpose, now).cmds;
      ghost var select: seq<AccountCommand> := [Select];
      ConsumeResult(t0, raw, purpose, now);
      ReachConcat(s0, b0, now, consume, select);
      ghost var p := EffectPlan(t0, raw, purpose, now, password);
      ReachConcat(s0, b0, now, consume, p.cmds[|consume|..]);
      assert p.cmds == consume + p.cmds[|consume|..];
      var token :- Consume(raw, purpose, now);
      ghost var t1 := Used(t0, raw, now);
      assert t1.users == t0.users;
      ghost var user1 := if token.user in t0.users then Effect(t0.users[token.user], t0.tokens[raw], purpose, password)
                         else User("", "", false, false);
      ghost var write: seq<AccountCommand> := [Write(Changing(t1, token.user, user1))];
      ReachConcat(s0, b0, now, consume + select, write);
      ReachConcat(s0, b0, now, consume + select, select);
      ReachConcat(s0, b0, now, consume + select + select, write);
      assert consume + select + write == consume + [Select, write[0]];
      assert consume + select + select == consume + [Select, Select];
      assert consume + select + select + write == consume + [Select, Select, write[0]];
      var t :- conn.Query(now);
      if token.user !in t.users {
        return Raised(AuthError);
      }
      var user := t.users[token.user];
      match purpose {
        case VerifyEmail =>
          user := user.(verified := true);
        case ResetPassword =>
          user := user.(password := password);
        case ChangeEmail =>
          if token.newEmail.None? {
            return Raised(AuthError);
          }
          t :- conn.Query(now);
          if EmailExists(t.users, token.newEmail.value) {
            return Raised(Conflict);
          }
          user := user.(email := token.newEmail.value);
          user := user.(verified := true);
      }
      assert user == user1;
      var _ :- conn.Flush(Changing(t, token.user, user), now);
      return Ok(None);
    }

    method Register(id: Uuid, email: string, password: string, strong: bool, raw: Uuid, now: int)
      returns (r: Attempt<Option<Uuid>>)
      modifies conn
      ensures var p := RegisterPlan(cfg, old(conn.working), now, id, email, password, strong, raw);
              conn.Did(old(conn.Snapshot()), old(conn.budget), now, p.cmds) && r == p.Ending(old(conn.budget))
    {
      hide Reach, IssueCmds, EmailExists;
      ghost var s0, b0, t0 := conn.Snapshot(), conn.budget, conn.working;
      ghost var t1 := Changing(t0, id, User(Lower(email), password, true, false));
      ghost var select: seq<AccountCommand> := [Select];
      ghost var insert: seq<AccountCommand> := [Write(t1)];
      ReachNothing(s0, b0, now);
      ReachConcat(s0, b0, now, select, insert);
      ReachConcat(s0, b0, now, select + insert, IssueCmds(t1, raw, VerifyToken(cfg, id, now)));
      assert select + insert == [Select, Write(t1)];
      if !strong {
        return Raised(Invalid);
      }
      var t :- conn.Query(now);
      if EmailExists(t.users, email) {
        return Raised(Conflict);
      }
      var _ :- conn.Flush(Changing(t, id, User(Lower(email), password, true, false)), now);
      var _ :- Issue(raw, EmailToken(id, VerifyEmail, None, now + cfg.verifyHours * 3600, None), now);
      return Ok(None);
    }

    method ResendVerification(id: Uuid, raw: Uuid, now: int) returns (r: Attempt<Option<Uuid>>)
      modifies conn
      ensures var p := ResendPlan(cfg, old(conn.working), now, id, raw);
              conn.Did(old(conn.Snapshot()), old(conn.budget), now, p.cmds) && r == p.Ending(old(conn.budget))
    {
      hide Reach, IssueCmds;
      ReachConcat(conn.Snapshot(), conn.budget, now, [Select], IssueCmds(conn.working, raw, VerifyToken(cfg, id, now)));
      var t :- conn.Query(now);
      if id !in t.users {
        return Raised(AuthError);
      }
      if t.users[id].verified {
        return Raised(Conflict);
      }
      var _ :- Issue(raw, VerifyToken(cfg, id, now), now);
      return Ok(None);
    }

    /** Silent about whether the account exists. */
    method RequestPasswordReset(email: string, raw: Uuid, now: int) returns (r: Attempt<Option<Uuid>>)
      requires EmailsOk(conn.working)
      modifies conn
      ensures var p := ForgotPlan(cfg, old(conn.working), now, email, raw);
              conn.Did(old(conn.Snapshot()), old(conn.budget), now, p.cmds) && r == p.Ending(old(conn.budget))
    {
      hide Reach, IssueCmds;
      ghost var found := ByEmail(conn.working.users, email);
      if found.Some? {
        ReachConcat(conn.Snapshot(), conn.budget, now, [Select],
                    IssueCmds(conn.working, raw, ResetToken(cfg, found.value, now)));
      }
      var user :- GetByEmail(email, now);
      if user.None? || !conn.working.users[user.value].active {
        return Ok(None);
      }
      var _ :- Issue(raw, ResetToken(cfg, user.value, now), now);
      return Ok(None);
    }

    method RequestEmailChange(id: Uuid, email: string, password: string, raw: Uuid, now: int)
      returns (r: Attempt<Option<Uuid>>)
      modifies conn
      ensures var p := ChangePlan(cfg, old(conn.working), now, id, email, password, raw);
              conn.Did(old(conn.Snapshot()), old(conn.budget), now, p.cmds) && r == p.Ending(old(conn.budget))
    {
      hide Reach, IssueCmds, EmailExists;
      ghost var s0, b0 := conn.Snapshot(), conn.budget;
      ghost var select: seq<AccountCommand> := [Select];
      ReachConcat(s0, b0, now, select, select);
      ReachConcat(s0, b0, now, select + select, IssueCmds(conn.working, raw, ChangeToken(cfg, id, Lower(email), now)));
      assert select + select == [Select, Select];
      var t :- conn.Query(now);
      if id !in t.users || t.users[id].password != password {
        return Raised(AuthError);
      }
      var newEmail := Lower(email);
      if newEmail == t.users[id].email {
        return Raised(Invalid);
      }
      t :- conn.Query(now);
      if EmailExists(t.users, newEmail) {
        return Raised(Conflict);
      }
      var _ :- Issue(raw, ChangeToken(cfg, id, newEmail, now), now);
      return Ok(None);
    }

    // --------------------------------------------- OAuth

    method StartAuthorization(provider: string, available: bool, link: Option<Uuid>, state: Uuid, now: int)
      returns (r: Attempt<Option<Uuid>>)
      modifies conn
      ensures var p := StartPlan(cfg, provider, available, link, state);
              conn.Did(old(conn.Snapshot()), old(conn.budget), now, p.cmds) && r == p.Ending(old(conn.budget))
    {
      hide Reach;
      ReachNothing(conn.Snapshot(), conn.budget, now);
      if !available {
        return Raised(NotFound);
      }
      var _ :- conn.RedisSet(OAuthState(state), Authorization(provider, link), cfg.oauthStateSeconds, now);
      return Ok(None);
    }

    method PopState(state: Uuid, provider: string, now: int) returns (r: Attempt<Option<Uuid>>)
      modifies conn
      ensures var p: AccountPlan := Plan(PopCmds(old(conn.redis), now, state),
                                         Popped(old(conn.redis), now, provider, state));
              conn.Did(old(conn.Snapshot()), old(conn.budget), now, p.cmds) && r == p.Ending(old(conn.budget))
      ensures r.Ok? ==> conn.working == old(conn.working)
    {
      hide Reach;
      ghost var get: seq<AccountCommand> := [Exists(OAuthState(state))];
      ghost var drop: seq<AccountCommand> := [Delete(OAuthState(state))];
      ReachConcat(conn.Snapshot(), conn.budget, now, get, drop);
      assert PopCmds(conn.redis, now, state) == if Live(conn.redis, OAuthState(state), now) then get + drop else get;
      var raw :- conn.RedisGet(OAuthState(state), now);
      if raw.None? {
        return Raised(AuthError);
      }
      var _ :- conn.RedisDelete(OAuthState(state), now);
      match raw.value
      case Authorization(p, link) =>
        return if p != provider then Raised(AuthError) else Ok(link);
      case _ =>
        return Raised(AuthError);
    }

    method ResolveUser(info: UserInfo, link: Option<Uuid>, newId: Uuid, secret: string, now: int)
        returns (r: Attempt<Uuid>)
      requires EmailsOk(conn.working)
      modifies conn
      ensures var p := ResolvePlan(old(conn.working), info, link, newId, secret);
              conn.Did(old(conn.Snapshot()), old(conn.budget), now, p.cmds) && r == p.Ending(old(conn.budget))
      ensures r.Ok? ==> conn.working == Resolved(old(conn.working), info, link, newId, secret)
    {
      hide Reach, ByEmail;
      ghost var select: seq<AccountCommand> := [Select];
      ReachNothing(conn.Snapshot(), conn.budget, now);
      if link.Some? {
        var t :- conn.Query(now);
        return if link.value in t.users then Ok(link.value) else Raised(AuthError);
      }
      if info.email.None? || info.email.value == "" {
        return Raised(AuthError);
      }
      ghost var user := User(Lower(info.email.value), secret, true, info.emailVerified);
      ghost var insert: seq<AccountCommand> := [Write(Changing(conn.working, newId, user))];
      ReachConcat(conn.Snapshot(), conn.budget, now, select, insert);
      assert select + insert == [Select, insert[0]];
      assert ByEmail(conn.working.users, info.email.value).Some? ==>
          ByEmail(conn.working.users, info.email.value).value in conn.working.users;
      var existing :- GetByEmail(info.email.value, now);
      if existing.Some? {
        if info.emailVerified && conn.working.users[existing.value].verified {
          return Ok(existing.value);
        }
        return Raised(Conflict);
      }
      var _ :- conn.Flush(Changing(conn.working, newId,
                                   User(Lower(info.email.value), secret, true, info.emailVerified)), now);
      return Ok(newId);
    }

    method SignIn(provider: string, info: UserInfo, link: Option<Uuid>, newId: Uuid, secret: string, now: int)
      returns (r: Attempt<Option<Uuid>>)
      requires EmailsOk(conn.working)
      modifies conn
      ensures var p := SignInPlan(old(conn.working), provider, info, link, newId, secret);
              conn.Did(old(conn.Snapshot()), old(conn.budget), now, p.cmds) && r == p.Ending(old(conn.budget))
    {
      hide Reach, ResolvePlan, Resolved, EmailsOk;
      ghost var s0, b0, t0 := conn.Snapshot(), conn.budget, conn.working;
      ghost var select: seq<AccountCommand> := [Select];
      var account := ProviderAccount(provider, info.accountId);
      ghost var resolved := ResolvePlan(t0, info, link, newId, secret);
      ReachConcat(s0, b0, now, select, select);
      ReachConcat(s0, b0, now, select, resolved.cmds);
      assert select + select == [Select, Select];
      if resolved.result.Ok? {
        ReachConcat(s0, b0, now, select + resolved.cmds,
                    [Write(Linked(Resolved(t0, info, link, newId, secret), account, resolved.result.value))]);
      }
      var t :- conn.Query(now);
      if account in t.links {
        if link.Some? && t.links[account] != link.value {
          return Raised(Conflict);
        }
        t :- conn.Query(now);
        if t.links[account] !in t.users {
          return Raised(AuthError);
        }
        return Ok(Some(t.links[account]));
      }
      var id :- ResolveUser(info, link, newId, secret, now);
      var _ :- conn.Flush(Linked(conn.working, account, id), now);
      return Ok(Some(id));
    }

    method HandleCallback(provider: string, state: Uuid, reply: Reply, newId: Uuid, secret: string, now: int)
      returns (r: Attempt<Option<Uuid>>)
      requires EmailsOk(conn.working)
      modifies conn
      ensures var p := CallbackPlan(old(conn.redis), old(conn.working), now, provider, state, reply, newId, secret);
              conn.Did(old(conn.Snapshot()), old(conn.budget), now, p.cmds) && r == p.Ending(old(conn.budget))
    {
      hide Reach, SignInPlan, PopCmds, Popped, EmailsOk;
      ghost var popped := Popped(conn.redis, now, provider, state);
      if popped.Ok? && reply.Info? {
        ReachConcat(conn.Snapshot(), conn.budget, now, PopCmds(conn.redis, now, state),
                    SignInPlan(conn.working, provider, reply.info, popped.value, newId, secret).cmds);
      }
      var link :- PopState(state, provider, now);
      match reply
      case Unavailable => return Raised(NotFound);
      case Failed(e) => return Raised(e);
      case Info(info) => r := SignIn(provider, info, link, newId, secret, now);
    }

    // --------------------------------------------- requests

    method Dispatch(q: Request, now: int) returns (r: Attempt<Option<Uuid>>)
      requires EmailsOk(conn.working)
      modifies conn
      ensures var p := RequestPlan(cfg, old(conn.redis), old(conn.working), now, q);
              conn.Did(old(conn.Snapshot()), old(conn.budget), now, p.cmds) && r == p.Ending(old(conn.budget))
    {
      hide Reach, RegisterPlan, ResendPlan, ForgotPlan, ChangePlan, EffectPlan, StartPlan, CallbackPlan, EmailsOk;
      ReachNothing(conn.Snapshot(), conn.budget, now);
      match q
      case Register(id, email, password, strong, raw) =>
        r := Register(id, email, password, strong, raw, now);
      case Resend(id, raw) =>
        r := ResendVerification(id, raw, now);
      case Forgot(email, raw) =>
        r := RequestPasswordReset(email, raw, now);
      case RequestChange(id, email, password, raw) =>
        r := RequestEmailChange(id, email, password, raw, now);
      case Present(raw, purpose, password, strong) =>
        if purpose == ResetPassword && !strong {
          return Raised(Invalid);
        }
        r := PresentToken(raw, purpose, password, now);
      case StartOAuth(provider, available, link, state) =>
        r := StartAuthorization(provider, available, link, state, now);
      case Callback(provider, state, reply, newId, secret) =>
        r := HandleCallback(provider, state, reply, newId, secret, now);
    }

    /** One request in its unit of work is one step of the specification. */
    method Serve(q: Request, now: int, ghost w: World) returns (r: Attempt<Option<Uuid>>)
      requires conn.working == conn.committed && EmailsOk(conn.working)
      requires w.now == now && w.redis == conn.redis && w.tables == conn.committed
      modifies conn
      ensures var w' := Next(cfg, w, Accounts.Serve(q, old(conn.budget)));
              && conn.redis == w'.redis && conn.committed == w'.tables && conn.working == w'.tables
              && r == Issued(cfg, w, q).Ending(old(conn.budget))
    {
      hide Reach, RequestPlan, EmailsOk;
      ghost var s0, b0 := conn.Snapshot(), conn.budget;
      ghost var p := RequestPlan(cfg, conn.redis, conn.working, now, q);
      ReachConcat(s0, b0, now, p.cmds, [Commit]);
      r := Dispatch(q, now);
      if r.Ok? {
        var committed := conn.CommitWork(now);
        if committed.Raised? {
          r := Raised(committed.error);
        }
      }
      if r.Raised? {
        conn.Rollback();
      }
    }
  }

  lemma ConsumeResult(t: Tables, raw: Uuid, purpose: Purpose, now: int)
    ensures var p := ConsumePlan(t, raw, purpose, now);
            if Consumable(t, raw, purpose, now)
            then p.result == Ok(t.tokens[raw].(usedAt := Some(now))) && p.cmds == [Select, Write(Used(t, raw, now))]
            else p.result == Raised(AuthError) && p.cmds == [Select]
  {
  }
}
