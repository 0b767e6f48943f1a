/** What holds of account identity over whole runs. */
module AccountRuns {
  import opened Base
  import opened Stores
  import opened Accounts

  predicate Lowered(s: string) {
    Lower(s) == s
  }

  lemma LowerTwice(s: string)
    ensures Lowered(Lower(s))
  {
  }

  /** Stored addresses are lower-case and no two users share one. */
  ghost predicate EmailsOk(t: Tables) {
    && (forall id | id in t.users :: Lowered(t.users[id].email))
    && (forall a, b | a in t.users && b in t.users && t.users[a].email == t.users[b].email :: a == b)
  }

  ghost predicate TokensOk(t: Tables, minted: set<Uuid>, mailed: map<Uuid, string>) {
    && mailed.Keys <= minted && t.users.Keys <= minted
    && (forall raw | raw in t.tokens :: raw in mailed && t.tokens[raw].user in t.users)
    && (forall a, b | a in t.tokens && b in t.tokens
          && t.tokens[a].user == t.tokens[b].user && t.tokens[a].purpose == t.tokens[b].purpose :: a == b)
    && (forall raw | raw in t.tokens && t.tokens[raw].purpose == ChangeEmail ::
          t.tokens[raw].newEmail == Some(mailed[raw]) && Lowered(mailed[raw]))
  }

  /** A verified address was proven. What carries it: a verification token that
      can still be presented went to the current address, or that address has
      been proven since. */
  ghost predicate ProofsOk(t: Tables, mailed: map<Uuid, string>, proven: set<(Uuid, string)>) {
    && (forall id | id in t.users && t.users[id].verified :: (id, t.users[id].email) in proven)
    && (forall raw | raw in t.tokens && t.tokens[raw].purpose == VerifyEmail && raw in mailed
        && t.tokens[raw].user in t.users ::
          mailed[raw] == t.users[t.tokens[raw].user].email
          || (t.tokens[raw].user, t.users[t.tokens[raw].user].email) in proven)
  }

  ghost predicate LinksOk(t: Tables) {
    forall account | account in t.links :: t.links[account] in t.users
  }

  ghost predicate Inv(t: Tables, minted: set<Uuid>, mailed: map<Uuid, string>, proven: set<(Uuid, string)>) {
    EmailsOk(t) && TokensOk(t, minted, mailed) && ProofsOk(t, mailed, proven) && LinksOk(t)
  }

  ghost predicate InvAt(w: World) {
    Inv(w.tables, w.minted, w.mailed, w.proven)
  }

  lemma KeepsMore(t: Tables, minted: set<Uuid>, mailed: map<Uuid, string>, proven: set<(Uuid, string)>,
                  ids: set<Uuid>, shown: set<(Uuid, string)>)
    requires Inv(t, minted, mailed, proven)
    ensures Inv(t, minted + ids, mailed, proven + shown)
  {
  }

  lemma KeepsIssue(t: Tables, minted: set<Uuid>, mailed: map<Uuid, string>, proven: set<(Uuid, string)>,
                   raw: Uuid, token: EmailToken, address: string)
    requires Inv(t, minted, mailed, proven)
    requires raw !in minted && token.user in t.users && token.usedAt.None?
    requires token.purpose == VerifyEmail ==> address == t.users[token.user].email
    requires token.purpose == ChangeEmail ==> token.newEmail == Some(address) && Lowered(address)
    ensures Inv(Issuing(t, raw, token), minted + {raw}, mailed + map[raw := address], proven)
  {
    var t' := Superseded(t, token.user, token.purpose);
    KeepsSuperseded(t, minted, mailed, proven, token.user, token.purpose);
    hide Inv;
    KeepsAdded(t', minted, mailed, proven, raw, token, address);
  }

  lemma KeepsSuperseded(t: Tables, minted: set<Uuid>, mailed: map<Uuid, string>, proven: set<(Uuid, string)>,
                        user: Uuid, purpose: Purpose)
    requires Inv(t, minted, mailed, proven)
    ensures Inv(Superseded(t, user, purpose), minted, mailed, proven)
  {
  }

  lemma KeepsAdded(t: Tables, minted: set<Uuid>, mailed: map<Uuid, string>, proven: set<(Uuid, string)>,
                   raw: Uuid, token: EmailToken, address: string)
    requires Inv(t, minted, mailed, proven)
    requires raw !in minted && token.user in t.users && token.usedAt.None?
    requires forall r | r in t.tokens :: !(t.tokens[r].user == token.user && t.tokens[r].purpose == token.purpose)
    requires token.purpose == VerifyEmail ==> address == t.users[token.user].email
    requires token.purpose == ChangeEmail ==> token.newEmail == Some(address) && Lowered(address)
    ensures Inv(Added(t, raw, token), minted + {raw}, mailed + map[raw := address], proven)
  {
    hide Lowered;
    var t', m := Added(t, raw, token), mailed + map[raw := address];
    assert t'.users == t.users && t'.links == t.links;
    TokensAdded(t, minted, mailed, raw, token, address);
    ProofsAdded(t, mailed, proven, raw, token, address);
  }

  lemma TokensAdded(t: Tables, minted: set<Uuid>, mailed: map<Uuid, string>, raw: Uuid, token: EmailToken,
                    address: string)
    requires TokensOk(t, minted, mailed) && raw !in minted && token.user in t.users
    requires forall r | r in t.tokens :: !(t.tokens[r].user == token.user && t.tokens[r].purpose == token.purpose)
    requires token.purpose == ChangeEmail ==> token.newEmail == Some(address) && Lowered(address)
    ensures TokensOk(Added(t, raw, token), minted + {raw}, mailed + map[raw := address])
  {
    hide Lowered;
  }

  lemma ProofsAdded(t: Tables, mailed: map<Uuid, string>, proven: set<(Uuid, string)>, raw: Uuid, token: EmailToken,
                    address: string)
    requires ProofsOk(t, mailed, proven) && raw !in mailed && token.user in t.users
    requires token.purpose == VerifyEmail ==> address == t.users[token.user].email
    ensures ProofsOk(Added(t, raw, token), mailed + map[raw := address], proven)
  {
    var m := mailed + map[raw := address];
    assert m[raw] == address && forall r | r in mailed :: m[r] == mailed[r];
  }

  lemma KeepsNewUser(t: Tables, minted: set<Uuid>, mailed: map<Uuid, string>, proven: set<(Uuid, string)>,
                     id: Uuid, user: User)
    requires Inv(t, minted, mailed, proven) && id !in minted
    requires Lowered(user.email) && !EmailExists(t.users, user.email)
    requires user.verified ==> (id, user.email) in proven
    ensures Inv(Changing(t, id, user), minted + {id}, mailed, proven)
  {
    forall a | a in t.users
      ensures t.users[a].email != user.email
    {
      assert !HasEmail(t.users, a, user.email);
    }
  }

  lemma KeepsLink(t: Tables, minted: set<Uuid>, mailed: map<Uuid, string>, proven: set<(Uuid, string)>,
                  account: ProviderAccount, id: Uuid)
    requires Inv(t, minted, mailed, proven) && id in t.users
    ensures Inv(Linked(t, account, id), minted, mailed, proven)
  {
  }

  lemma KeepsUsed(t: Tables, minted: set<Uuid>, mailed: map<Uuid, string>, proven: set<(Uuid, string)>, raw: Uuid,
                  now: int)
    requires Inv(t, minted, mailed, proven) && raw in t.tokens
    ensures Inv(Used(t, raw, now), minted, mailed, proven)
  {
  }

  /** A user may change so: a new address must be free and proven, and so must
      one that becomes verified. */
  lemma KeepsUser(t: Tables, minted: set<Uuid>, mailed: map<Uuid, string>, proven: set<(Uuid, string)>, id: Uuid,
                  user: User)
    requires Inv(t, minted, mailed, proven) && id in t.users
    requires user.email != t.users[id].email ==> Lowered(user.email) && !EmailExists(t.users, user.email)
    requires (user.email != t.users[id].email || user.verified) ==> (id, user.email) in proven
    ensures Inv(Changing(t, id, user), minted, mailed, proven)
  {
    forall a | a in t.users && user.email != t.users[id].email
      ensures t.users[a].email != user.email
    {
      assert !HasEmail(t.users, a, user.email);
    }
  }

  lemma KeepsPresent(t: Tables, minted: set<Uuid>, mailed: map<Uuid, string>, proven: set<(Uuid, string)>,
                     cfg: Config, redis: Cache, raw: Uuid, purpose: Purpose, now: int, password: string, strong: bool)
    requires Inv(t, minted, mailed, proven)
    requires EffectPlan(t, raw, purpose, now, password).result.Ok?
    ensures raw in t.tokens && raw in mailed && t.tokens[raw].user in t.users
    ensures Inv(Final(cfg, redis, t, now, Present(raw, purpose, password, strong)), minted, mailed,
                proven + {(t.tokens[raw].user, mailed[raw])})
  {
    PresentFacts(t, minted, mailed, proven, raw, purpose, now, password);
    hide Inv, EffectPlan, EmailExists, Lowered;
    var token := t.tokens[raw];
    var shown := proven + {(token.user, mailed[raw])};
    KeepsMore(t, minted, mailed, proven, {}, {(token.user, mailed[raw])});
    assert minted + {} == minted;
    KeepsUsed(t, minted, mailed, shown, raw, now);
    hide Used, Final;
    FinalPresent(cfg, redis, t, now, raw, purpose, password, strong);
    KeepsUser(Used(t, raw, now), minted, mailed, shown, token.user,
              Effect(t.users[token.user], token, purpose, password));
  }

  lemma FinalPresent(cfg: Config, redis: Cache, t: Tables, now: int, raw: Uuid, purpose: Purpose, password: string,
                     strong: bool)
    requires raw in t.tokens && t.tokens[raw].user in t.users
    ensures Used(t, raw, now).users == t.users
    ensures Final(cfg, redis, t, now, Present(raw, purpose, password, strong))
         == Changing(Used(t, raw, now), t.tokens[raw].user,
                     Effect(t.users[t.tokens[raw].user], t.tokens[raw], purpose, password))
  {
  }

  lemma PresentFacts(t: Tables, minted: set<Uuid>, mailed: map<Uuid, string>, proven: set<(Uuid, string)>,
                     raw: Uuid, purpose: Purpose, now: int, password: string)
    requires Inv(t, minted, mailed, proven)
    requires EffectPlan(t, raw, purpose, now, password).result.Ok?
    ensures raw in t.tokens && raw in mailed && t.tokens[raw].user in t.users && t.tokens[raw].purpose == purpose
    ensures var id, shown := t.tokens[raw].user, proven + {(t.tokens[raw].user, mailed[raw])};
            && (t.users[id].verified || purpose == VerifyEmail ==> (id, t.users[id].email) in shown)
            && (purpose == ChangeEmail ==>
                  && t.tokens[raw].newEmail == Some(mailed[raw]) && Lowered(mailed[raw])
                  && !EmailExists(t.users, mailed[raw]))
  {
  }

  /** Resolving a new provider account leaves its user in the table. */
  lemma KeepsResolve(t: Tables, minted: set<Uuid>, mailed: map<Uuid, string>, proven: set<(Uuid, string)>,
                     info: UserInfo, link: Option<Uuid>, newId: Uuid, secret: string)
    requires Inv(t, minted, mailed, proven) && newId !in minted
    requires ResolvePlan(t, info, link, newId, secret).result.Ok?
    ensures var id := ResolvePlan(t, info, link, newId, secret).result.value;
            var t' := Resolved(t, info, link, newId, secret);
            var shown := if info.emailVerified && info.email.Some? then {(id, Lower(info.email.value))} else {};
            id in t'.users && Inv(t', minted + {newId}, mailed, proven + shown)
  {
    hide Inv;
    var id := ResolvePlan(t, info, link, newId, secret).result.value;
    var shown := if info.emailVerified && info.email.Some? then {(id, Lower(info.email.value))} else {};
    KeepsMore(t, minted, mailed, proven, {newId}, shown);
    if link.None? && ByEmail(t.users, info.email.value).None? {
      KeepsMore(t, minted, mailed, proven, {}, shown);
      LowerTwice(info.email.value);
      assert minted + {} == minted;
      assert !EmailExists(t.users, Lower(info.email.value)) by {
        assert forall a | a in t.users :: !HasEmail(t.users, a, info.email.value);
      }
      KeepsNewUser(t, minted, mailed, proven + shown, newId,
                   User(Lower(info.email.value), secret, true, info.emailVerified));
    }
  }

  lemma InvRegister(cfg: Config, w: World, q: Request)
    requires InvAt(w) && q.Register? && Minted(q) !! w.minted && q.id != q.raw
    requires RequestPlan(cfg, w.redis, w.tables, w.now, q).result.Ok?
    ensures Inv(Final(cfg, w.redis, w.tables, w.now, q), w.minted + Minted(q), w.mailed + Mailed(w, q), w.proven)
  {
    hide Inv;
    var t := w.tables;
    var user := User(Lower(q.email), q.password, true, false);
    LowerTwice(q.email);
    assert !EmailExists(t.users, Lower(q.email)) by {
      assert forall a | a in t.users :: !HasEmail(t.users, a, q.email);
    }
    KeepsNewUser(t, w.minted, w.mailed, w.proven, q.id, user);
    KeepsIssue(Changing(t, q.id, user), w.minted + {q.id}, w.mailed, w.proven, q.raw, VerifyToken(cfg, q.id, w.now),
               Lower(q.email));
    assert w.minted + {q.id} + {q.raw} == w.minted + Minted(q);
  }

  lemma InvIssuing(cfg: Config, w: World, q: Request)
    requires InvAt(w) && (q.Resend? || q.Forgot? || q.RequestChange?) && Minted(q) !! w.minted
    requires RequestPlan(cfg, w.redis, w.tables, w.now, q).result.Ok?
    ensures Inv(Final(cfg, w.redis, w.tables, w.now, q), w.minted + Minted(q), w.mailed + Mailed(w, q), w.proven)
  {
    hide Inv;
    var t := w.tables;
    KeepsMore(t, w.minted, w.mailed, w.proven, Minted(q), {});
    assert w.proven + {} == w.proven && w.mailed + map[] == w.mailed;
    match q
    case Resend(id, raw) =>
      KeepsIssue(t, w.minted, w.mailed, w.proven, raw, VerifyToken(cfg, id, w.now), t.users[id].email);
    case Forgot(email, raw) =>
      var found := ByEmail(t.users, email);
      if found.Some? && t.users[found.value].active {
        KeepsIssue(t, w.minted, w.mailed, w.proven, raw, ResetToken(cfg, found.value, w.now),
                   t.users[found.value].email);
      }
    case RequestChange(id, email, _, raw) =>
      LowerTwice(email);
      KeepsIssue(t, w.minted, w.mailed, w.proven, raw, ChangeToken(cfg, id, Lower(email), w.now), Lower(email));
  }

  lemma InvCallback(cfg: Config, w: World, q: Request)
    requires InvAt(w) && q.Callback? && Minted(q) !! w.minted
    requires RequestPlan(cfg, w.redis, w.tables, w.now, q).result.Ok?
    ensures Inv(Final(cfg, w.redis, w.tables, w.now, q), w.minted + Minted(q), w.mailed,
                w.proven + Proven(w, q, RequestPlan(cfg, w.redis, w.tables, w.now, q).result))
  {
    hide Inv, ResolvePlan, Resolved;
    var t, info := w.tables, q.reply.info;
    var popped := Popped(w.redis, w.now, q.provider, q.state);
    var shown := Proven(w, q, RequestPlan(cfg, w.redis, w.tables, w.now, q).result);
    var account := ProviderAccount(q.provider, info.accountId);
    if account in t.links {
      KeepsMore(t, w.minted, w.mailed, w.proven, Minted(q), shown);
    } else {
      var t' := Resolved(t, info, popped.value, q.newId, q.secret);
      var id := ResolvePlan(t, info, popped.value, q.newId, q.secret).result.value;
      KeepsResolve(t, w.minted, w.mailed, w.proven, info, popped.value, q.newId, q.secret);
      KeepsLink(t', w.minted + Minted(q), w.mailed, w.proven + shown, account, id);
    }
  }

  lemma InvStep(cfg: Config, w: World, step: Step)
    requires InvAt(w) && Possible(w, step)
    ensures InvAt(Next(cfg, w, step))
  {
    hide Inv, RequestPlan, Final, EffectPlan;
    RequestTables(cfg, w, step);
    if step.Serve? {
      var q := step.request;
      KeepsMore(w.tables, w.minted, w.mailed, w.proven, Minted(q), {});
      assert w.proven + {} == w.proven && w.mailed + map[] == w.mailed && w.minted + {} == w.minted;
      if Done(cfg, w, step) {
        StepDone(cfg, w, q);
      }
    }
  }

  lemma StepDone(cfg: Config, w: World, q: Request)
    requires InvAt(w) && Minted(q) !! w.minted && (q.Register? ==> q.id != q.raw)
    requires RequestPlan(cfg, w.redis, w.tables, w.now, q).result.Ok?
    ensures Inv(Final(cfg, w.redis, w.tables, w.now, q), w.minted + Minted(q), w.mailed + Mailed(w, q),
                w.proven + Proven(w, q, RequestPlan(cfg, w.redis, w.tables, w.now, q).result))
  {
    hide Inv;
    assert w.proven + {} == w.proven && w.mailed + map[] == w.mailed && w.minted + {} == w.minted;
    match q
    case Register(_, _, _, _, _) => InvRegister(cfg, w, q);
    case Present(raw, purpose, password, strong) =>
      KeepsPresent(w.tables, w.minted, w.mailed, w.proven, cfg, w.redis, raw, purpose, w.now, password, strong);
    case StartOAuth(_, _, _, _) => KeepsMore(w.tables, w.minted, w.mailed, w.proven, Minted(q), {});
    case Callback(_, _, _, _, _) => InvCallback(cfg, w, q);
    case _ => InvIssuing(cfg, w, q);
  }

  lemma {:induction false} InvRun(cfg: Config, w: World, steps: seq<Step>)
    requires InvAt(w) && ValidRun(cfg, w, steps)
    ensures InvAt(Run(cfg, w, steps))
    decreases |steps|
  {
    hide InvAt;
    if steps != [] {
      InvStep(cfg, w, steps[0]);
      InvRun(cfg, Next(cfg, w, steps[0]), steps[1..]);
    }
  }

  lemma InvInitial(w: World)
    requires Initial(w)
    ensures InvAt(w)
  {
  }
}
