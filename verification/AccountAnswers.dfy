/** When each account request succeeds and what it then leaves behind, said in
    terms of the tables, the mail and the clock alone. */
module AccountAnswers {
  import opened Base
  import opened Stores
  import opened Accounts
  import opened AccountRuns
  import opened AccountTheorems

  /** No command of the request fails. */
  ghost predicate Whole(cfg: Config, w: World, q: Request, budget: nat) {
    |Issued(cfg, w, q).cmds| <= budget
  }

  lemma ServedWhole(cfg: Config, w: World, q: Request, budget: nat)
    requires Whole(cfg, w, q, budget)
    ensures var w', p := Next(cfg, w, Serve(q, budget)), RequestPlan(cfg, w.redis, w.tables, w.now, q);
            && (Done(cfg, w, Serve(q, budget)) <==> p.result.Ok?) && Issued(cfg, w, q).result == p.result
            && w'.tables == (if p.result.Ok? then Final(cfg, w.redis, w.tables, w.now, q) else w.tables)
            && w'.mailed == (if p.result.Ok? then w.mailed + Mailed(w, q) else w.mailed)
  {
    RequestTables(cfg, w, Serve(q, budget));
    hide RequestPlan, Final;
  }

  /** Nobody has the address, whatever its letter case. */
  ghost predicate Free(users: map<Uuid, User>, address: string) {
    forall id | id in users :: Lower(users[id].email) != Lower(address)
  }

  lemma FreeIsUnknown(users: map<Uuid, User>, address: string)
    ensures Free(users, address) <==> !EmailExists(users, address)
    ensures Free(users, Lower(address)) <==> Free(users, address)
  {
    LowerTwice(address);
    forall id | id in users
      ensures HasEmail(users, id, address) <==> Lower(users[id].email) == Lower(address)
    {
    }
    if !Free(users, address) {
      var id :| id in users && Lower(users[id].email) == Lower(address);
      assert HasEmail(users, id, address);
    }
  }

  // ------------------------------------------------- tokens

  /** The tokens with the user's earlier one for the purpose replaced. */
  ghost predicate Replaced(tokens: map<Uuid, EmailToken>, tokens': map<Uuid, EmailToken>, raw: Uuid,
                           token: EmailToken) {
    && raw in tokens' && tokens'[raw] == token
    && (forall r | r != raw :: r in tokens' <==>
          r in tokens && !(tokens[r].user == token.user && tokens[r].purpose == token.purpose))
    && (forall r | r != raw && r in tokens' :: tokens'[r] == tokens[r])
  }

  lemma IssuingReplaces(t: Tables, raw: Uuid, token: EmailToken)
    ensures var t' := Issuing(t, raw, token);
            Replaced(t.tokens, t'.tokens, raw, token) && t'.users == t.users && t'.links == t.links
  {
  }

  /** Presenting a token: what it does to its user, and that it touches nobody
      else, no link, and of the tokens only marks itself. */
  lemma PresentOutcome(cfg: Config, w: World, q: Request, budget: nat)
    requires InvAt(w) && q.Present? && Done(cfg, w, Serve(q, budget))
    ensures q.raw in w.tables.tokens && q.raw in w.mailed && w.tables.tokens[q.raw].user in w.tables.users
    ensures var t, t' := w.tables, Next(cfg, w, Serve(q, budget)).tables;
            var id := t.tokens[q.raw].user;
            && t'.users == t.users[id := match q.purpose
                                         case VerifyEmail => t.users[id].(verified := true)
                                         case ResetPassword => t.users[id].(password := q.password)
                                         case ChangeEmail => t.users[id].(email := w.mailed[q.raw], verified := true)]
            && t'.tokens == t.tokens[q.raw := t.tokens[q.raw].(usedAt := Some(w.now))]
            && t'.links == t.links
  {
    RequestTables(cfg, w, Serve(q, budget));
    PresentFacts(w.tables, w.minted, w.mailed, w.proven, q.raw, q.purpose, w.now, q.password);
    FinalPresent(cfg, w.redis, w.tables, w.now, q.raw, q.purpose, q.password, q.strong);
    hide RequestPlan, EffectPlan, Inv;
  }

  // ------------------------------------------------- registration and mail

  /** Registering: exactly with a strong password and a free address. The user
      is active, not verified, and is mailed a verification token. */
  lemma RegisterExactly(cfg: Config, w: World, q: Request, budget: nat)
    requires q.Register? && Whole(cfg, w, q, budget)
    ensures var w' := Next(cfg, w, Serve(q, budget));
            && (Done(cfg, w, Serve(q, budget)) <==> q.strong && Free(w.tables.users, q.email))
            && (Done(cfg, w, Serve(q, budget)) ==>
                  && w'.tables.users == w.tables.users[q.id := User(Lower(q.email), q.password, true, false)]
                  && Replaced(w.tables.tokens, w'.tables.tokens, q.raw,
                              EmailToken(q.id, VerifyEmail, None, w.now + cfg.verifyHours * 3600, None))
                  && w'.tables.links == w.tables.links && w'.mailed == w.mailed[q.raw := Lower(q.email)])
            && (!Done(cfg, w, Serve(q, budget)) ==> w'.tables == w.tables && w'.mailed == w.mailed)
  {
    ServedWhole(cfg, w, q, budget);
    hide Next, Done, Issued, Whole;
    FreeIsUnknown(w.tables.users, q.email);
    var t1 := Changing(w.tables, q.id, User(Lower(q.email), q.password, true, false));
    IssuingReplaces(t1, q.raw, VerifyToken(cfg, q.id, w.now));
    RegisterPlanned(cfg, w, q);
    hide EmailExists, Free, Replaced, Issuing, Lower, RequestPlan, Final, Mailed;
  }

  lemma RegisterPlanned(cfg: Config, w: World, q: Request)
    requires q.Register?
    ensures RequestPlan(cfg, w.redis, w.tables, w.now, q).result.Ok?
            <==> q.strong && !EmailExists(w.tables.users, q.email)
    ensures Final(cfg, w.redis, w.tables, w.now, q)
         == Issuing(Changing(w.tables, q.id, User(Lower(q.email), q.password, true, false)), q.raw,
                    VerifyToken(cfg, q.id, w.now))
    ensures w.mailed + Mailed(w, q) == w.mailed[q.raw := Lower(q.email)]
  {
  }

  /** Asking for another verification mail: exactly for a user not verified yet. */
  lemma ResendExactly(cfg: Config, w: World, q: Request, budget: nat)
    requires q.Resend? && Whole(cfg, w, q, budget)
    ensures var w' := Next(cfg, w, Serve(q, budget));
            && (Done(cfg, w, Serve(q, budget)) <==> q.id in w.tables.users && !w.tables.users[q.id].verified)
            && (Done(cfg, w, Serve(q, budget)) ==>
                  && w'.tables.users == w.tables.users && w'.tables.links == w.tables.links
                  && Replaced(w.tables.tokens, w'.tables.tokens, q.raw,
                              EmailToken(q.id, VerifyEmail, None, w.now + cfg.verifyHours * 3600, None))
                  && w'.mailed == w.mailed[q.raw := w.tables.users[q.id].email])
            && (!Done(cfg, w, Serve(q, budget)) ==> w'.tables == w.tables && w'.mailed == w.mailed)
  {
    ServedWhole(cfg, w, q, budget);
    hide Next, Done, Issued, Whole;
    IssuingReplaces(w.tables, q.raw, VerifyToken(cfg, q.id, w.now));
    hide Replaced, Issuing;
  }

  /** Asking for a password reset always succeeds. It mails a token exactly if an
      active user has the address, to that user's address, and is otherwise
      without any effect. */
  lemma ForgotExactly(cfg: Config, w: World, q: Request, budget: nat, id: Uuid)
    requires InvAt(w) && q.Forgot? && Whole(cfg, w, q, budget)
    ensures var w' := Next(cfg, w, Serve(q, budget));
            var known := id in w.tables.users && Lower(w.tables.users[id].email) == Lower(q.email);
            && Done(cfg, w, Serve(q, budget))
            && (known && w.tables.users[id].active ==>
                  && w'.tables.users == w.tables.users && w'.tables.links == w.tables.links
                  && Replaced(w.tables.tokens, w'.tables.tokens, q.raw,
                              EmailToken(id, ResetPassword, None, w.now + cfg.resetMinutes * 60, None))
                  && w'.mailed == w.mailed[q.raw := w.tables.users[id].email])
            && ((known && !w.tables.users[id].active) || Free(w.tables.users, q.email) ==>
                  w'.tables == w.tables && w'.mailed == w.mailed)
  {
    ForgotServed(cfg, w, q, budget);
    FreeIsUnknown(w.tables.users, q.email);
    TheOne(w.tables, q.email, id);
    var found := ByEmail(w.tables.users, q.email);
    if found.Some? {
      IssuingReplaces(w.tables, q.raw, ResetToken(cfg, found.value, w.now));
    }
    hide Replaced, Issuing, EmailExists, Free, Inv, Next, Done, Lower;
  }

  lemma ForgotServed(cfg: Config, w: World, q: Request, budget: nat)
    requires q.Forgot? && Whole(cfg, w, q, budget)
    ensures var w' := Next(cfg, w, Serve(q, budget));
            var found := ByEmail(w.tables.users, q.email);
            && Done(cfg, w, Serve(q, budget))
            && (if found.Some? && w.tables.users[found.value].active
                then w'.tables == Issuing(w.tables, q.raw, ResetToken(cfg, found.value, w.now))
                     && w'.mailed == w.mailed[q.raw := w.tables.users[found.value].email]
                else w'.tables == w.tables && w'.mailed == w.mailed)
  {
    ServedWhole(cfg, w, q, budget);
    hide Next, Done, Issued, Whole;
    hide Issuing, EmailExists, Lower;
  }

  /** The user with an address is the only one with it. */
  lemma TheOne(t: Tables, address: string, id: Uuid)
    requires EmailsOk(t)
    ensures id in t.users && Lower(t.users[id].email) == Lower(address) ==> ByEmail(t.users, address) == Some(id)
  {
    if id in t.users && Lower(t.users[id].email) == Lower(address) {
      assert HasEmail(t.users, id, address);
      var found := ByEmail(t.users, address);
      assert Lowered(t.users[id].email) && Lowered(t.users[found.value].email);
    }
  }

  /** Asking to change the address: exactly with the right password and a free
      address that is not the present one. The token goes to the new address,
      and the user stays as they are until it is presented. */
  lemma RequestChangeExactly(cfg: Config, w: World, q: Request, budget: nat)
    requires q.RequestChange? && Whole(cfg, w, q, budget)
    ensures var w' := Next(cfg, w, Serve(q, budget));
            && (Done(cfg, w, Serve(q, budget)) <==>
                  && q.id in w.tables.users && w.tables.users[q.id].password == q.password
                  && w.tables.users[q.id].email != Lower(q.email) && Free(w.tables.users, q.email))
            && (Done(cfg, w, Serve(q, budget)) ==>
                  && w'.tables.users == w.tables.users && w'.tables.links == w.tables.links
                  && Replaced(w.tables.tokens, w'.tables.tokens, q.raw,
                              EmailToken(q.id, ChangeEmail, Some(Lower(q.email)), w.now + cfg.changeHours * 3600, None))
                  && w'.mailed == w.mailed[q.raw := Lower(q.email)])
            && (!Done(cfg, w, Serve(q, budget)) ==> w'.tables == w.tables && w'.mailed == w.mailed)
  {
    ServedWhole(cfg, w, q, budget);
    hide Next, Done, Issued, Whole;
    FreeIsUnknown(w.tables.users, q.email);
    FreeIsUnknown(w.tables.users, Lower(q.email));
    IssuingReplaces(w.tables, q.raw, ChangeToken(cfg, q.id, Lower(q.email), w.now));
    RequestChangePlanned(cfg, w, q);
    hide Replaced, Issuing, EmailExists, Free, Lower, RequestPlan, Final, Mailed;
  }

  lemma RequestChangePlanned(cfg: Config, w: World, q: Request)
    requires q.RequestChange?
    ensures RequestPlan(cfg, w.redis, w.tables, w.now, q).result.Ok? <==>
              && q.id in w.tables.users && w.tables.users[q.id].password == q.password
              && w.tables.users[q.id].email != Lower(q.email) && !EmailExists(w.tables.users, Lower(q.email))
    ensures Final(cfg, w.redis, w.tables, w.now, q)
         == Issuing(w.tables, q.raw, ChangeToken(cfg, q.id, Lower(q.email), w.now))
    ensures w.mailed + Mailed(w, q) == w.mailed[q.raw := Lower(q.email)]
  {
  }

  // ------------------------------------------------- lifetimes

  /** How long a token for a purpose may be presented. */
  function LifetimeSeconds(cfg: Config, purpose: Purpose): int {
    match purpose
    case VerifyEmail => cfg.verifyHours * 3600
    case ResetPassword => cfg.resetMinutes * 60
    case ChangeEmail => cfg.changeHours * 3600
  }

  /** The purpose of the token a request mails. */
  function PurposeOf(q: Request): Purpose
    requires q.Register? || q.Resend? || q.Forgot? || q.RequestChange?
  {
    if q.Forgot? then ResetPassword else if q.RequestChange? then ChangeEmail else VerifyEmail
  }

  lemma MailedToken(cfg: Config, w: World, q: Request, budget: nat)
    requires q.Register? || q.Resend? || q.Forgot? || q.RequestChange?
    requires Done(cfg, w, Serve(q, budget)) && q.raw in Mailed(w, q)
    ensures var tokens := Next(cfg, w, Serve(q, budget)).tables.tokens;
            && q.raw in tokens && tokens[q.raw].purpose == PurposeOf(q) && tokens[q.raw].usedAt.None?
            && tokens[q.raw].expiresAt == w.now + LifetimeSeconds(cfg, PurposeOf(q))
  {
    RequestTables(cfg, w, Serve(q, budget));
  }

  /** A token row keeps its purpose and its end as long as it is there. */
  ghost predicate Ends(w: World, raw: Uuid, purpose: Purpose, end: int) {
    raw in w.minted
    && (raw in w.tables.tokens ==> w.tables.tokens[raw].purpose == purpose && w.tables.tokens[raw].expiresAt == end)
  }

  lemma EndsStep(cfg: Config, w: World, step: Step, raw: Uuid, purpose: Purpose, end: int)
    requires Ends(w, raw, purpose, end) && Possible(w, step)
    ensures Ends(Next(cfg, w, step), raw, purpose, end)
  {
    RequestTables(cfg, w, step);
    if Done(cfg, w, step) {
      hide RequestPlan, EffectPlan, CallbackPlan;
      FinalEnds(cfg, w, step.request, raw, purpose, end);
    }
  }

  lemma FinalEnds(cfg: Config, w: World, q: Request, raw: Uuid, purpose: Purpose, end: int)
    requires Ends(w, raw, purpose, end) && Minted(q) !! w.minted
    ensures var t' := Final(cfg, w.redis, w.tables, w.now, q);
            raw in t'.tokens ==> t'.tokens[raw].purpose == purpose && t'.tokens[raw].expiresAt == end
  {
  }

  lemma {:induction false} EndsRun(cfg: Config, w: World, steps: seq<Step>, raw: Uuid, purpose: Purpose, end: int)
    requires Ends(w, raw, purpose, end) && ValidRun(cfg, w, steps)
    ensures Ends(Run(cfg, w, steps), raw, purpose, end)
    decreases |steps|
  {
    hide Ends, Next;
    if steps != [] {
      EndsStep(cfg, w, steps[0], raw, purpose, end);
      EndsRun(cfg, Next(cfg, w, steps[0]), steps[1..], raw, purpose, end);
    }
  }

  /** A mailed token can be presented with success for the lifetime of its
      purpose from the time it was mailed, never as anything else, and never
      after, whatever happens in between. */
  lemma MailedLifetime(cfg: Config, w: World, q: Request, budget: nat, steps: seq<Step>, again: Request,
                       againBudget: nat)
    requires q.Register? || q.Resend? || q.Forgot? || q.RequestChange?
    requires Possible(w, Serve(q, budget)) && Done(cfg, w, Serve(q, budget)) && q.raw in Mailed(w, q)
    requires ValidRun(cfg, Next(cfg, w, Serve(q, budget)), steps)
    requires again.Present? && again.raw == q.raw
    requires Done(cfg, Run(cfg, Next(cfg, w, Serve(q, budget)), steps), Serve(again, againBudget))
    ensures again.purpose == PurposeOf(q)
    ensures Run(cfg, Next(cfg, w, Serve(q, budget)), steps).now < w.now + LifetimeSeconds(cfg, PurposeOf(q))
  {
    var w1 := Next(cfg, w, Serve(q, budget));
    var later := Run(cfg, w1, steps);
    MailedToken(cfg, w, q, budget);
    EndsRun(cfg, w1, steps, q.raw, PurposeOf(q), w.now + LifetimeSeconds(cfg, PurposeOf(q)));
    PresentedInTime(cfg, later, again, againBudget);
  }

  lemma PresentedInTime(cfg: Config, w: World, q: Request, budget: nat)
    requires q.Present? && Done(cfg, w, Serve(q, budget))
    ensures q.raw in w.tables.tokens && w.tables.tokens[q.raw].purpose == q.purpose
    ensures w.now < w.tables.tokens[q.raw].expiresAt
  {
  }

  // ------------------------------------------------- OAuth

  /** Starting an authorization stores what the callback must find, for as long
      as configured. */
  lemma StartExactly(cfg: Config, w: World, q: Request, budget: nat)
    requires q.StartOAuth? && 2 <= budget
    ensures var w' := Next(cfg, w, Serve(q, budget));
            && (Done(cfg, w, Serve(q, budget)) <==> q.available)
            && w'.tables == w.tables
            && w'.redis == if !q.available then w.redis
                           else w.redis[OAuthState(q.state) := Entry(Authorization(q.provider, q.link),
                                                                    Some(w.now + cfg.oauthStateSeconds))]
  {
    var cmds := Issued(cfg, w, q).cmds;
    RequestTables(cfg, w, Serve(q, budget));
    assert Cut(cmds, budget) == cmds;
    if q.available {
      ApplyTwo(State(w.redis, w.tables, w.tables), w.now, cmds[0], Commit);
    }
  }

  /** The authorization waiting under the state value, for this provider. */
  predicate Waiting(w: World, q: Request, link: Option<Uuid>)
    requires q.Callback?
  {
    && Live(w.redis, OAuthState(q.state), w.now)
    && w.redis[OAuthState(q.state)].value == Authorization(q.provider, link)
  }

  /** Whom a callback signs in. A linked provider account signs in its user - but
      not in place of another who asks to link it. One that is not linked goes to
      the user who asks to link it, or to the verified user of the address the
      provider has verified, or to a new user if the address is free. */
  ghost predicate SignsIn(w: World, q: Request, link: Option<Uuid>, id: Uuid)
    requires q.Callback? && q.reply.Info?
  {
    var t, info := w.tables, q.reply.info;
    var account := ProviderAccount(q.provider, info.accountId);
    if account in t.links then t.links[account] == id && (link == None || link == Some(id))
    else if link.Some? then link == Some(id) && id in t.users
    else
      && info.email.Some? && info.email.value != ""
      && (|| (id in t.users && Lower(t.users[id].email) == Lower(info.email.value)
              && info.emailVerified && t.users[id].verified)
          || (id == q.newId && Free(t.users, info.email.value)))
  }

  /** A callback succeeds for a user exactly if the provider answers, the state
      was started for that provider and is still waiting, and that is the user
      to sign in. A state of another provider completes nothing. */
  lemma CallbackExactly(cfg: Config, w: World, q: Request, budget: nat, id: Uuid)
    requires InvAt(w) && q.Callback? && q.newId !in w.minted && Whole(cfg, w, q, budget)
    ensures Done(cfg, w, Serve(q, budget)) && Issued(cfg, w, q).result == Ok(Some(id)) <==>
              q.reply.Info? && exists link :: Waiting(w, q, link) && SignsIn(w, q, link, id)
  {
    var popped := Popped(w.redis, w.now, q.provider, q.state);
    if popped.Ok? {
      assert Waiting(w, q, popped.value);
      if q.reply.Info? {
        SignInExactly(w, q, popped.value, id);
      }
    }
    hide SignsIn, SignInPlan;
  }

  lemma SignInExactly(w: World, q: Request, link: Option<Uuid>, id: Uuid)
    requires InvAt(w) && q.Callback? && q.reply.Info? && q.newId !in w.minted
    ensures SignInPlan(w.tables, q.provider, q.reply.info, link, q.newId, q.secret).result == Ok(Some(id))
            <==> SignsIn(w, q, link, id)
  {
    var t, info := w.tables, q.reply.info;
    if info.email.Some? {
      FreeIsUnknown(t.users, info.email.value);
      TheOne(t, info.email.value, id);
    }
    hide Lower, EmailExists, Free;
  }

  /** And then the provider account is that user's, every other link stays, no
      user but a new one changes, and a new one is verified exactly if the
      provider has verified the address. */
  lemma CallbackOutcome(cfg: Config, w: World, q: Request, budget: nat, id: Uuid)
    requires InvAt(w) && q.Callback? && q.newId !in w.minted
    requires Done(cfg, w, Serve(q, budget)) && Issued(cfg, w, q).result == Ok(Some(id))
    ensures q.reply.Info?
    ensures var t, t' := w.tables, Next(cfg, w, Serve(q, budget)).tables;
            var info := q.reply.info;
            && t'.tokens == t.tokens
            && t'.links == t.links[ProviderAccount(q.provider, info.accountId) := id]
            && (id in t.users ==> t'.users == t.users)
            && (id !in t.users ==>
                  && info.email.Some? && id == q.newId
                  && t'.users == t.users[id := User(Lower(info.email.value), q.secret, true, info.emailVerified)])
  {
    RequestTables(cfg, w, Serve(q, budget));
    var popped := Popped(w.redis, w.now, q.provider, q.state);
    SignInTables(w, q, popped.value, id);
    hide Next, SignInPlan, ResolvePlan, Resolved, InvAt;
  }

  lemma SignInTables(w: World, q: Request, link: Option<Uuid>, id: Uuid)
    requires InvAt(w) && q.Callback? && q.newId !in w.minted && q.reply.Info?
    requires SignInPlan(w.tables, q.provider, q.reply.info, link, q.newId, q.secret).result == Ok(Some(id))
    ensures var t, info := w.tables, q.reply.info;
            var account, t' := ProviderAccount(q.provider, info.accountId), Resolved(t, info, link, q.newId, q.secret);
            if account in t.links then id == t.links[account] && id in t.users
            else
              && ResolvePlan(t, info, link, q.newId, q.secret).result == Ok(id)
              && t'.tokens == t.tokens && t'.links == t.links
              && (id in t.users ==> t'.users == t.users)
              && (id !in t.users ==>
                    && info.email.Some? && id == q.newId
                    && t'.users == t.users[id := User(Lower(info.email.value), q.secret, true, info.emailVerified)])
  {
    hide Lower, EmailExists;
  }
}
