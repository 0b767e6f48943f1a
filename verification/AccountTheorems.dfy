/** The promises of the e-mail and OAuth flows. */
module AccountTheorems {
  import opened Base
  import opened Stores
  import opened Accounts
  import opened AccountRuns

  // ----------------------------------------------------- addresses

  /** The request shows that `id` controls the address: it presents, with
      success, a token of `id` that went there, or a provider that has verified
      the address signs `id` in. */
  ghost predicate Shows(cfg: Config, w: World, step: Step, id: Uuid, address: string) {
    && Done(cfg, w, step)
    && match step.request
       case Present(raw, _, _, _) =>
         raw in w.tables.tokens && w.tables.tokens[raw].user == id && raw in w.mailed && w.mailed[raw] == address
       case Callback(_, _, reply, _, _) =>
         && Issued(cfg, w, step.request).result == Ok(Some(id))
         && reply.Info? && reply.info.emailVerified && reply.info.email.Some?
         && Lower(reply.info.email.value) == address
       case _ => false
  }

  /** The request succeeds and mails the raw token to the address. */
  ghost predicate Mails(cfg: Config, w: World, step: Step, raw: Uuid, address: string) {
    Done(cfg, w, step) && raw in Mailed(w, step.request) && Mailed(w, step.request)[raw] == address
  }

  ghost predicate MailsAt(cfg: Config, w: World, steps: seq<Step>, i: nat, raw: Uuid, address: string) {
    i < |steps| && Mails(cfg, Run(cfg, w, steps[..i]), steps[i], raw, address)
  }

  /** Step `i` of the run shows it; the token it presents, if it does, was
      mailed to that address by an earlier step. */
  ghost predicate ShowsAt(cfg: Config, w: World, steps: seq<Step>, i: nat, id: Uuid, address: string) {
    && i < |steps| && Shows(cfg, Run(cfg, w, steps[..i]), steps[i], id, address)
    && (steps[i].request.Present? ==>
          exists j: nat :: j < i && MailsAt(cfg, w, steps, j, steps[i].request.raw, address))
  }

  lemma RunShift(cfg: Config, w: World, steps: seq<Step>, i: nat)
    requires steps != [] && i < |steps|
    ensures Run(cfg, w, steps[..i + 1]) == Run(cfg, Next(cfg, w, steps[0]), steps[1..][..i])
  {
    assert steps[..i + 1][0] == steps[0] && steps[..i + 1][1..] == steps[1..][..i];
  }

  /** No step of the run mails the token. */
  ghost predicate LastMailed(cfg: Config, w: World, steps: seq<Step>, raw: Uuid)
    decreases |steps|
  {
    steps == [] ||
    (&& !(Done(cfg, w, steps[0]) && raw in Mailed(w, steps[0].request))
     && LastMailed(cfg, Next(cfg, w, steps[0]), steps[1..], raw))
  }

  lemma {:induction false} MailedStays(cfg: Config, w: World, steps: seq<Step>, raw: Uuid)
    requires raw in w.mailed && LastMailed(cfg, w, steps, raw)
    ensures raw in Run(cfg, w, steps).mailed && Run(cfg, w, steps).mailed[raw] == w.mailed[raw]
    decreases |steps|
  {
    if steps != [] {
      MailedStays(cfg, Next(cfg, w, steps[0]), steps[1..], raw);
    }
  }

  lemma {:induction false} MailedLater(cfg: Config, w: World, steps: seq<Step>, raw: Uuid)
    requires raw in Run(cfg, w, steps).mailed && (raw !in w.mailed || !LastMailed(cfg, w, steps, raw))
    ensures exists i: nat :: MailsAt(cfg, w, steps, i, raw, Run(cfg, w, steps).mailed[raw])
    decreases |steps|
  {
    var w1 := Next(cfg, w, steps[0]);
    var address := Run(cfg, w, steps).mailed[raw];
    if raw in w1.mailed && LastMailed(cfg, w1, steps[1..], raw) {
      MailedStays(cfg, w1, steps[1..], raw);
      assert steps[..0] == [];
      assert MailsAt(cfg, w, steps, 0, raw, address);
    } else {
      MailedLater(cfg, w1, steps[1..], raw);
      var i: nat :| MailsAt(cfg, w1, steps[1..], i, raw, address);
      RunShift(cfg, w, steps, i);
      assert MailsAt(cfg, w, steps, i + 1, raw, address);
    }
  }

  /** What was proven in the course of a run was shown by one of its steps. */
  lemma {:induction false} ProvenBy(cfg: Config, w: World, steps: seq<Step>, id: Uuid, address: string) returns (i: nat)
    requires (id, address) in Run(cfg, w, steps).proven && (id, address) !in w.proven
    ensures i < |steps| && Shows(cfg, Run(cfg, w, steps[..i]), steps[i], id, address)
    decreases |steps|
  {
    var w1 := Next(cfg, w, steps[0]);
    if (id, address) in w1.proven {
      assert steps[..0] == [];
      i := 0;
    } else {
      i := ProvenBy(cfg, w1, steps[1..], id, address);
      RunShift(cfg, w, steps, i);
      i := i + 1;
    }
  }

  /** Whoever is verified has shown control of the address they have now: some
      step of the run presented a token that an earlier step had mailed there,
      or was a callback whose provider had verified it. */
  lemma VerifiedWasShown(cfg: Config, w: World, steps: seq<Step>, id: Uuid)
    requires Initial(w) && ValidRun(cfg, w, steps)
    requires id in Run(cfg, w, steps).tables.users && Run(cfg, w, steps).tables.users[id].verified
    ensures exists i: nat :: ShowsAt(cfg, w, steps, i, id, Run(cfg, w, steps).tables.users[id].email)
  {
    InvInitial(w);
    InvRun(cfg, w, steps);
    var address := Run(cfg, w, steps).tables.users[id].email;
    var i := ProvenBy(cfg, w, steps, id, address);
    if steps[i].request.Present? {
      var raw := steps[i].request.raw;
      MailedLater(cfg, w, steps[..i], raw);
      var j: nat :| MailsAt(cfg, w, steps[..i], j, raw, address);
      assert steps[..i][..j] == steps[..j];
      assert MailsAt(cfg, w, steps, j, raw, address);
    }
    assert ShowsAt(cfg, w, steps, i, id, address);
  }

  /** No two users ever share an address, whatever its letter case. */
  lemma AddressesUnique(cfg: Config, w: World, steps: seq<Step>, a: Uuid, b: Uuid)
    requires Initial(w) && ValidRun(cfg, w, steps)
    ensures var users := Run(cfg, w, steps).tables.users;
            a in users && b in users && Lower(users[a].email) == Lower(users[b].email) ==> a == b
  {
    InvInitial(w);
    InvRun(cfg, w, steps);
    var users := Run(cfg, w, steps).tables.users;
    if a in users && b in users {
      assert Lowered(users[a].email) && Lowered(users[b].email);
    }
  }

  // ----------------------------------------------------- single-use tokens

  /** A user has at most one token for a purpose. */
  lemma OneTokenPerPurpose(cfg: Config, w: World, steps: seq<Step>, a: Uuid, b: Uuid)
    requires Initial(w) && ValidRun(cfg, w, steps)
    ensures var tokens := Run(cfg, w, steps).tables.tokens;
            && a in tokens && b in tokens
            && tokens[a].user == tokens[b].user && tokens[a].purpose == tokens[b].purpose
            ==> a == b
  {
    InvInitial(w);
    InvRun(cfg, w, steps);
  }

  predicate Presents(step: Step, raw: Uuid) {
    step.Serve? && step.request.Present? && step.request.raw == raw
  }

  /** A token is marked used in the database exactly by the request that
      committed its effect. */
  lemma UsedWithEffect(cfg: Config, w: World, step: Step, raw: Uuid)
    requires InvAt(w) && Possible(w, step)
    requires raw in w.tables.tokens && w.tables.tokens[raw].usedAt.None?
    ensures var t, t' := w.tables, Next(cfg, w, step).tables;
            var token := t.tokens[raw];
            && (raw in t'.tokens && t'.tokens[raw].usedAt.Some? <==> Done(cfg, w, step) && Presents(step, raw))
            && (Done(cfg, w, step) && Presents(step, raw) ==>
                  && token.purpose == step.request.purpose && w.now < token.expiresAt
                  && token.user in t.users && token.user in t'.users
                  && raw in w.mailed
                  && t'.users[token.user]
                     == (match token.purpose
                         case VerifyEmail => t.users[token.user].(verified := true)
                         case ResetPassword => t.users[token.user].(password := step.request.password)
                         case ChangeEmail => t.users[token.user].(email := w.mailed[raw], verified := true))
                  && (forall id | id in t.users && id != token.user :: id in t'.users && t'.users[id] == t.users[id]))
  {
    RequestTables(cfg, w, step);
    if Done(cfg, w, step) && !Presents(step, raw) {
      hide RequestPlan, EffectPlan, CallbackPlan, InvAt;
      FinalKeepsUnused(cfg, w, step.request, raw);
    }
  }

  lemma FinalKeepsUnused(cfg: Config, w: World, q: Request, raw: Uuid)
    requires raw in w.tables.tokens && w.tables.tokens[raw].usedAt.None?
    requires q.Present? ==> q.raw != raw
    ensures var t' := Final(cfg, w.redis, w.tables, w.now, q);
            raw in t'.tokens ==> t'.tokens[raw].usedAt.None?
  {
  }

  /** Used or superseded: a token that was drawn and cannot be presented. */
  ghost predicate Over(w: World, raw: Uuid) {
    raw in w.minted && (raw in w.tables.tokens ==> w.tables.tokens[raw].usedAt.Some?)
  }

  lemma OverStep(cfg: Config, w: World, step: Step, raw: Uuid)
    requires Over(w, raw) && Possible(w, step)
    ensures Over(Next(cfg, w, step), raw)
    ensures Presents(step, raw) ==> !Done(cfg, w, step)
  {
    RequestTables(cfg, w, step);
    if Done(cfg, w, step) {
      hide RequestPlan, EffectPlan, CallbackPlan;
      FinalKeepsOver(cfg, w, step.request, raw);
    }
  }

  lemma FinalKeepsOver(cfg: Config, w: World, q: Request, raw: Uuid)
    requires Over(w, raw) && Minted(q) !! w.minted
    ensures var t' := Final(cfg, w.redis, w.tables, w.now, q);
            raw in t'.tokens ==> t'.tokens[raw].usedAt.Some?
  {
  }

  lemma {:induction false} OverRun(cfg: Config, w: World, steps: seq<Step>, raw: Uuid)
    requires Over(w, raw) && ValidRun(cfg, w, steps)
    ensures Over(Run(cfg, w, steps), raw)
    decreases |steps|
  {
    hide Over;
    if steps != [] {
      OverStep(cfg, w, steps[0], raw);
      OverRun(cfg, Next(cfg, w, steps[0]), steps[1..], raw);
    }
  }

  /** A token's effect commits at most once, in every run from its first use. */
  lemma TokenOnce(cfg: Config, w: World, first: Step, steps: seq<Step>, again: Step, raw: Uuid)
    requires InvAt(w) && Done(cfg, w, first) && Presents(first, raw)
    requires ValidRun(cfg, w, [first] + steps)
    ensures var later := Run(cfg, Next(cfg, w, first), steps);
            Presents(again, raw) ==> !Done(cfg, later, again)
  {
    var w1 := Next(cfg, w, first);
    assert ([first] + steps)[1..] == steps;
    RequestTables(cfg, w, first);
    assert Over(w1, raw) by {
      assert raw in w.tables.tokens && raw in w.minted;
      hide RequestPlan, EffectPlan;
    }
    OverRun(cfg, w1, steps, raw);
    var later := Run(cfg, w1, steps);
    if Presents(again, raw) {
      OverStep(cfg, later, again, raw);
    }
  }

  /** Confirming a change to an address someone has taken meanwhile fails and
      leaves the token as it was: it can be confirmed once the address is free. */
  lemma ConflictKeepsToken(cfg: Config, w: World, raw: Uuid, budget: nat)
    requires InvAt(w) && raw in w.tables.tokens && w.tables.tokens[raw].purpose == ChangeEmail
    requires EmailExists(w.tables.users, w.mailed[raw])
    ensures var step := Serve(Present(raw, ChangeEmail, "", true), budget);
            !Done(cfg, w, step) && Next(cfg, w, step).tables == w.tables
  {
    var step := Serve(Present(raw, ChangeEmail, "", true), budget);
    RequestTables(cfg, w, step);
    assert w.tables.tokens[raw].newEmail == Some(w.mailed[raw]);
  }

  /** When presenting a token has its effect, request by request. */
  lemma PresentSucceeds(cfg: Config, w: World, raw: Uuid, purpose: Purpose, password: string, strong: bool, budget: nat)
    requires InvAt(w) && 6 <= budget
    ensures Done(cfg, w, Serve(Present(raw, purpose, password, strong), budget)) <==>
              && raw in w.tables.tokens && w.tables.tokens[raw].purpose == purpose
              && w.tables.tokens[raw].usedAt.None? && w.now < w.tables.tokens[raw].expiresAt
              && (purpose == ResetPassword ==> strong)
              && (purpose == ChangeEmail ==> !EmailExists(w.tables.users, w.mailed[raw]))
  {
    hide EmailExists;
    var t := w.tables;
    if Consumable(t, raw, purpose, w.now) {
      assert t.tokens[raw].user in t.users;
      assert purpose == ChangeEmail ==> t.tokens[raw].newEmail == Some(w.mailed[raw]);
    }
  }

  // ----------------------------------------------------- OAuth

  predicate CallsBack(step: Step, account: ProviderAccount) {
    && step.Serve? && step.request.Callback? && step.request.reply.Info?
    && ProviderAccount(step.request.provider, step.request.reply.info.accountId) == account
  }

  lemma LinkStep(cfg: Config, w: World, step: Step, account: ProviderAccount)
    ensures var links := Next(cfg, w, step).tables.links;
            && (account in w.tables.links ==> account in links && links[account] == w.tables.links[account])
            && (account !in w.tables.links && account in links ==> Done(cfg, w, step) && CallsBack(step, account))
    ensures CallsBack(step, account) && Done(cfg, w, step) ==>
              && account in Next(cfg, w, step).tables.links
              && Issued(cfg, w, step.request).result == Ok(Some(Next(cfg, w, step).tables.links[account]))
  {
    RequestTables(cfg, w, step);
    if Done(cfg, w, step) {
      hide RequestPlan, EffectPlan, InvAt;
      if step.request.Callback? {
        CallbackLinks(cfg, w, step.request, account);
      }
    }
  }

  lemma CallbackLinks(cfg: Config, w: World, q: Request, account: ProviderAccount)
    requires q.Callback? && RequestPlan(cfg, w.redis, w.tables, w.now, q).result.Ok?
    ensures var links := Final(cfg, w.redis, w.tables, w.now, q).links;
            && (account in w.tables.links ==> account in links && links[account] == w.tables.links[account])
            && (account !in w.tables.links && account in links ==> CallsBack(Serve(q, 0), account))
            && (CallsBack(Serve(q, 0), account) ==>
                  && account in links
                     && RequestPlan(cfg, w.redis, w.tables, w.now, q).result == Ok(Some(links[account])))
  {
    hide ResolvePlan, Resolved;
    var popped := Popped(w.redis, w.now, q.provider, q.state);
    ResolvedLinks(w.tables, q.reply.info, popped.value, q.newId, q.secret);
  }

  lemma ResolvedLinks(t: Tables, info: UserInfo, link: Option<Uuid>, newId: Uuid, secret: string)
    ensures Resolved(t, info, link, newId, secret).links == t.links
  {
  }

  lemma {:induction false} LinksGrow(cfg: Config, w: World, steps: seq<Step>, account: ProviderAccount)
    requires account in w.tables.links
    ensures var links := Run(cfg, w, steps).tables.links;
            account in links && links[account] == w.tables.links[account]
    decreases |steps|
  {
    hide Next;
    if steps != [] {
      LinkStep(cfg, w, steps[0], account);
      LinksGrow(cfg, Next(cfg, w, steps[0]), steps[1..], account);
    }
  }

  /** Once a provider account has signed somebody in, every later callback that
      succeeds for it signs in the same user. */
  lemma SameUserForever(cfg: Config, w: World, first: Step, steps: seq<Step>, again: Step, account: ProviderAccount)
    requires CallsBack(first, account) && Done(cfg, w, first)
    requires var later := Run(cfg, Next(cfg, w, first), steps);
             CallsBack(again, account) && Done(cfg, later, again)
    ensures Issued(cfg, Run(cfg, Next(cfg, w, first), steps), again.request).result
            == Issued(cfg, w, first.request).result
  {
    hide Next, Issued, Done;
    LinkStep(cfg, w, first, account);
    var w1 := Next(cfg, w, first);
    LinksGrow(cfg, w1, steps, account);
    LinkStep(cfg, Run(cfg, w1, steps), again, account);
  }

  /** A user who was there before is found by address exactly if both the
      provider and the service have verified it. */
  lemma LinkedByAddress(t: Tables, info: UserInfo, newId: Uuid, secret: string, id: Uuid)
    requires EmailsOk(t) && id in t.users && newId !in t.users
    ensures ResolvePlan(t, info, None, newId, secret).result == Ok(id) <==>
              && info.email.Some? && info.email.value != "" && HasEmail(t.users, id, info.email.value)
              && info.emailVerified && t.users[id].verified
  {
    if info.email.Some? && HasEmail(t.users, id, info.email.value) {
      var found := ByEmail(t.users, info.email.value);
      assert Lowered(t.users[id].email) && Lowered(t.users[found.value].email);
    }
  }

  // ----------------------------------------------------- OAuth state

  predicate Completes(step: Step, state: Uuid) {
    step.Serve? && step.request.Callback? && step.request.state == state
  }

  predicate StateGone(w: World, state: Uuid) {
    state in w.minted && OAuthState(state) !in w.redis
  }

  lemma RequestSets(cfg: Config, w: World, q: Request, state: Uuid)
    requires q.StartOAuth? ==> q.state != state
    ensures forall c | c in Issued(cfg, w, q).cmds :: NeverPuts(c, OAuthState(state))
  {
    hide EffectPlan, SignInPlan;
    match q
    case Present(raw, purpose, password, _) =>
      EffectCommits(w.tables, raw, purpose, w.now, password);
    case Callback(provider, s, reply, newId, secret) =>
      var popped := Popped(w.redis, w.now, provider, s);
      if popped.Ok? && reply.Info? {
        SignInCommits(w.tables, provider, reply.info, popped.value, newId, secret);
      }
    case _ =>
  }

  lemma GoneStep(cfg: Config, w: World, step: Step, state: Uuid)
    requires StateGone(w, state) && Possible(w, step)
    ensures StateGone(Next(cfg, w, step), state)
    ensures Completes(step, state) ==> !Done(cfg, w, step)
  {
    hide Issued;
    if step.Serve? {
      RequestSets(cfg, w, step.request, state);
      StaysAway(State(w.redis, w.tables, w.tables), w.now, Cut(Issued(cfg, w, step.request).cmds, step.budget),
                OAuthState(state));
      if Completes(step, state) {
        GoneRefuses(cfg, w, step, state);
      }
    }
  }

  lemma GoneRefuses(cfg: Config, w: World, step: Step, state: Uuid)
    requires StateGone(w, state) && Completes(step, state)
    ensures !Done(cfg, w, step)
  {
  }

  lemma {:induction false} GoneRun(cfg: Config, w: World, steps: seq<Step>, state: Uuid)
    requires StateGone(w, state) && ValidRun(cfg, w, steps)
    ensures StateGone(Run(cfg, w, steps), state)
    decreases |steps|
  {
    hide Next;
    if steps != [] {
      GoneStep(cfg, w, steps[0], state);
      GoneRun(cfg, Next(cfg, w, steps[0]), steps[1..], state);
    }
  }

  /** Two commands into a callback whose state is live the state is gone,
      however the callback goes on. */
  lemma CallbackPops(cfg: Config, w: World, step: Step, state: Uuid)
    requires Completes(step, state) && 2 <= step.budget && state in w.minted
    requires Live(w.redis, OAuthState(state), w.now)
    ensures StateGone(Next(cfg, w, step), state)
  {
    var s := State(w.redis, w.tables, w.tables);
    var cmds := Cut(Issued(cfg, w, step.request).cmds, step.budget);
    var pop := PopCmds(w.redis, w.now, state);
    assert cmds[..2] == pop;
    assert cmds == pop + cmds[2..];
    ApplyConcat(s, w.now, pop, cmds[2..]);
    ApplyTwo(s, w.now, pop[0], pop[1]);
    RequestSets(cfg, w, step.request, state);
    forall c | c in cmds[2..]
      ensures NeverPuts(c, OAuthState(state))
    {
      assert c in Issued(cfg, w, step.request).cmds;
    }
    StaysAway(ApplyAll(s, w.now, pop), w.now, cmds[2..], OAuthState(state));
  }

  /** Every state value waiting in Redis was drawn by the server. */
  ghost predicate StatesMinted(w: World) {
    forall state | OAuthState(state) in w.redis :: state in w.minted
  }

  lemma StatesStep(cfg: Config, w: World, step: Step)
    requires StatesMinted(w)
    ensures StatesMinted(Next(cfg, w, step))
  {
    hide Issued;
    if step.Serve? {
      forall state | OAuthState(state) in Next(cfg, w, step).redis
        ensures state in w.minted + Minted(step.request)
      {
        if OAuthState(state) !in w.redis && !(step.request.StartOAuth? && step.request.state == state) {
          RequestSets(cfg, w, step.request, state);
          assert forall c | c in Cut(Issued(cfg, w, step.request).cmds, step.budget) ::
              c in Issued(cfg, w, step.request).cmds;
          StaysAway(State(w.redis, w.tables, w.tables), w.now, Cut(Issued(cfg, w, step.request).cmds, step.budget),
                    OAuthState(state));
        }
      }
    }
  }

  lemma {:induction false} StatesRun(cfg: Config, w: World, steps: seq<Step>)
    requires StatesMinted(w)
    ensures StatesMinted(Run(cfg, w, steps))
    decreases |steps|
  {
    hide Next, StatesMinted;
    if steps != [] {
      StatesStep(cfg, w, steps[0]);
      StatesRun(cfg, Next(cfg, w, steps[0]), steps[1..]);
    }
  }

  /** A state value completes at most one callback; and one spent on the wrong
      provider, or on a callback that failed later, completes none. */
  lemma StateOnce(cfg: Config, w0: World, before: seq<Step>, first: Step, steps: seq<Step>, again: Step, state: Uuid)
    requires Initial(w0)
    requires Completes(first, state) && 2 <= first.budget
    requires Live(Run(cfg, w0, before).redis, OAuthState(state), Run(cfg, w0, before).now)
    requires ValidRun(cfg, Run(cfg, w0, before), [first] + steps)
    requires Completes(again, state)
             && Possible(Run(cfg, Next(cfg, Run(cfg, w0, before), first), steps), again)
    ensures !Done(cfg, Run(cfg, Next(cfg, Run(cfg, w0, before), first), steps), again)
  {
    hide Next;
    var w := Run(cfg, w0, before);
    assert ([first] + steps)[1..] == steps;
    StatesRun(cfg, w0, before);
    CallbackPops(cfg, w, first, state);
    GoneRun(cfg, Next(cfg, w, first), steps, state);
    GoneStep(cfg, Run(cfg, Next(cfg, w, first), steps), again, state);
  }
}
