/** Recovery codes as a conserved resource: every code is unused or stands for
    exactly one session it opened. */
module RecoveryCodes {
  import opened Base
  import opened Stores
  import opened TwoFactor

  function Total(codes: seq<CodeRow>, user: Uuid): nat {
    if codes == [] then 0 else (if codes[0].user == user then 1 else 0) + Total(codes[1..], user)
  }

  /** How many sessions the code opened. */
  function Times(sessions: seq<Opening>, id: Uuid): nat {
    if sessions == [] then 0 else (if sessions[0].via == Some(id) then 1 else 0) + Times(sessions[1..], id)
  }

  /** How many sessions the user's codes opened. */
  function Redeemed(codes: seq<CodeRow>, sessions: seq<Opening>, user: Uuid): nat {
    if codes == [] then 0
    else (if codes[0].user == user then Times(sessions, codes[0].id) else 0) + Redeemed(codes[1..], sessions, user)
  }

  predicate Distinct(codes: seq<CodeRow>) {
    codes == [] || ((forall row | row in codes[1..] :: row.id != codes[0].id) && Distinct(codes[1..]))
  }

  /** A code is spent exactly if one session was opened by it, and no code opens two. */
  predicate Spent(codes: seq<CodeRow>, sessions: seq<Opening>) {
    forall row | row in codes :: Times(sessions, row.id) == if row.usedAt.Some? then 1 else 0
  }

  ghost predicate Inv(cfg: Config, t: Tables, minted: set<Uuid>) {
    && Distinct(t.codes)
    && Spent(t.codes, t.sessions)
    && (forall row | row in t.codes :: row.id in minted)
    && (forall o | o in t.sessions && o.via.Some? :: o.via.value in minted)
    && (forall user :: Total(t.codes, user) == cfg.backupCodes * Batches(t, user))
  }

  lemma {:induction false} TimesAppend(sessions: seq<Opening>, o: Opening, id: Uuid)
    ensures Times(sessions + [o], id) == Times(sessions, id) + if o.via == Some(id) then 1 else 0
  {
    if sessions == [] {
      assert sessions + [o] == [o];
    } else {
      assert (sessions + [o])[1..] == sessions[1..] + [o];
      TimesAppend(sessions[1..], o, id);
    }
  }

  lemma {:induction false} TimesNone(sessions: seq<Opening>, id: Uuid)
    requires forall o | o in sessions :: o.via != Some(id)
    ensures Times(sessions, id) == 0
  {
    if sessions != [] {
      TimesNone(sessions[1..], id);
    }
  }

  lemma {:induction false} SpendRow(codes: seq<CodeRow>, i: nat, now: int, user: Uuid)
    requires i < |codes| && Distinct(codes)
    ensures var codes' := codes[i := codes[i].(usedAt := Some(now))];
            && Distinct(codes')
            && Total(codes', user) == Total(codes, user)
            && (forall row | row in codes' ::
                  row == codes[i].(usedAt := Some(now)) || (row in codes && row.id != codes[i].id))
  {
    var codes' := codes[i := codes[i].(usedAt := Some(now))];
    if i == 0 {
      assert codes'[1..] == codes[1..];
    } else {
      var rest := codes[1..];
      assert rest[i - 1] == codes[i];
      SpendRow(rest, i - 1, now, user);
      assert codes'[1..] == rest[i - 1 := rest[i - 1].(usedAt := Some(now))];
      assert codes' == [codes[0]] + codes'[1..];
    }
  }

  lemma {:induction false} AppendRows(codes: seq<CodeRow>, more: seq<CodeRow>, user: Uuid)
    ensures Total(codes + more, user) == Total(codes, user) + Total(more, user)
    ensures Distinct(codes) && Distinct(more) && (forall a, b | a in codes && b in more :: a.id != b.id)
            ==> Distinct(codes + more)
  {
    if codes == [] {
      assert codes + more == more;
    } else {
      assert (codes + more)[1..] == codes[1..] + more;
      AppendRows(codes[1..], more, user);
    }
  }

  lemma {:induction false} OtherRows(codes: seq<CodeRow>, gone: Uuid, user: Uuid)
    ensures Total(Others(codes, gone), user) == if user == gone then 0 else Total(codes, user)
    ensures Distinct(codes) ==> Distinct(Others(codes, gone))
  {
    if codes != [] {
      OtherRows(codes[1..], gone, user);
      if codes[0].user != gone {
        assert Others(codes, gone)[1..] == Others(codes[1..], gone);
      }
    }
  }

  lemma {:induction false} BatchRows(owner: Uuid, drawn: seq<Drawn>, user: Uuid)
    requires forall i, j | 0 <= i < j < |drawn| :: drawn[i].id != drawn[j].id
    ensures Total(Batch(owner, drawn), user) == if user == owner then |drawn| else 0
    ensures Distinct(Batch(owner, drawn))
  {
    if drawn != [] {
      assert Batch(owner, drawn)[1..] == Batch(owner, drawn[1..]);
      BatchRows(owner, drawn[1..], user);
      forall row | row in Batch(owner, drawn[1..])
        ensures row.id != drawn[0].id
      {
        var k :| 0 <= k < |drawn| - 1 && Batch(owner, drawn[1..])[k] == row;
        assert drawn[1..][k] == drawn[k + 1];
      }
    }
  }

  /** The heart of conservation: as many codes as were ever inserted. */
  lemma {:induction false} UnusedAndRedeemed(codes: seq<CodeRow>, sessions: seq<Opening>, user: Uuid)
    requires Spent(codes, sessions)
    ensures Remaining(codes, user) + Redeemed(codes, sessions, user) == Total(codes, user)
  {
    if codes != [] {
      UnusedAndRedeemed(codes[1..], sessions, user);
    }
  }

  lemma InvRedeem(cfg: Config, t: Tables, minted: set<Uuid>, user: Uuid, i: nat, now: int, sid: Uuid)
    requires Inv(cfg, t, minted) && i < |t.codes| && t.codes[i].usedAt.None?
    ensures Inv(cfg, Opened(Spend(t, i, now), sid, user, Some(t.codes[i].id)), minted)
  {
    var row := t.codes[i];
    var t' := Opened(Spend(t, i, now), sid, user, Some(row.id));
    forall u
      ensures Total(t'.codes, u) == cfg.backupCodes * Batches(t', u)
    {
      SpendRow(t.codes, i, now, u);
    }
    SpendRow(t.codes, i, now, user);
    forall r | r in t'.codes
      ensures Times(t'.sessions, r.id) == if r.usedAt.Some? then 1 else 0
    {
      TimesAppend(t.sessions, Opening(sid, user, Some(row.id)), r.id);
    }
  }

  lemma InvOpen(cfg: Config, t: Tables, minted: set<Uuid>, user: Uuid, sid: Uuid)
    requires Inv(cfg, t, minted)
    ensures Inv(cfg, Opened(t, sid, user, None), minted)
  {
    forall row | row in t.codes
      ensures Times(t.sessions + [Opening(sid, user, None)], row.id) == if row.usedAt.Some? then 1 else 0
    {
      TimesAppend(t.sessions, Opening(sid, user, None), row.id);
    }
    assert forall u :: Batches(Opened(t, sid, user, None), u) == Batches(t, u);
  }

  lemma InvForget(cfg: Config, t: Tables, minted: set<Uuid>, user: Uuid)
    requires Inv(cfg, t, minted)
    ensures Inv(cfg, WithoutCodes(t, user), minted)
  {
    var t' := WithoutCodes(t, user);
    forall u
      ensures Total(t'.codes, u) == cfg.backupCodes * Batches(t', u)
    {
      OtherRows(t.codes, user, u);
      assert Batches(t', u) == if u == user then 0 else Batches(t, u);
    }
    hide Total, Distinct, Times;
    OtherRows(t.codes, user, user);
  }

  lemma InvBatch(cfg: Config, t: Tables, minted: set<Uuid>, user: Uuid, drawn: seq<Drawn>, ids: set<Uuid>)
    requires Inv(cfg, t, minted) && |drawn| == cfg.backupCodes
    requires forall i, j | 0 <= i < j < |drawn| :: drawn[i].id != drawn[j].id
    requires forall d | d in drawn :: d.id in ids && d.id !in minted
    ensures Inv(cfg, WithBatch(t, user, drawn), minted + ids)
  {
    var t' := WithBatch(t, user, drawn);
    var batch := Batch(user, drawn);
    forall row | row in batch
      ensures row.id in ids && row.id !in minted && row.usedAt.None? && Times(t.sessions, row.id) == 0
    {
      var k :| 0 <= k < |batch| && batch[k] == row;
      assert drawn[k] in drawn;
      TimesNone(t.sessions, row.id);
    }
    forall u
      ensures Total(t'.codes, u) == cfg.backupCodes * Batches(t', u)
    {
      AppendRows(t.codes, batch, u);
      BatchRows(user, drawn, u);
      assert cfg.backupCodes * (Batches(t, user) + 1) == cfg.backupCodes * Batches(t, user) + cfg.backupCodes;
    }
    AppendRows(t.codes, batch, user);
    BatchRows(user, drawn, user);
  }

  lemma InvMinted(cfg: Config, t: Tables, minted: set<Uuid>, more: set<Uuid>)
    requires Inv(cfg, t, minted)
    ensures Inv(cfg, t, minted + more)
  {
  }

  lemma InvFactors(cfg: Config, t: Tables, minted: set<Uuid>, factors: map<Uuid, Factor>)
    requires Inv(cfg, t, minted)
    ensures Inv(cfg, t.(factors := factors), minted)
  {
    assert forall u :: Batches(t.(factors := factors), u) == Batches(t, u);
  }

  lemma InvFinal(cfg: Config, w: World, q: Request)
    requires Inv(cfg, w.tables, w.minted) && Possible(cfg, w, Serve(q, 0))
    ensures Inv(cfg, Final(w.tables, w.now, q), w.minted + Minted(q))
  {
    hide Inv;
    var t := w.tables;
    InvMinted(cfg, t, w.minted, Minted(q));
    InvFactors(cfg, t, w.minted + Minted(q), Final(t, w.now, q).factors);
    match q
    case TotpLogin(user, _, sid) =>
      InvOpen(cfg, t, w.minted + Minted(q), user, sid);
    case RecoveryLogin(user, code, sid) =>
      var m := Match(t.codes, user, Normalize(code), 0);
      if m.Some? {
        InvRedeem(cfg, t, w.minted + Minted(q), user, m.value, w.now, sid);
      }
    case Generate(user, _, _, replace, drawn) =>
      InvForget(cfg, t, w.minted, user);
      InvBatch(cfg, if replace then WithoutCodes(t, user) else t, w.minted, user, drawn, Minted(q));
    case Disable(user, _, _) =>
      InvForget(cfg, WithoutFactor(t, user), w.minted + Minted(q), user);
    case _ =>
  }

  lemma InvStep(cfg: Config, g: Generator, w: World, step: Step)
    requires Inv(cfg, w.tables, w.minted) && Possible(cfg, w, step)
    ensures Inv(cfg, Next(cfg, g, w, step).tables, Next(cfg, g, w, step).minted)
  {
    hide Inv, Final, Done;
    RequestTables(cfg, g, w, step);
    if step.Serve? {
      InvMinted(cfg, w.tables, w.minted, Minted(step.request));
      if Done(cfg, g, w, step) {
        InvFinal(cfg, w, step.request);
      }
    }
  }

  lemma {:induction false} InvRun(cfg: Config, g: Generator, w: World, steps: seq<Step>)
    requires Inv(cfg, w.tables, w.minted) && ValidRun(cfg, g, w, steps)
    ensures Inv(cfg, Run(cfg, g, w, steps).tables, Run(cfg, g, w, steps).minted)
    decreases |steps|
  {
    hide Inv;
    if steps != [] {
      InvStep(cfg, g, w, steps[0]);
      InvRun(cfg, g, Next(cfg, g, w, steps[0]), steps[1..]);
    }
  }

  /** In every reachable state, outages included: unused codes and sessions
      opened by codes add up to the sets that were issued, and a code is spent
      exactly if the session it opened is in the database. */
  lemma Conservation(cfg: Config, g: Generator, w: World, steps: seq<Step>, user: Uuid)
    requires Initial(w) && ValidRun(cfg, g, w, steps)
    ensures var t := Run(cfg, g, w, steps).tables;
            && Remaining(t.codes, user) + Redeemed(t.codes, t.sessions, user) == cfg.backupCodes * Batches(t, user)
            && Spent(t.codes, t.sessions)
  {
    assert Inv(cfg, w.tables, w.minted);
    InvRun(cfg, g, w, steps);
    var t := Run(cfg, g, w, steps).tables;
    UnusedAndRedeemed(t.codes, t.sessions, user);
  }

  /** The sum is the configured number exactly while one set is out. */
  lemma OneSetOut(cfg: Config, g: Generator, w: World, steps: seq<Step>, user: Uuid)
    requires Initial(w) && ValidRun(cfg, g, w, steps) && 0 < cfg.backupCodes
    ensures var t := Run(cfg, g, w, steps).tables;
            Remaining(t.codes, user) + Redeemed(t.codes, t.sessions, user) == cfg.backupCodes <==> Batches(t, user) == 1
  {
    hide Initial, ValidRun, Run, Remaining, Redeemed;
    Conservation(cfg, g, w, steps, user);
    OneTimes(cfg.backupCodes, Batches(Run(cfg, g, w, steps).tables, user));
  }

  lemma OneTimes(k: nat, n: nat)
    requires 0 < k
    ensures k * n == k <==> n == 1
  {
    if 2 <= n {
      assert k * n == k * (n - 2) + 2 * k;
      assert 0 <= k * (n - 2);
    }
  }

  /** How many sets are out: regenerating makes it one, disabling none, a plain
      request adds one and is only granted when every code is spent. */
  lemma SetsOut(cfg: Config, g: Generator, w: World, step: Step, user: Uuid)
    ensures var b, b' := Batches(w.tables, user), Batches(Next(cfg, g, w, step).tables, user);
            if !Done(cfg, g, w, step) || step.request.user != user then b' == b
            else if step.request.Generate? && step.request.replace then b' == 1
            else if step.request.Generate? then b' == b + 1 && Remaining(w.tables.codes, user) == 0
            else if step.request.Disable? then b' == 0
            else b' == b
  {
    RequestTables(cfg, g, w, step);
  }

  /** The sum is not kept at the configured number: spend every code, ask for
      codes without replacing them, and the spent ones still count. */
  lemma SecondSet(cfg: Config, g: Generator, w: World, step: Step, user: Uuid)
    requires Inv(cfg, w.tables, w.minted) && Possible(cfg, w, step) && 0 < cfg.backupCodes
    requires Batches(w.tables, user) == 1
    requires Done(cfg, g, w, step) && step.request.Generate? && !step.request.replace && step.request.user == user
    ensures var t := Next(cfg, g, w, step).tables;
            Remaining(t.codes, user) + Redeemed(t.codes, t.sessions, user) == 2 * cfg.backupCodes
  {
    hide Inv;
    SetsOut(cfg, g, w, step, user);
    InvStep(cfg, g, w, step);
    var t := Next(cfg, g, w, step).tables;
    assert Inv(cfg, t, Next(cfg, g, w, step).minted);
    InvTotal(cfg, t, Next(cfg, g, w, step).minted, user);
    UnusedAndRedeemed(t.codes, t.sessions, user);
  }

  lemma InvTotal(cfg: Config, t: Tables, minted: set<Uuid>, user: Uuid)
    requires Inv(cfg, t, minted)
    ensures Spent(t.codes, t.sessions) && Total(t.codes, user) == cfg.backupCodes * Batches(t, user)
  {
  }

  predicate Gone(w: World, id: Uuid) {
    id in w.minted && forall row | row in w.tables.codes :: row.id != id
  }

  lemma GoneStep(cfg: Config, g: Generator, w: World, step: Step, id: Uuid)
    requires Gone(w, id) && Possible(cfg, w, step)
    ensures Gone(Next(cfg, g, w, step), id)
  {
    RequestTables(cfg, g, w, step);
    if Done(cfg, g, w, step) && step.request.Generate? {
      forall row | row in Batch(step.request.user, step.request.drawn)
        ensures row.id != id
      {
        var k :| 0 <= k < |step.request.drawn| && Batch(step.request.user, step.request.drawn)[k] == row;
        assert step.request.drawn[k].id in Minted(step.request);
      }
    }
  }

  lemma {:induction false} GoneRun(cfg: Config, g: Generator, w: World, steps: seq<Step>, id: Uuid)
    requires Gone(w, id) && ValidRun(cfg, g, w, steps)
    ensures Gone(Run(cfg, g, w, steps), id)
    decreases |steps|
  {
    hide Gone;
    if steps != [] {
      GoneStep(cfg, g, w, steps[0], id);
      GoneRun(cfg, g, Next(cfg, g, w, steps[0]), steps[1..], id);
    }
  }

  /** After a regenerate that went through, no request ever spends a code row
      that was there before. */
  lemma OldCodesNeverAccepted(cfg: Config, g: Generator, w: World, regenerate: Step, steps: seq<Step>, code: string)
    requires Inv(cfg, w.tables, w.minted) && ValidRun(cfg, g, w, [regenerate] + steps)
    requires Done(cfg, g, w, regenerate) && regenerate.request.Generate? && regenerate.request.replace
    ensures var user := regenerate.request.user;
            var t := Run(cfg, g, w, [regenerate] + steps).tables;
            var m := Match(t.codes, user, Normalize(code), 0);
            m.Some? ==>
              forall before | before in w.tables.codes && before.user == user :: t.codes[m.value].id != before.id
  {
    var user := regenerate.request.user;
    var w1 := Next(cfg, g, w, regenerate);
    assert ([regenerate] + steps)[1..] == steps;
    RequestTables(cfg, g, w, regenerate);
    var later := Run(cfg, g, w1, steps);
    var m := Match(later.tables.codes, user, Normalize(code), 0);
    forall row | m.Some? && row in w.tables.codes && row.user == user
      ensures later.tables.codes[m.value].id != row.id
    {
      RegenerateForgets(cfg, g, w, regenerate, row);
      GoneRun(cfg, g, w1, steps, row.id);
    }
  }

  lemma {:induction false} DistinctIds(codes: seq<CodeRow>, a: CodeRow, b: CodeRow)
    requires Distinct(codes) && a in codes && b in codes && a.id == b.id
    ensures a == b
  {
    if a != codes[0] && b != codes[0] {
      DistinctIds(codes[1..], a, b);
    }
  }

  lemma RegenerateForgets(cfg: Config, g: Generator, w: World, step: Step, row: CodeRow)
    requires Inv(cfg, w.tables, w.minted) && Possible(cfg, w, step)
    requires Done(cfg, g, w, step) && step.request.Generate? && step.request.replace
    requires row in w.tables.codes && row.user == step.request.user
    ensures Gone(Next(cfg, g, w, step), row.id)
  {
    var q := step.request;
    RequestTables(cfg, g, w, step);
    forall other | other in Next(cfg, g, w, step).tables.codes
      ensures other.id != row.id
    {
      if other in Others(w.tables.codes, q.user) {
        if other.id == row.id {
          DistinctIds(w.tables.codes, other, row);
        }
      } else {
        assert other in Batch(q.user, q.drawn);
        var k :| 0 <= k < |q.drawn| && Batch(q.user, q.drawn)[k] == other;
        assert q.drawn[k].id in Minted(q);
      }
    }
  }
}
