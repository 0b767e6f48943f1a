/** The two stores a request writes to - Redis and one database transaction -
    and the commands it sends them.

    A request is a *plan*: the list of commands it issues and how it ends. The
    connections may break after any number of commands (the `budget`), so the
    same plan also says what an aborted request leaves behind: Redis keeps the
    prefix that was executed, the transaction falls back to its last commit. */
module Stores {
  import opened Base

  datatype Key =
    | RevokedJti(jti: Uuid)
    | SessionRevoked(sid: Uuid)
    | SessionTouch(sid: Uuid)
    | SessionActive(sid: Uuid)
    | RateLimit(bucket: string)
    | Lockout(scope: string)
    | FailCount(scope: string)
    | OtpUsed(user: Uuid, otp: string)
    | OAuthState(state: Uuid)

  datatype Value =
    | Mark
    | Count(n: nat)
    | Authorization(provider: string, linkUser: Option<Uuid>)

  /** A Redis entry. It stays in the map after its deadline; `Live` is what a
      reader sees. Without a deadline it never expires. */
  datatype Entry = Entry(value: Value, deadline: Option<int>)

  type Cache = map<Key, Entry>

  predicate Live(redis: Cache, key: Key, now: int) {
    key in redis && (redis[key].deadline.None? || now < redis[key].deadline.value)
  }

  /** The number a counter key shows at `now`: an absent or expired key counts 0. */
  function Counter(redis: Cache, key: Key, now: int): nat {
    if Live(redis, key, now) && redis[key].value.Count? then redis[key].value.n else 0
  }

  /** Redis, the tables as the open transaction sees them, and the tables as
      last committed. */
  datatype State<T> = State(redis: Cache, working: T, committed: T)

  datatype Command<T> =
    | Exists(key: Key)
    | Select
    | Set(key: Key, value: Value, ttl: int)
    | Delete(key: Key)
    | Incr(key: Key)
    | Expire(key: Key, ttl: int)
    | Write(tables: T)
    | Commit

  function Apply<T>(s: State<T>, now: int, c: Command<T>): State<T> {
    match c
    case Exists(_) => s
    case Select => s
    case Set(key, value, ttl) => s.(redis := s.redis[key := Entry(value, Some(now + ttl))])
    case Delete(key) => s.(redis := s.redis - {key})
    case Incr(key) =>
      var deadline := if Live(s.redis, key, now) then s.redis[key].deadline else None;
      s.(redis := s.redis[key := Entry(Count(Counter(s.redis, key, now) + 1), deadline)])
    case Expire(key, ttl) =>
      if Live(s.redis, key, now)
      then s.(redis := s.redis[key := s.redis[key].(deadline := Some(now + ttl))])
      else s
    case Write(tables) => s.(working := tables)
    case Commit => s.(committed := s.working)
  }

  function ApplyAll<T>(s: State<T>, now: int, cmds: seq<Command<T>>): State<T>
    decreases |cmds|
  {
    if cmds == [] then s else ApplyAll(Apply(s, now, cmds[0]), now, cmds[1..])
  }

  /** Ending a request: whatever was not committed is rolled back. */
  function Settle<T>(s: State<T>): State<T> {
    s.(working := s.committed)
  }

  /** The commands that get through before the connections break. */
  function Cut<T>(cmds: seq<Command<T>>, budget: nat): seq<Command<T>> {
    cmds[..Min(budget, |cmds|)]
  }

  datatype Plan<T, R> = Plan(cmds: seq<Command<T>>, result: Attempt<R>) {
    /** How the plan ends when only `budget` commands get through. */
    function Ending(budget: nat): Attempt<R> {
      if budget < |cmds| then Raised(StoreDown) else result
    }
  }

  /** The unit of work around a request: commit when the handler returned. */
  function Committing<T, R>(p: Plan<T, R>): Plan<T, R> {
    if p.result.Ok? then Plan(p.cmds + [Commit], p.result) else p
  }

  lemma {:induction false} ApplyConcat<T>(s: State<T>, now: int, a: seq<Command<T>>, b: seq<Command<T>>)
    ensures ApplyAll(s, now, a + b) == ApplyAll(ApplyAll(s, now, a), now, b)
    decreases |a|
  {
    if a == [] {
      assert a + b == b;
    } else {
      assert (a + b)[1..] == a[1..] + b;
      ApplyConcat(Apply(s, now, a[0]), now, a[1..], b);
    }
  }

  lemma ApplyTwo<T>(s: State<T>, now: int, a: Command<T>, b: Command<T>)
    ensures ApplyAll(s, now, [a, b]) == Apply(Apply(s, now, a), now, b)
  {
    assert [a, b][1..] == [b];
    assert ApplyAll(Apply(s, now, a), now, [b]) == Apply(Apply(s, now, a), now, b);
  }

  lemma {:induction false} ReadsChangeNothing<T>(s: State<T>, now: int, cmds: seq<Command<T>>)
    requires forall c | c in cmds :: c.Exists? || c.Select?
    ensures ApplyAll(s, now, cmds) == s
    decreases |cmds|
  {
    if cmds != [] {
      ReadsChangeNothing(s, now, cmds[1..]);
    }
  }

  /** The state after issuing `cmds` until the budget runs out. */
  function Reach<T>(s: State<T>, budget: nat, now: int, cmds: seq<Command<T>>): State<T> {
    ApplyAll(s, now, Cut(cmds, budget))
  }

  lemma ReachOne<T>(s: State<T>, budget: nat, now: int, c: Command<T>)
    ensures Reach(s, budget, now, [c]) == if budget == 0 then s else Apply(s, now, c)
  {
    if budget == 0 {
      assert Cut([c], budget) == [];
    } else {
      assert Cut([c], budget) == [c] && [c][1..] == [];
      assert ApplyAll(Apply(s, now, c), now, []) == Apply(s, now, c);
    }
  }

  lemma ReachNothing<T>(s: State<T>, budget: nat, now: int)
    ensures Reach(s, budget, now, []) == s
  {
  }

  /** Issuing `a + b` is issuing `a` and then, if `a` got through, `b` with what
      is left of the budget. */
  lemma ReachConcat<T>(s: State<T>, budget: nat, now: int, a: seq<Command<T>>, b: seq<Command<T>>)
    ensures budget < |a| ==> Reach(s, budget, now, a + b) == Reach(s, budget, now, a)
    ensures |a| <= budget ==>
              Reach(s, budget, now, a + b) == Reach(Reach(s, budget, now, a), budget - |a|, now, b)
  {
    if |a| <= budget {
      assert Cut(a, budget) == a;
      assert Cut(a + b, budget) == a + Cut(b, budget - |a|);
      ApplyConcat(s, now, a, Cut(b, budget - |a|));
    } else {
      assert Cut(a + b, budget) == Cut(a, budget);
    }
  }

  lemma {:induction false} NoCommits<T>(s: State<T>, now: int, cmds: seq<Command<T>>)
    requires forall c | c in cmds :: !c.Commit?
    ensures ApplyAll(s, now, cmds).committed == s.committed
    decreases |cmds|
  {
    if cmds != [] {
      assert !cmds[0].Commit?;
      NoCommits(Apply(s, now, cmds[0]), now, cmds[1..]);
    }
  }

  lemma {:induction false} WritesNothing<T>(s: State<T>, now: int, cmds: seq<Command<T>>)
    requires forall c | c in cmds :: !c.Write?
    ensures ApplyAll(s, now, cmds).working == s.working
    decreases |cmds|
  {
    if cmds != [] {
      assert !cmds[0].Write?;
      WritesNothing(Apply(s, now, cmds[0]), now, cmds[1..]);
    }
  }

  /** The command puts nothing under the key. */
  predicate NeverPuts<T>(c: Command<T>, key: Key) {
    !(c.Set? && c.key == key) && !(c.Incr? && c.key == key) && !(c.Expire? && c.key == key)
  }

  lemma {:induction false} StaysAway<T>(s: State<T>, now: int, cmds: seq<Command<T>>, key: Key)
    requires key !in s.redis && forall c | c in cmds :: NeverPuts(c, key)
    ensures key !in ApplyAll(s, now, cmds).redis
    decreases |cmds|
  {
    if cmds != [] {
      assert NeverPuts(cmds[0], key);
      StaysAway(Apply(s, now, cmds[0]), now, cmds[1..], key);
    }
  }

  /** A plan that commits only at its end commits all of it or nothing. */
  lemma AllOrNothing<T, R>(s: State<T>, budget: nat, now: int, p: Plan<T, R>)
    requires forall c | c in p.cmds :: !c.Commit?
    ensures Reach(s, budget, now, Committing(p).cmds).committed
         == if Committing(p).Ending(budget).Ok? then ApplyAll(s, now, p.cmds).working else s.committed
  {
    NoCommits(s, now, Cut(p.cmds, budget));
    NoCommits(s, now, p.cmds);
    if p.result.Ok? {
      ReachConcat(s, budget, now, p.cmds, [Commit]);
      if |p.cmds| <= budget {
        assert Cut(p.cmds, budget) == p.cmds;
        ReachOne(ApplyAll(s, now, p.cmds), budget - |p.cmds|, now, Commit);
      }
    }
  }

  /** What a command list does to the tables: the last write wins. */
  lemma {:induction false} LastWrite<T>(s: State<T>, now: int, cmds: seq<Command<T>>, last: Command<T>)
    requires last.Write?
    ensures ApplyAll(s, now, cmds + [last]).working == last.tables
  {
    ApplyConcat(s, now, cmds, [last]);
    ApplyOne(ApplyAll(s, now, cmds), now, last);
  }

  lemma ApplyOne<T>(s: State<T>, now: int, c: Command<T>)
    ensures ApplyAll(s, now, [c]) == Apply(s, now, c)
  {
    assert [c][1..] == [];
  }

  /** `p` holds before, between and after the commands: at every place a
      request can be cut. */
  ghost predicate Throughout<T>(p: State<T> -> bool, s: State<T>, now: int, cmds: seq<Command<T>>)
    decreases |cmds|
  {
    p(s) && (cmds != [] ==> Throughout(p, Apply(s, now, cmds[0]), now, cmds[1..]))
  }

  lemma ThroughoutOne<T>(p: State<T> -> bool, s: State<T>, now: int, c: Command<T>)
    requires p(s) && p(Apply(s, now, c))
    ensures Throughout(p, s, now, [c])
    ensures ApplyAll(s, now, [c]) == Apply(s, now, c)
  {
    assert Throughout(p, Apply(s, now, c), now, []);
  }

  lemma {:induction false} ThroughoutCut<T>(p: State<T> -> bool, s: State<T>, now: int, cmds: seq<Command<T>>,
                                            budget: nat)
    requires Throughout(p, s, now, cmds)
    ensures p(ApplyAll(s, now, Cut(cmds, budget)))
    decreases |cmds|
  {
    if cmds != [] && budget != 0 {
      assert Cut(cmds, budget)[1..] == Cut(cmds[1..], budget - 1);
      ThroughoutCut(p, Apply(s, now, cmds[0]), now, cmds[1..], budget - 1);
    }
  }

  lemma {:induction false} ThroughoutConcat<T>(p: State<T> -> bool, s: State<T>, now: int,
                                               a: seq<Command<T>>, b: seq<Command<T>>)
    requires Throughout(p, s, now, a)
    requires Throughout(p, ApplyAll(s, now, a), now, b)
    ensures Throughout(p, s, now, a + b)
    decreases |a|
  {
    if a == [] {
      assert a + b == b;
    } else {
      assert (a + b)[1..] == a[1..] + b;
      ThroughoutConcat(p, Apply(s, now, a[0]), now, a[1..], b);
    }
  }

  /** The connections of one request. `budget` is how many more commands will
      get through; the request does not see it, it only sees commands fail. */
  class Connection<T> {
    var redis: Cache
    var working: T
    var committed: T
    var budget: nat

    constructor (redis: Cache, committed: T, budget: nat)
      ensures Snapshot() == State(redis, committed, committed)
      ensures this.budget == budget
    {
      this.redis := redis;
      this.working := committed;
      this.committed := committed;
      this.budget := budget;
    }

    function Snapshot(): State<T>
      reads this
    {
      State(redis, working, committed)
    }

    /** The state and the budget after a caller that started from `s` and
        `before` has issued `cmds`. */
    ghost predicate Did(s: State<T>, before: nat, now: int, cmds: seq<Command<T>>)
      reads this
    {
      && Snapshot() == Reach(s, before, now, cmds)
      && budget == before - Min(before, |cmds|)
    }

    method RedisExists(key: Key, now: int) returns (r: Attempt<bool>)
      modifies this
      ensures Did(old(Snapshot()), old(budget), now, [Exists(key)])
      ensures r.Ok? ==> Snapshot() == Apply(old(Snapshot()), now, Exists(key))
      ensures r == if old(budget) == 0 then Raised(StoreDown) else Ok(Live(old(redis), key, now))
    {
      ReachOne(Snapshot(), budget, now, Exists(key));
      if budget == 0 {
        return Raised(StoreDown);
      }
      budget := budget - 1;
      return Ok(Live(redis, key, now));
    }

    method RedisGet(key: Key, now: int) returns (r: Attempt<Option<Value>>)
      modifies this
      ensures Did(old(Snapshot()), old(budget), now, [Exists(key)])
      ensures r.Ok? ==> Snapshot() == Apply(old(Snapshot()), now, Exists(key))
      ensures r == if old(budget) == 0 then Raised(StoreDown)
                   else Ok(if Live(old(redis), key, now) then Some(old(redis)[key].value) else None)
    {
      ReachOne(Snapshot(), budget, now, Exists(key));
      if budget == 0 {
        return Raised(StoreDown);
      }
      budget := budget - 1;
      return Ok(if Live(redis, key, now) then Some(redis[key].value) else None);
    }

    method RedisSet(key: Key, value: Value, ttl: int, now: int) returns (r: Attempt<()>)
      modifies this
      ensures Did(old(Snapshot()), old(budget), now, [Set(key, value, ttl)])
      ensures r.Ok? ==> Snapshot() == Apply(old(Snapshot()), now, Set(key, value, ttl))
      ensures r == if old(budget) == 0 then Raised(StoreDown) else Ok(())
    {
      ReachOne(Snapshot(), budget, now, Set(key, value, ttl));
      if budget == 0 {
        return Raised(StoreDown);
      }
      budget, redis := budget - 1, redis[key := Entry(value, Some(now + ttl))];
      return Ok(());
    }

    method RedisDelete(key: Key, now: int) returns (r: Attempt<()>)
      modifies this
      ensures Did(old(Snapshot()), old(budget), now, [Delete(key)])
      ensures r.Ok? ==> Snapshot() == Apply(old(Snapshot()), now, Delete(key))
      ensures r == if old(budget) == 0 then Raised(StoreDown) else Ok(())
    {
      ReachOne(Snapshot(), budget, now, Delete(key));
      if budget == 0 {
        return Raised(StoreDown);
      }
      budget, redis := budget - 1, redis - {key};
      return Ok(());
    }

    method RedisIncr(key: Key, now: int) returns (r: Attempt<nat>)
      modifies this
      ensures Did(old(Snapshot()), old(budget), now, [Incr(key)])
      ensures r.Ok? ==> Snapshot() == Apply(old(Snapshot()), now, Incr(key))
      ensures r == if old(budget) == 0 then Raised(StoreDown) else Ok(Counter(old(redis), key, now) + 1)
    {
      ReachOne(Snapshot(), budget, now, Incr(key));
      if budget == 0 {
        return Raised(StoreDown);
      }
      var n := Counter(redis, key, now) + 1;
      var deadline := if Live(redis, key, now) then redis[key].deadline else None;
      budget, redis := budget - 1, redis[key := Entry(Count(n), deadline)];
      return Ok(n);
    }

    method RedisExpire(key: Key, ttl: int, now: int) returns (r: Attempt<()>)
      modifies this
      ensures Did(old(Snapshot()), old(budget), now, [Expire(key, ttl)])
      ensures r.Ok? ==> Snapshot() == Apply(old(Snapshot()), now, Expire(key, ttl))
      ensures r == if old(budget) == 0 then Raised(StoreDown) else Ok(())
    {
      ReachOne(Snapshot(), budget, now, Expire(key, ttl));
      if budget == 0 {
        return Raised(StoreDown);
      }
      budget := budget - 1;
      if Live(redis, key, now) {
        redis := redis[key := redis[key].(deadline := Some(now + ttl))];
      }
      return Ok(());
    }

    /** A query sees the tables as the transaction has left them so far. */
    method Query(now: int) returns (r: Attempt<T>)
      modifies this
      ensures Did(old(Snapshot()), old(budget), now, [Select])
      ensures r.Ok? ==> Snapshot() == Apply(old(Snapshot()), now, Select)
      ensures r == if old(budget) == 0 then Raised(StoreDown) else Ok(old(working))
    {
      ReachOne(Snapshot(), budget, now, Select);
      if budget == 0 {
        return Raised(StoreDown);
      }
      budget := budget - 1;
      return Ok(working);
    }

    method Flush(tables: T, now: int) returns (r: Attempt<()>)
      modifies this
      ensures Did(old(Snapshot()), old(budget), now, [Write(tables)])
      ensures r.Ok? ==> Snapshot() == Apply(old(Snapshot()), now, Write(tables))
      ensures r == if old(budget) == 0 then Raised(StoreDown) else Ok(())
    {
      ReachOne(Snapshot(), budget, now, Write(tables));
      if budget == 0 {
        return Raised(StoreDown);
      }
      budget, working := budget - 1, tables;
      return Ok(());
    }

    method CommitWork(now: int) returns (r: Attempt<()>)
      modifies this
      ensures Did(old(Snapshot()), old(budget), now, [Commit])
      ensures r.Ok? ==> Snapshot() == Apply(old(Snapshot()), now, Commit)
      ensures r == if old(budget) == 0 then Raised(StoreDown) else Ok(())
    {
      ReachOne(Snapshot(), budget, now, Commit);
      if budget == 0 {
        return Raised(StoreDown);
      }
      budget, committed := budget - 1, working;
      return Ok(());
    }

    method Rollback()
      modifies this
      ensures Snapshot() == Settle(old(Snapshot()))
      ensures budget == old(budget)
    {
      working := committed;
    }
  }
}
