/** What the counters guarantee over whole runs: how many requests a window
    lets through, how many guesses a lockout allows, and when exactly a
    lockout is in force. Redis may fail after any command of any request. */
module RateLimitRuns {
  import opened Base
  import opened Stores
  import opened RateLimit

  datatype Verdict = Wrong | Refused | Right

  datatype Limits<T> = Limits(now: int, redis: Cache, tables: T)

  /** A `Check` is a guarded credential check: refuse if locked out, look the
      credential up (`between`), and settle the verdict with the limiter. */
  datatype LimitStep<T> =
    | Tick(seconds: nat)
    | Hit(bucket: string, limit: nat, window: int, budget: nat)
    | Check(scope: string, between: seq<Command<T>>, verdict: Verdict, budget: nat)

  function TailCmds<T>(cfg: Config, redis: Cache, now: int, scope: string, verdict: Verdict): seq<Command<T>> {
    match verdict
    case Wrong => FailureCmds(cfg, redis, now, scope)
    case Refused => []
    case Right => ClearCmds(scope)
  }

  function CheckCmds<T>(cfg: Config, redis: Cache, now: int, scope: string, between: seq<Command<T>>, verdict: Verdict)
    : seq<Command<T>>
  {
    [Exists(Lockout(scope))]
    + if Live(redis, Lockout(scope), now) then [] else between + TailCmds(cfg, redis, now, scope, verdict)
  }

  function StepCmds<T>(cfg: Config, w: Limits<T>, step: LimitStep<T>): seq<Command<T>> {
    match step
    case Tick(_) => []
    case Hit(bucket, _, window, _) => HitCmds(w.redis, w.now, bucket, window)
    case Check(scope, between, verdict, _) => CheckCmds(cfg, w.redis, w.now, scope, between, verdict)
  }

  function Next<T>(cfg: Config, w: Limits<T>, step: LimitStep<T>): Limits<T> {
    if step.Tick? then w.(now := w.now + step.seconds)
    else w.(redis := Reach(State(w.redis, w.tables, w.tables), step.budget, w.now, StepCmds(cfg, w, step)).redis)
  }

  function Run<T>(cfg: Config, w: Limits<T>, steps: seq<LimitStep<T>>): Limits<T>
    decreases |steps|
  {
    if steps == [] then w else Run(cfg, Next(cfg, w, steps[0]), steps[1..])
  }

  /** The command leaves the limiter's own keys alone. */
  predicate Apart<T>(c: Command<T>) {
    c.Select? || c.Exists? || c.Write? || c.Commit? || (c.Set? && c.key.OtpUsed?)
  }

  ghost predicate Proper<T>(step: LimitStep<T>) {
    && (step.Check? ==> forall c | c in step.between :: Apart(c))
    && (step.Hit? ==> 0 < step.window)
  }

  // ----------------------------------------------------- fixed windows

  /** How many hits a window of `length` leaves room for, started afresh. */
  function Room(limit: nat, window: int, length: int): nat
    requires 0 < window
    decreases if length <= 0 then 0 else length
  {
    if length <= 0 then 0 else limit + Room(limit, window, length - window)
  }

  lemma {:induction false} RoomGrows(limit: nat, window: int, a: int, b: int)
    requires 0 < window && a <= b
    ensures Room(limit, window, a) <= Room(limit, window, b)
    decreases if b <= 0 then 0 else b
  {
    if 0 < a {
      RoomGrows(limit, window, a - window, b - window);
    }
  }

  lemma {:induction false} RoomExact(limit: nat, window: int, n: nat)
    requires 0 < window
    ensures Room(limit, window, n * window) == n * limit
  {
    if n != 0 {
      assert n * window - window == (n - 1) * window;
      assert n * limit == (n - 1) * limit + limit;
      assert 0 < n * window;
      RoomExact(limit, window, n - 1);
    }
  }

  /** Counters hold positive counts. */
  predicate Counting(redis: Cache, key: Key) {
    key in redis ==> redis[key].value.Count? && 0 < redis[key].value.n
  }

  predicate Passing<T>(w: Limits<T>, step: LimitStep<T>, bucket: string) {
    step.Hit? && step.bucket == bucket && HitEnding(w.redis, w.now, bucket, step.limit, step.budget).Ok?
  }

  /** How many hits pass in the half-open interval from `a` to `b`. */
  function Passes<T>(cfg: Config, w: Limits<T>, steps: seq<LimitStep<T>>, bucket: string, a: int, b: int): nat
    decreases |steps|
  {
    if steps == [] then 0
    else
      (if a <= w.now < b && Passing(w, steps[0], bucket) then 1 else 0)
      + Passes(cfg, Next(cfg, w, steps[0]), steps[1..], bucket, a, b)
  }

  /** An upper bound on the hits that can still pass before `b`. */
  function HitsLeft(redis: Cache, now: int, bucket: string, limit: nat, window: int, b: int): nat
    requires 0 < window
  {
    var key := RateLimit(bucket);
    var c := Counter(redis, key, now);
    if b <= now then 0
    else if !Live(redis, key, now) then Room(limit, window, b - now)
    else
      (if c < limit then limit - c else 0)
      + match redis[key].deadline case None => 0 case Some(d) => Room(limit, window, b - d)
  }

  ghost predicate SameLimit<T>(step: LimitStep<T>, bucket: string, limit: nat, window: int) {
    step.Hit? && step.bucket == bucket ==> step.limit == limit && step.window == window
  }

  predicate Touches<T>(c: Command<T>, key: Key) {
    match c
    case Set(k, _, _) => k == key
    case Delete(k) => k == key
    case Incr(k) => k == key
    case Expire(k, _) => k == key
    case _ => false
  }

  /** A key no command touches keeps its entry. */
  lemma {:induction false} Untouched<T>(s: State<T>, now: int, cmds: seq<Command<T>>, key: Key)
    requires forall c | c in cmds :: !Touches(c, key)
    ensures key in ApplyAll(s, now, cmds).redis <==> key in s.redis
    ensures key in s.redis ==> ApplyAll(s, now, cmds).redis[key] == s.redis[key]
    decreases |cmds|
  {
    if cmds != [] {
      assert !Touches(cmds[0], key);
      Untouched(Apply(s, now, cmds[0]), now, cmds[1..], key);
    }
  }

  lemma StepTouches<T>(cfg: Config, w: Limits<T>, step: LimitStep<T>, key: Key)
    requires Proper(step)
    requires key.RateLimit? || key.FailCount? || key.Lockout?
    requires step.Hit? ==> key != RateLimit(step.bucket)
    requires step.Check? ==> key != FailCount(step.scope) && key != Lockout(step.scope)
    ensures forall c | c in StepCmds(cfg, w, step) :: !Touches(c, key)
  {
    forall c | c in StepCmds(cfg, w, step)
      ensures !Touches(c, key)
    {
      if step.Check? && c in step.between {
        assert Apart(c);
      }
    }
  }

  lemma OtherKeys<T>(cfg: Config, w: Limits<T>, step: LimitStep<T>, key: Key)
    requires Proper(step)
    requires key.RateLimit? || key.FailCount? || key.Lockout?
    requires step.Hit? ==> key != RateLimit(step.bucket)
    requires step.Check? ==> key != FailCount(step.scope) && key != Lockout(step.scope)
    ensures key in Next(cfg, w, step).redis <==> key in w.redis
    ensures key in w.redis ==> Next(cfg, w, step).redis[key] == w.redis[key]
  {
    if !step.Tick? {
      StepTouches(cfg, w, step, key);
      Untouched(State(w.redis, w.tables, w.tables), w.now, Cut(StepCmds(cfg, w, step), step.budget), key);
    }
  }

  /** The counter after a hit of which `budget` commands got through. */
  lemma HitEffect<T>(cfg: Config, w: Limits<T>, step: LimitStep<T>)
    requires step.Hit?
    ensures var key := RateLimit(step.bucket);
            var c := Counter(w.redis, key, w.now);
            var was := if Live(w.redis, key, w.now) then w.redis[key].deadline else None;
            Next(cfg, w, step).redis
            == if step.budget == 0 then w.redis
               else
                 w.redis[key := Entry(Count(c + 1),
                                      if c == 0 && 2 <= step.budget then Some(w.now + step.window) else was)]
  {
    var s := State(w.redis, w.tables, w.tables);
    var key := RateLimit(step.bucket);
    var cmds := HitCmds<T>(w.redis, w.now, step.bucket, step.window);
    if step.budget == 0 {
      assert Cut(cmds, step.budget) == [];
    } else if step.budget == 1 || |cmds| == 1 {
      ReachOne(s, 1, w.now, Incr(key));
      assert Cut(cmds, step.budget) == [Incr(key)];
      assert Cut<T>([Incr(key)], 1) == [Incr(key)];
    } else {
      assert Cut(cmds, step.budget) == [Incr(key), Expire(key, step.window)];
      ApplyTwo(s, w.now, Incr(key), Expire(key, step.window));
    }
  }

  /** A passing hit uses up room, and nothing makes room. */
  lemma HitsLeftShrink<T>(cfg: Config, w: Limits<T>, step: LimitStep<T>, bucket: string, limit: nat, window: int,
                          b: int)
    requires 0 < window && Proper(step) && SameLimit(step, bucket, limit, window)
    requires Counting(w.redis, RateLimit(bucket))
    ensures var w' := Next(cfg, w, step);
            && Counting(w'.redis, RateLimit(bucket))
            && (if w.now < b && Passing(w, step, bucket) then 1 else 0)
               + HitsLeft(w'.redis, w'.now, bucket, limit, window, b)
               <= HitsLeft(w.redis, w.now, bucket, limit, window, b)
  {
    var key := RateLimit(bucket);
    if step.Tick? {
      RoomGrows(limit, window, b - w.now - step.seconds, b - w.now);
      if Live(w.redis, key, w.now) && w.redis[key].deadline.Some?
          && w.redis[key].deadline.value <= w.now + step.seconds {
        RoomGrows(limit, window, b - w.now - step.seconds, b - w.redis[key].deadline.value);
      }
    } else if step.Hit? && step.bucket == bucket {
      HitEffect(cfg, w, step);
    } else {
      OtherKeys(cfg, w, step, key);
    }
  }

  lemma {:induction false} PassesFit<T>(cfg: Config, w: Limits<T>, steps: seq<LimitStep<T>>, bucket: string,
                                        limit: nat, window: int, a: int, b: int)
    requires 0 < window && forall step | step in steps :: Proper(step) && SameLimit(step, bucket, limit, window)
    requires Counting(w.redis, RateLimit(bucket))
    ensures Passes(cfg, w, steps, bucket, a, b) <= HitsLeft(w.redis, w.now, bucket, limit, window, b)
    decreases |steps|
  {
    if steps != [] {
      HitsLeftShrink(cfg, w, steps[0], bucket, limit, window, b);
      PassesFit(cfg, Next(cfg, w, steps[0]), steps[1..], bucket, limit, window, a, b);
    }
  }

  /** In every interval as long as `n` windows at most `n + 1` limits pass. */
  lemma {:induction false} FixedWindowBound<T>(cfg: Config, w: Limits<T>, steps: seq<LimitStep<T>>, bucket: string,
                                               limit: nat, window: int, a: int, n: nat)
    requires 0 < window && forall step | step in steps :: Proper(step) && SameLimit(step, bucket, limit, window)
    requires Counting(w.redis, RateLimit(bucket))
    ensures Passes(cfg, w, steps, bucket, a, a + n * window) <= (n + 1) * limit
    decreases |steps|
  {
    var b := a + n * window;
    if a <= w.now {
      PassesFit(cfg, w, steps, bucket, limit, window, a, b);
      RoomExact(limit, window, n);
      RoomGrows(limit, window, b - w.now, n * window);
      if Live(w.redis, RateLimit(bucket), w.now) && w.redis[RateLimit(bucket)].deadline.Some? {
        RoomGrows(limit, window, b - w.redis[RateLimit(bucket)].deadline.value, n * window);
      }
      assert (n + 1) * limit == n * limit + limit;
    } else if steps != [] {
      HitsLeftShrink(cfg, w, steps[0], bucket, limit, window, b);
      FixedWindowBound(cfg, Next(cfg, w, steps[0]), steps[1..], bucket, limit, window, a, n);
    } else {
      assert 0 <= (n + 1) * limit;
    }
  }

  /** A hit at which Redis answers passes exactly if the window has room, so in
      particular the first one after a deadline. */
  lemma HitPasses<T>(w: Limits<T>, step: LimitStep<T>)
    requires step.Hit? && 2 <= step.budget
    ensures Passing(w, step, step.bucket) <==> Counter(w.redis, RateLimit(step.bucket), w.now) < step.limit
    ensures !Live(w.redis, RateLimit(step.bucket), w.now) && 1 <= step.limit ==> Passing(w, step, step.bucket)
  {
  }

  /** A window that never ends: the increment got through, the expiry did not. */
  predicate Stuck(redis: Cache, bucket: string, limit: nat) {
    var key := RateLimit(bucket);
    key in redis && redis[key].deadline.None? && redis[key].value.Count? && limit <= redis[key].value.n
  }

  function Waiting<T>(w: Limits<T>, seconds: nat): Limits<T> {
    w.(now := w.now + seconds)
  }

  /** Waiting reopens a bucket exactly if it is not stuck. */
  lemma Reopens<T>(w: Limits<T>, step: LimitStep<T>)
    requires step.Hit? && 2 <= step.budget && 1 <= step.limit
    ensures (exists wait: nat :: Passing(Waiting(w, wait), step, step.bucket))
            <==> !Stuck(w.redis, step.bucket, step.limit)
  {
    var key := RateLimit(step.bucket);
    if !Stuck(w.redis, step.bucket, step.limit) {
      var wait: nat :=
        if Live(w.redis, key, w.now) && w.redis[key].deadline.Some? then w.redis[key].deadline.value - w.now else 0;
      assert Passing(Waiting(w, wait), step, step.bucket);
    }
  }

  /** One lost `expire` is enough to stick: the request that suffered it was
      denied, and with a limit of one no later request ever passes. */
  lemma LostExpirySticks<T>(cfg: Config, w: Limits<T>, bucket: string, window: int)
    requires RateLimit(bucket) !in w.redis
    ensures var w' := Next(cfg, w, Hit(bucket, 1, window, 1));
            && HitEnding(w.redis, w.now, bucket, 1, 1) == Raised(ServiceUnavailable)
            && Stuck(w'.redis, bucket, 1)
  {
    HitEffect(cfg, w, Hit(bucket, 1, window, 1));
  }

  // ----------------------------------------------------- lockout

  /** What Redis holds for one scope. */
  datatype Meter = Meter(lock: Option<Entry>, count: Option<Entry>)

  function Lookup(redis: Cache, key: Key): Option<Entry> {
    if key in redis then Some(redis[key]) else None
  }

  function MeterOf(redis: Cache, scope: string): Meter {
    Meter(Lookup(redis, Lockout(scope)), Lookup(redis, FailCount(scope)))
  }

  predicate Shown(e: Option<Entry>, now: int) {
    e.Some? && (e.value.deadline.None? || now < e.value.deadline.value)
  }

  function Number(e: Option<Entry>, now: int): nat {
    if Shown(e, now) && e.value.value.Count? then e.value.value.n else 0
  }

  /** The meter after `n` of the commands that record a failure. */
  function Failing(cfg: Config, m: Meter, now: int, n: nat): Meter {
    var c := Number(m.count, now) + 1;
    var window := if c == 1 then 1 else 0;
    var counted := Entry(Count(c), if c == 1 && 1 < n then Some(now + cfg.lockoutSeconds)
                                   else if Shown(m.count, now) then m.count.value.deadline else None);
    if n == 0 then m
    else if c < cfg.maxFailedLogins || n <= 1 + window then m.(count := Some(counted))
    else Meter(Some(Entry(Mark, Some(now + cfg.lockoutSeconds))), if n == 2 + window then Some(counted) else None)
  }

  function Clearing(m: Meter, n: nat): Meter {
    Meter(if 2 <= n then None else m.lock, if 1 <= n then None else m.count)
  }

  /** The commands of the check's last part that got through. */
  function Tail<T>(step: LimitStep<T>): nat
    requires step.Check?
  {
    if step.budget <= 1 + |step.between| then 0 else step.budget - 1 - |step.between|
  }

  /** The check was let past the lock and made. */
  predicate Reached<T>(w: Limits<T>, step: LimitStep<T>, scope: string) {
    && step.Check? && step.scope == scope && !Live(w.redis, Lockout(scope), w.now)
    && 1 + |step.between| <= step.budget
  }

  predicate Fails<T>(w: Limits<T>, step: LimitStep<T>, scope: string) {
    Reached(w, step, scope) && step.verdict == Wrong
  }

  predicate Succeeds<T>(w: Limits<T>, step: LimitStep<T>, scope: string) {
    Reached(w, step, scope) && step.verdict == Right
  }

  /** The check was made but Redis failed before the limiter was done with it. */
  predicate Lost<T>(cfg: Config, w: Limits<T>, step: LimitStep<T>, scope: string) {
    Reached(w, step, scope) && step.budget < |StepCmds(cfg, w, step)|
  }

  lemma FailureEffect<T>(cfg: Config, s: State<T>, now: int, scope: string, n: nat)
    ensures MeterOf(Reach(s, n, now, FailureCmds(cfg, s.redis, now, scope)).redis, scope)
         == Failing(cfg, MeterOf(s.redis, scope), now, n)
  {
    hide Reach;
    var key := FailCount(scope);
    var c := Counter(s.redis, key, now) + 1;
    var one: seq<Command<T>> := [Incr(key)];
    var two: seq<Command<T>> := if c == 1 then [Expire(key, cfg.lockoutSeconds)] else [];
    var three: seq<Command<T>> := if cfg.maxFailedLogins <= c then [Set(Lockout(scope), Mark, cfg.lockoutSeconds)]
        else [];
    var four: seq<Command<T>> := if cfg.maxFailedLogins <= c then [Delete(key)] else [];
    assert FailureCmds(cfg, s.redis, now, scope) == one + two + three + four;
    ReachConcat(s, n, now, one, two);
    ReachConcat(s, n, now, one + two, three);
    ReachConcat(s, n, now, one + two + three, four);
    ReachOne(s, n, now, Incr(key));
    if 1 <= n {
      var s1 := Apply(s, now, Incr(key));
      ReachOne(s1, n - 1, now, Expire(key, cfg.lockoutSeconds));
      var s2 := if c == 1 && 2 <= n then Apply(s1, now, Expire(key, cfg.lockoutSeconds)) else s1;
      ReachNothing(s1, n - 1, now);
      if 1 + |two| <= n {
        ReachOne(s2, n - 1 - |two|, now, Set(Lockout(scope), Mark, cfg.lockoutSeconds));
        ReachNothing(s2, n - 1 - |two|, now);
        if 1 + |two| + |three| <= n {
          var s3 := if three == [] then s2 else Apply(s2, now, three[0]);
          ReachOne(s3, n - 1 - |two| - |three|, now, Delete(key));
          ReachNothing(s3, n - 1 - |two| - |three|, now);
        }
      }
    }
  }

  lemma ClearEffect<T>(s: State<T>, now: int, scope: string, n: nat)
    ensures MeterOf(Reach(s, n, now, ClearCmds(scope)).redis, scope) == Clearing(MeterOf(s.redis, scope), n)
  {
    var one: seq<Command<T>> := [Delete(FailCount(scope))];
    var two: seq<Command<T>> := [Delete(Lockout(scope))];
    assert ClearCmds(scope) == one + two;
    ReachConcat(s, n, now, one, two);
    ReachOne(s, n, now, Delete(FailCount(scope)));
    if 1 <= n {
      ReachOne(Apply(s, now, Delete(FailCount(scope))), n - 1, now, Delete(Lockout(scope)));
    }
  }

  /** What one step does to one scope's meter. */
  lemma MeterNext<T>(cfg: Config, w: Limits<T>, step: LimitStep<T>, scope: string)
    requires Proper(step)
    ensures var m := MeterOf(w.redis, scope);
            MeterOf(Next(cfg, w, step).redis, scope)
            == if Fails(w, step, scope) then Failing(cfg, m, w.now, Tail(step))
               else if Succeeds(w, step, scope) then Clearing(m, Tail(step))
               else m
    ensures var m := MeterOf(w.redis, scope);
            Fails(w, step, scope) ==>
              (Lost(cfg, w, step, scope) <==> Tail(step) < FailureLength(cfg, m, w.now))
    ensures Succeeds(w, step, scope) ==> (Lost(cfg, w, step, scope) <==> Tail(step) < 2)
  {
    hide Reach;
    if !step.Check? || step.scope != scope {
      OtherKeys(cfg, w, step, Lockout(scope));
      OtherKeys(cfg, w, step, FailCount(scope));
    } else {
      CheckMeter(cfg, w, step);
    }
  }

  lemma CheckMeter<T>(cfg: Config, w: Limits<T>, step: LimitStep<T>)
    requires Proper(step) && step.Check?
    ensures var m := MeterOf(w.redis, step.scope);
            MeterOf(Next(cfg, w, step).redis, step.scope)
            == if Fails(w, step, step.scope) then Failing(cfg, m, w.now, Tail(step))
               else if Succeeds(w, step, step.scope) then Clearing(m, Tail(step))
               else m
  {
    hide FailureCmds;
    var scope := step.scope;
    var s := State(w.redis, w.tables, w.tables);
    var head: seq<Command<T>> := [Exists(Lockout(scope))]
      + if Live(w.redis, Lockout(scope), w.now) then [] else step.between;
    var tail := TailCmds<T>(cfg, w.redis, w.now, scope, step.verdict);
    if Live(w.redis, Lockout(scope), w.now) {
      assert StepCmds(cfg, w, step) == head;
    } else {
      assert StepCmds(cfg, w, step) == head + tail;
      ReachConcat(s, step.budget, w.now, head, tail);
    }
    forall c | c in head
      ensures !Touches(c, Lockout(scope)) && !Touches(c, FailCount(scope))
    {
      if c in step.between {
        assert Apart(c);
      }
    }
    Untouched(s, w.now, Cut(head, step.budget), Lockout(scope));
    Untouched(s, w.now, Cut(head, step.budget), FailCount(scope));
    if Reached(w, step, scope) {
      var s1 := Reach(s, step.budget, w.now, head);
      SameFailure<T>(cfg, w.redis, s1.redis, w.now, scope);
      FailureEffect(cfg, s1, w.now, scope, Tail(step));
      ClearEffect(s1, w.now, scope, Tail(step));
      ReachNothing(s1, Tail(step), w.now);
    }
  }

  lemma SameFailure<T>(cfg: Config, a: Cache, b: Cache, now: int, scope: string)
    requires MeterOf(a, scope) == MeterOf(b, scope)
    ensures FailureCmds<T>(cfg, a, now, scope) == FailureCmds<T>(cfg, b, now, scope)
  {
  }

  predicate SoundMeter(cfg: Config, m: Meter, now: int) {
    && (m.lock.Some? ==> m.lock.value.deadline.Some?)
    && (m.count.Some? ==>
          && m.count.value.value.Count? && 0 < m.count.value.value.n
          && (m.count.value.deadline.Some? ==> m.count.value.deadline.value <= now + cfg.lockoutSeconds))
  }

  /** When the scope can next be tried. */
  function OpensAt(m: Meter, now: int): int {
    if Shown(m.lock, now) && m.lock.value.deadline.Some? then m.lock.value.deadline.value else now
  }

  /** An upper bound on the failures still possible before `b`. */
  function FailuresLeft(cfg: Config, m: Meter, now: int, b: int): nat
    requires cfg.Sane()
  {
    var t := OpensAt(m, now);
    var most := cfg.maxFailedLogins;
    if b <= t then 0
    else if !Shown(m.count, t) then Room(most, cfg.lockoutSeconds, b - t)
    else
      (if Number(m.count, t) < most then most - Number(m.count, t) else 1)
      + Room(most, cfg.lockoutSeconds,
             b - (if m.count.value.deadline.Some? then m.count.value.deadline.value else t + cfg.lockoutSeconds))
  }

  function FailureLength(cfg: Config, m: Meter, now: int): nat {
    var c := Number(m.count, now) + 1;
    1 + (if c == 1 then 1 else 0) + (if cfg.maxFailedLogins <= c then 2 else 0)
  }

  lemma RoomUnfolds(limit: nat, window: int, length: int)
    requires 0 < window
    ensures Room(limit, window, length) == if length <= 0 then 0 else limit + Room(limit, window, length - window)
  {
  }

  /** A recorded failure uses up room; one whose recording was cut short may not. */
  lemma FailureUsesRoom(cfg: Config, m: Meter, now: int, n: nat, b: int)
    requires cfg.Sane() && SoundMeter(cfg, m, now) && !Shown(m.lock, now) && now < b
    ensures var m' := Failing(cfg, m, now, n);
            && SoundMeter(cfg, m', now)
            && FailuresLeft(cfg, m', now, b) + 1
               <= FailuresLeft(cfg, m, now, b) + (if n < FailureLength(cfg, m, now) then 1 else 0)
  {
    hide Room;
    var most, window := cfg.maxFailedLogins, cfg.lockoutSeconds;
    RoomUnfolds(most, window, b - now);
    RoomUnfolds(most, window, b - now - window);
    RoomGrows(most, window, b - now - 2 * window, b - now - window);
    if m.count.Some? && m.count.value.deadline.Some? {
      RoomGrows(most, window, b - now - window, b - m.count.value.deadline.value);
    }
  }

  lemma SuccessAddsRoom(cfg: Config, m: Meter, now: int, n: nat, b: int)
    requires cfg.Sane() && SoundMeter(cfg, m, now) && !Shown(m.lock, now)
    ensures var m' := Clearing(m, n);
            && SoundMeter(cfg, m', now)
            && FailuresLeft(cfg, m', now, b) <= FailuresLeft(cfg, m, now, b) + cfg.maxFailedLogins
  {
    var most, window := cfg.maxFailedLogins, cfg.lockoutSeconds;
    if m.count.Some? && m.count.value.deadline.Some? {
      RoomGrows(most, window, b - now - window, b - m.count.value.deadline.value);
    }
  }

  lemma WaitingAddsNoRoom(cfg: Config, m: Meter, now: int, seconds: nat, b: int)
    requires cfg.Sane() && SoundMeter(cfg, m, now)
    ensures SoundMeter(cfg, m, now + seconds)
    ensures FailuresLeft(cfg, m, now + seconds, b) <= FailuresLeft(cfg, m, now, b)
  {
    hide Room;
    var most, window := cfg.maxFailedLogins, cfg.lockoutSeconds;
    var t, t' := OpensAt(m, now), OpensAt(m, now + seconds);
    assert t <= t';
    RoomUnfolds(most, window, b - t);
    RoomUnfolds(most, window, b - t');
    RoomGrows(most, window, b - t', b - t);
    RoomGrows(most, window, b - t' - window, b - t - window);
    if m.count.Some? && m.count.value.deadline.Some? && m.count.value.deadline.value <= t' {
      RoomGrows(most, window, b - t', b - m.count.value.deadline.value);
    }
  }

  /** How many steps of the run, from `a` to before `b`, are of a kind. */
  function Failures<T>(cfg: Config, w: Limits<T>, steps: seq<LimitStep<T>>, scope: string, a: int, b: int): nat
    decreases |steps|
  {
    if steps == [] then 0
    else
      (if a <= w.now < b && Fails(w, steps[0], scope) then 1 else 0)
      + Failures(cfg, Next(cfg, w, steps[0]), steps[1..], scope, a, b)
  }

  function Successes<T>(cfg: Config, w: Limits<T>, steps: seq<LimitStep<T>>, scope: string, a: int, b: int): nat
    decreases |steps|
  {
    if steps == [] then 0
    else
      (if a <= w.now < b && Succeeds(w, steps[0], scope) then 1 else 0)
      + Successes(cfg, Next(cfg, w, steps[0]), steps[1..], scope, a, b)
  }

  function Unrecorded<T>(cfg: Config, w: Limits<T>, steps: seq<LimitStep<T>>, scope: string, a: int, b: int): nat
    decreases |steps|
  {
    if steps == [] then 0
    else
      (if a <= w.now < b && Fails(w, steps[0], scope) && Lost(cfg, w, steps[0], scope) then 1 else 0)
      + Unrecorded(cfg, Next(cfg, w, steps[0]), steps[1..], scope, a, b)
  }

  predicate Sound<T>(cfg: Config, w: Limits<T>, scope: string) {
    SoundMeter(cfg, MeterOf(w.redis, scope), w.now)
  }

  function GuessesLeft<T>(cfg: Config, w: Limits<T>, scope: string, b: int): nat
    requires cfg.Sane()
  {
    FailuresLeft(cfg, MeterOf(w.redis, scope), w.now, b)
  }

  lemma GuessStep<T>(cfg: Config, w: Limits<T>, step: LimitStep<T>, scope: string, b: int)
    requires cfg.Sane() && Proper(step) && Sound(cfg, w, scope)
    ensures var w' := Next(cfg, w, step);
            && Sound(cfg, w', scope) && w.now <= w'.now
            && (if w.now < b && Fails(w, step, scope) then 1 else 0) + GuessesLeft(cfg, w', scope, b)
               <= GuessesLeft(cfg, w, scope, b)
                  + (if w.now < b && Succeeds(w, step, scope) then cfg.maxFailedLogins else 0)
                  + (if w.now < b && Fails(w, step, scope) && Lost(cfg, w, step, scope) then 1 else 0)
  {
    hide Failing, FailuresLeft, Clearing, Lost;
    var m := MeterOf(w.redis, scope);
    MeterNext(cfg, w, step, scope);
    if step.Tick? {
      WaitingAddsNoRoom(cfg, m, w.now, step.seconds, b);
    } else if Fails(w, step, scope) {
      NoGuessesAfter(cfg, Failing(cfg, m, w.now, Tail(step)), w.now, b);
      FailureUsesRoom(cfg, m, w.now, Tail(step), if w.now < b then b else w.now + 1);
    } else if Succeeds(w, step, scope) {
      NoGuessesAfter(cfg, Clearing(m, Tail(step)), w.now, b);
      SuccessAddsRoom(cfg, m, w.now, Tail(step), b);
    }
  }

  lemma NoGuessesAfter(cfg: Config, m: Meter, now: int, b: int)
    requires cfg.Sane()
    ensures b <= now ==> FailuresLeft(cfg, m, now, b) == 0
  {
  }

  lemma {:induction false} GuessesFit<T>(cfg: Config, w: Limits<T>, steps: seq<LimitStep<T>>, scope: string, a: int,
                                         b: int)
    requires cfg.Sane() && Sound(cfg, w, scope) && a <= w.now
    requires forall step | step in steps :: Proper(step)
    ensures Failures(cfg, w, steps, scope, a, b)
         <= GuessesLeft(cfg, w, scope, b)
            + Successes(cfg, w, steps, scope, a, b) * cfg.maxFailedLogins
            + Unrecorded(cfg, w, steps, scope, a, b)
    decreases |steps|
  {
    hide GuessesLeft, Fails, Succeeds, Lost, Sound, Proper;
    var most := cfg.maxFailedLogins;
    if steps == [] {
      assert Successes(cfg, w, steps, scope, a, b) * most == 0;
    } else {
      var w', rest := Next(cfg, w, steps[0]), steps[1..];
      GuessStep(cfg, w, steps[0], scope, b);
      GuessesFit(cfg, w', rest, scope, a, b);
      var s := Successes(cfg, w', rest, scope, a, b);
      assert (s + 1) * most == s * most + most;
    }
  }

  /** However failures, successes, outages and time interleave: an interval as
      long as `n` lockouts sees at most `n + 1` batches of failures, one more
      for each success, and one failure for each that Redis failed to record. */
  lemma {:induction false} GuessingBound<T>(cfg: Config, w: Limits<T>, steps: seq<LimitStep<T>>, scope: string, a: int,
                                            n: nat)
    requires cfg.Sane() && Sound(cfg, w, scope)
    requires forall step | step in steps :: Proper(step)
    ensures var b := a + n * cfg.lockoutSeconds;
            Failures(cfg, w, steps, scope, a, b)
            <= (n + 1 + Successes(cfg, w, steps, scope, a, b)) * cfg.maxFailedLogins
               + Unrecorded(cfg, w, steps, scope, a, b)
    decreases |steps|
  {
    hide Fails, Succeeds, Lost, Sound, GuessesLeft, Proper;
    var most, b := cfg.maxFailedLogins, a + n * cfg.lockoutSeconds;
    var s := Successes(cfg, w, steps, scope, a, b);
    assert (n + 1 + s) * most == n * most + most + s * most;
    assert 0 <= n * most && 0 <= s * most;
    if a <= w.now {
      GuessesFit(cfg, w, steps, scope, a, b);
      RoomForAll(cfg, w, scope, a, n);
    } else if steps != [] {
      GuessStep(cfg, w, steps[0], scope, b);
      GuessingBound(cfg, Next(cfg, w, steps[0]), steps[1..], scope, a, n);
    }
  }

  lemma RoomForAll<T>(cfg: Config, w: Limits<T>, scope: string, a: int, n: nat)
    requires cfg.Sane() && Sound(cfg, w, scope) && a <= w.now
    ensures GuessesLeft(cfg, w, scope, a + n * cfg.lockoutSeconds) <= n * cfg.maxFailedLogins + cfg.maxFailedLogins
  {
    hide Room;
    var most, window, b := cfg.maxFailedLogins, cfg.lockoutSeconds, a + n * cfg.lockoutSeconds;
    var m := MeterOf(w.redis, scope);
    var t := OpensAt(m, w.now);
    RoomExact(most, window, n);
    RoomGrows(most, window, b - t, n * window);
    RoomGrows(most, window, b - t - window, n * window);
    if m.count.Some? && m.count.value.deadline.Some? && t < m.count.value.deadline.value {
      RoomGrows(most, window, b - m.count.value.deadline.value, n * window);
    }
    assert 0 <= n * most;
  }

  // ----------------------------------------------------- when exactly

  /** The failures since the last success, oldest first. */
  function History<T>(cfg: Config, w: Limits<T>, steps: seq<LimitStep<T>>, scope: string, before: seq<int>): seq<int>
    decreases |steps|
  {
    if steps == [] then before
    else
      History(cfg, Next(cfg, w, steps[0]), steps[1..], scope,
              if Fails(w, steps[0], scope) then before + [w.now]
              else if Succeeds(w, steps[0], scope) then [] else before)
  }

  /** Where the counter window of the last failure began: a failure opens a new
      window if the previous one had run out or was full. */
  function WindowStart(cfg: Config, failures: seq<int>): (start: nat)
    ensures failures != [] ==> start < |failures|
    decreases |failures|
  {
    if |failures| <= 1 then 0
    else
      var n := |failures| - 1;
      var start := WindowStart(cfg, failures[..n]);
      if cfg.maxFailedLogins <= n - start || failures[start] + cfg.lockoutSeconds <= failures[n] then n else start
  }

  /** What the lock should say, from the times of the failures alone. */
  predicate LockedOut(cfg: Config, failures: seq<int>, now: int) {
    && failures != []
    && |failures| - WindowStart(cfg, failures) == cfg.maxFailedLogins
    && now < failures[|failures| - 1] + cfg.lockoutSeconds
  }

  /** A window holds the failures from its start on: no more than allowed, and
      all within the lockout period of the first. */
  lemma {:induction false} WindowMeaning(cfg: Config, failures: seq<int>)
    requires cfg.Sane() && failures != []
    ensures var start := WindowStart(cfg, failures);
            && start < |failures| <= start + cfg.maxFailedLogins
            && failures[|failures| - 1] < failures[start] + cfg.lockoutSeconds
    decreases |failures|
  {
    if 1 < |failures| {
      WindowMeaning(cfg, failures[..|failures| - 1]);
    }
  }

  predicate Tracks(cfg: Config, m: Meter, now: int, failures: seq<int>)
    requires cfg.Sane()
  {
    var start := WindowStart(cfg, failures);
    && (failures == [] ==> !Shown(m.lock, now) && !Shown(m.count, now))
    && (failures != [] ==>
          && start < |failures| <= start + cfg.maxFailedLogins
          && (if |failures| - start == cfg.maxFailedLogins
              then m == Meter(Some(Entry(Mark, Some(failures[|failures| - 1] + cfg.lockoutSeconds))), None)
              else
                && !Shown(m.lock, now)
                && m.count == Some(Entry(Count(|failures| - start), Some(failures[start] + cfg.lockoutSeconds)))))
  }

  lemma TracksFailure(cfg: Config, m: Meter, now: int, failures: seq<int>, n: nat)
    requires cfg.Sane() && Tracks(cfg, m, now, failures) && !Shown(m.lock, now)
    requires FailureLength(cfg, m, now) <= n
    ensures Tracks(cfg, Failing(cfg, m, now, n), now, failures + [now])
  {
    var later := failures + [now];
    assert later[..|failures|] == failures;
    if failures != [] {
      assert later[WindowStart(cfg, failures)] == failures[WindowStart(cfg, failures)];
    }
  }

  lemma TracksStep<T>(cfg: Config, w: Limits<T>, step: LimitStep<T>, scope: string, failures: seq<int>)
    requires cfg.Sane() && Proper(step) && Tracks(cfg, MeterOf(w.redis, scope), w.now, failures)
    requires !Lost(cfg, w, step, scope)
    ensures var w' := Next(cfg, w, step);
            Tracks(cfg, MeterOf(w'.redis, scope), w'.now,
                   if Fails(w, step, scope) then failures + [w.now]
                   else if Succeeds(w, step, scope) then [] else failures)
  {
    hide Lost, Failing;
    MeterNext(cfg, w, step, scope);
    if Fails(w, step, scope) {
      TracksFailure(cfg, MeterOf(w.redis, scope), w.now, failures, Tail(step));
    }
  }

  ghost predicate AllRecorded<T>(cfg: Config, w: Limits<T>, steps: seq<LimitStep<T>>, scope: string)
    decreases |steps|
  {
    steps == [] || (!Lost(cfg, w, steps[0], scope) && AllRecorded(cfg, Next(cfg, w, steps[0]), steps[1..], scope))
  }

  lemma {:induction false} TracksRun<T>(cfg: Config, w: Limits<T>, steps: seq<LimitStep<T>>, scope: string,
                                        failures: seq<int>)
    requires cfg.Sane() && Tracks(cfg, MeterOf(w.redis, scope), w.now, failures)
    requires forall step | step in steps :: Proper(step)
    requires AllRecorded(cfg, w, steps, scope)
    ensures var w' := Run(cfg, w, steps);
            Tracks(cfg, MeterOf(w'.redis, scope), w'.now, History(cfg, w, steps, scope, failures))
    decreases |steps|
  {
    hide Tracks, Fails, Succeeds, Lost, Proper;
    if steps != [] {
      TracksStep(cfg, w, steps[0], scope, failures);
      TracksRun(cfg, Next(cfg, w, steps[0]), steps[1..], scope,
                if Fails(w, steps[0], scope) then failures + [w.now]
                else if Succeeds(w, steps[0], scope) then [] else failures);
    }
  }

  /** A scope is locked out exactly if its latest counter window is full and the
      last failure in it is more recent than the lockout period. */
  lemma LockoutExact<T>(cfg: Config, w: Limits<T>, steps: seq<LimitStep<T>>, scope: string)
    requires cfg.Sane() && w.redis == map[]
    requires forall step | step in steps :: Proper(step)
    requires AllRecorded(cfg, w, steps, scope)
    ensures var w' := Run(cfg, w, steps);
            Live(w'.redis, Lockout(scope), w'.now) <==> LockedOut(cfg, History(cfg, w, steps, scope, []), w'.now)
  {
    hide AllRecorded;
    assert Tracks(cfg, MeterOf(w.redis, scope), w.now, []);
    TracksRun(cfg, w, steps, scope, []);
  }

  // ----------------------------------------------------- windows of a history

  /** Window starts are at least one lockout apart. */
  ghost predicate Spaced(cfg: Config, failures: seq<int>) {
    forall k | 1 <= k < |failures| && WindowStart(cfg, failures[..k + 1]) == k ::
      failures[WindowStart(cfg, failures[..k])] + cfg.lockoutSeconds <= failures[k]
  }

  predicate Ordered(failures: seq<int>, now: int) {
    && (forall i, j | 0 <= i < j < |failures| :: failures[i] <= failures[j])
    && (forall i | 0 <= i < |failures| :: failures[i] <= now)
  }

  lemma SpacedFailure(cfg: Config, m: Meter, now: int, failures: seq<int>)
    requires cfg.Sane() && Tracks(cfg, m, now, failures) && !Shown(m.lock, now)
    requires Spaced(cfg, failures) && Ordered(failures, now)
    ensures Spaced(cfg, failures + [now]) && Ordered(failures + [now], now)
  {
    var later, n := failures + [now], |failures|;
    forall k | 1 <= k < |later| && WindowStart(cfg, later[..k + 1]) == k
      ensures later[WindowStart(cfg, later[..k])] + cfg.lockoutSeconds <= later[k]
    {
      assert later[..k] == failures[..k];
      if k < n {
        assert later[..k + 1] == failures[..k + 1];
      } else {
        var start := WindowStart(cfg, failures);
        assert failures[..n] == failures && later[..n + 1] == later && later[..n] == failures;
        assert failures[start] <= failures[n - 1];
      }
    }
  }

  lemma {:induction false} SpacedRun<T>(cfg: Config, w: Limits<T>, steps: seq<LimitStep<T>>, scope: string,
                                        failures: seq<int>)
    requires cfg.Sane() && Tracks(cfg, MeterOf(w.redis, scope), w.now, failures)
    requires Spaced(cfg, failures) && Ordered(failures, w.now)
    requires forall step | step in steps :: Proper(step)
    requires AllRecorded(cfg, w, steps, scope)
    ensures Spaced(cfg, History(cfg, w, steps, scope, failures))
    decreases |steps|
  {
    hide Tracks, Succeeds, Lost, Proper, Spaced;
    if steps != [] {
      var after := if Fails(w, steps[0], scope) then failures + [w.now]
                   else if Succeeds(w, steps[0], scope) then [] else failures;
      TracksStep(cfg, w, steps[0], scope, failures);
      if Fails(w, steps[0], scope) {
        SpacedFailure(cfg, MeterOf(w.redis, scope), w.now, failures);
      }
      assert Spaced(cfg, []) by { NothingSpaced(cfg); }
      SpacedRun(cfg, Next(cfg, w, steps[0]), steps[1..], scope, after);
    }
  }

  lemma NothingSpaced(cfg: Config)
    ensures Spaced(cfg, [])
  {
  }

  /** Of any two consecutive counter windows since the last success, the second
      starts at least one lockout period after the first. */
  lemma WindowsApart<T>(cfg: Config, w: Limits<T>, steps: seq<LimitStep<T>>, scope: string, k: nat)
    requires cfg.Sane() && w.redis == map[]
    requires forall step | step in steps :: Proper(step)
    requires AllRecorded(cfg, w, steps, scope)
    ensures var h := History(cfg, w, steps, scope, []);
            1 <= k < |h| && WindowStart(cfg, h[..k + 1]) == k ==>
              h[WindowStart(cfg, h[..k])] + cfg.lockoutSeconds <= h[k]
  {
    hide AllRecorded;
    assert Tracks(cfg, MeterOf(w.redis, scope), w.now, []);
    NothingSpaced(cfg);
    SpacedRun(cfg, w, steps, scope, []);
  }

  /** Steps of one scope: wrong guesses, each fully recorded, and waits. */
  function Guess<T>(scope: string): LimitStep<T> {
    Check(scope, [], Wrong, 5)
  }

  lemma GuessRecorded<T>(cfg: Config, w: Limits<T>, scope: string, failures: seq<int>)
    requires cfg.Sane() && Tracks(cfg, MeterOf(w.redis, scope), w.now, failures)
    requires !LockedOut(cfg, failures, w.now)
    ensures var w' := Next(cfg, w, Guess(scope));
            && Fails(w, Guess(scope), scope) && !Lost(cfg, w, Guess(scope), scope) && w'.now == w.now
            && Tracks(cfg, MeterOf(w'.redis, scope), w.now, failures + [w.now])
  {
    assert StepCmds(cfg, w, Guess<T>(scope)) == CheckCmds(cfg, w.redis, w.now, scope, [], Wrong);
    TracksStep(cfg, w, Guess(scope), scope, failures);
  }

  lemma WaitTracks<T>(cfg: Config, w: Limits<T>, scope: string, failures: seq<int>, seconds: nat)
    requires cfg.Sane() && Tracks(cfg, MeterOf(w.redis, scope), w.now, failures)
    ensures Tracks(cfg, MeterOf(w.redis, scope), w.now + seconds, failures)
  {
  }

  /** The run: a guess, then one just before the window ends, then two more just after. */
  function SlidingRun<T>(cfg: Config, scope: string): seq<LimitStep<T>>
    requires cfg.Sane()
  {
    [Guess(scope), Tick(cfg.lockoutSeconds - 1), Guess(scope), Tick(1), Guess(scope), Tick(1), Guess(scope)]
  }

  /** Windows do not slide: with three failures allowed, the last three of these
      four come within two seconds, all are made, and nobody is locked out. */
  lemma WindowsDoNotSlide<T>(cfg: Config, w: Limits<T>, scope: string)
    requires cfg.Sane() && cfg.maxFailedLogins == 3 && 2 <= cfg.lockoutSeconds && w.redis == map[]
    ensures var steps := SlidingRun(cfg, scope);
            var w' := Run(cfg, w, steps);
            && Failures(cfg, w, steps, scope, w'.now - 2, w'.now + 1) == 3
            && !Live(w'.redis, Lockout(scope), w'.now)
  {
    hide Next, Tracks, Fails, Run, Failures, LockedOut, SlidingRun, MeterOf;
    SlidingWindows(cfg, w.now);
    NothingTracked(cfg, w, scope);
    var w1 := Next(cfg, w, Guess(scope));
    var w3 := GuessWaitGuess(cfg, w, scope, [], cfg.lockoutSeconds - 1);
    var w5 := WaitGuess(cfg, w3, scope, [w.now, w3.now], 1);
    var w7 := WaitGuess(cfg, w5, scope, [w.now, w3.now] + [w5.now], 1);
    TrackedLock(cfg, w7, scope, [w.now, w3.now] + [w5.now] + [w7.now]);
    SlidingRuns(cfg, w, scope, w1, w1.(now := w1.now + (cfg.lockoutSeconds - 1)), w3, w3.(now := w3.now + 1), w5,
                w5.(now := w5.now + 1), w7);
  }

  /** A wait and then a wrong guess, on the way from one world to the next. */
  lemma WaitGuess<T>(cfg: Config, w: Limits<T>, scope: string, failures: seq<int>, seconds: nat)
      returns (later: Limits<T>)
    requires cfg.Sane() && Tracks(cfg, MeterOf(w.redis, scope), w.now, failures)
    requires !LockedOut(cfg, failures, w.now + seconds)
    ensures var waited := w.(now := w.now + seconds);
            && waited == Next(cfg, w, Tick(seconds)) && later == Next(cfg, waited, Guess(scope))
            && later.now == waited.now && Fails(waited, Guess(scope), scope)
            && Tracks(cfg, MeterOf(later.redis, scope), later.now, failures + [later.now])
  {
    hide Next, Tracks, Fails, LockedOut, MeterOf;
    TickNext(cfg, w, seconds);
    WaitTracks(cfg, w, scope, failures, seconds);
    GuessRecorded(cfg, w.(now := w.now + seconds), scope, failures);
    later := Next(cfg, w.(now := w.now + seconds), Guess(scope));
  }

  lemma GuessWaitGuess<T>(cfg: Config, w: Limits<T>, scope: string, failures: seq<int>, seconds: nat)
    returns (later: Limits<T>)
    requires cfg.Sane() && Tracks(cfg, MeterOf(w.redis, scope), w.now, failures) && failures == []
    requires !LockedOut(cfg, [], w.now) && !LockedOut(cfg, [w.now], w.now + seconds)
    ensures var first := Next(cfg, w, Guess(scope));
            var waited := first.(now := first.now + seconds);
            && first.now == w.now && waited == Next(cfg, first, Tick(seconds))
            && later == Next(cfg, waited, Guess(scope)) && later.now == w.now + seconds
            && Fails(waited, Guess(scope), scope)
            && Tracks(cfg, MeterOf(later.redis, scope), later.now, [w.now, later.now])
  {
    hide Next, Tracks, Fails, LockedOut, MeterOf;
    GuessRecorded(cfg, w, scope, failures);
    assert failures + [w.now] == [w.now];
    later := WaitGuess(cfg, Next(cfg, w, Guess(scope)), scope, [w.now], seconds);
    assert [w.now] + [later.now] == [w.now, later.now];
  }

  lemma SlidingWindows(cfg: Config, now: int)
    requires cfg.Sane() && cfg.maxFailedLogins == 3 && 2 <= cfg.lockoutSeconds
    ensures var pause := cfg.lockoutSeconds;
            var h2 := [now, now + pause - 1];
            var h3 := h2 + [now + pause];
            var h4 := h3 + [now + pause + 1];
            && !LockedOut(cfg, [], now) && !LockedOut(cfg, [now], now + pause - 1)
            && !LockedOut(cfg, h2, now + pause) && !LockedOut(cfg, h3, now + pause + 1)
            && !LockedOut(cfg, h4, now + pause + 1)
            && [] + [now] == [now] && [now] + [now + pause - 1] == h2
  {
    var pause := cfg.lockoutSeconds;
    var h4 := [now, now + pause - 1, now + pause, now + pause + 1];
    assert h4[..3][..2] == [now, now + pause - 1] && [now, now + pause - 1][..1] == [now];
    assert h4[..3] == [now, now + pause - 1, now + pause];
    assert WindowStart(cfg, [now]) == 0;
    assert WindowStart(cfg, [now, now + pause - 1]) == 0;
    assert WindowStart(cfg, h4[..3]) == 2;
    assert WindowStart(cfg, h4) == 2;
  }

  lemma NothingTracked<T>(cfg: Config, w: Limits<T>, scope: string)
    requires cfg.Sane() && w.redis == map[]
    ensures Tracks(cfg, MeterOf(w.redis, scope), w.now, [])
  {
  }

  lemma TickNext<T>(cfg: Config, w: Limits<T>, seconds: nat)
    ensures Next(cfg, w, Tick(seconds)) == w.(now := w.now + seconds)
  {
  }

  lemma TrackedLock<T>(cfg: Config, w: Limits<T>, scope: string, failures: seq<int>)
    requires cfg.Sane() && Tracks(cfg, MeterOf(w.redis, scope), w.now, failures)
    ensures Live(w.redis, Lockout(scope), w.now) <==> LockedOut(cfg, failures, w.now)
  {
  }

  lemma SlidingRuns<T>(cfg: Config, w: Limits<T>, scope: string, w1: Limits<T>, w2: Limits<T>, w3: Limits<T>,
                       w4: Limits<T>, w5: Limits<T>, w6: Limits<T>, w7: Limits<T>)
    requires cfg.Sane() && 2 <= cfg.lockoutSeconds
    requires w1 == Next(cfg, w, Guess(scope)) && w2 == Next(cfg, w1, Tick(cfg.lockoutSeconds - 1))
    requires w3 == Next(cfg, w2, Guess(scope)) && w4 == Next(cfg, w3, Tick(1))
    requires w5 == Next(cfg, w4, Guess(scope)) && w6 == Next(cfg, w5, Tick(1))
    requires w7 == Next(cfg, w6, Guess(scope))
    requires w.now == w1.now && w2.now == w3.now == w.now + cfg.lockoutSeconds - 1
    requires w4.now == w5.now == w.now + cfg.lockoutSeconds && w6.now == w7.now == w.now + cfg.lockoutSeconds + 1
    requires Fails(w2, Guess(scope), scope) && Fails(w4, Guess(scope), scope) && Fails(w6, Guess(scope), scope)
    ensures var steps := SlidingRun(cfg, scope);
            Run(cfg, w, steps) == w7 && Failures(cfg, w, steps, scope, w7.now - 2, w7.now + 1) == 3
  {
    hide Next, Fails, Run, Failures;
    var s6: seq<LimitStep<T>> := [Guess(scope)];
    var s5: seq<LimitStep<T>> := [Tick(1)] + s6;
    var s4: seq<LimitStep<T>> := [Guess(scope)] + s5;
    var s3: seq<LimitStep<T>> := [Tick(1)] + s4;
    var s2: seq<LimitStep<T>> := [Guess(scope)] + s3;
    var s1: seq<LimitStep<T>> := [Tick(cfg.lockoutSeconds - 1)] + s2;
    var from, to := w7.now - 2, w7.now + 1;
    assert SlidingRun<T>(cfg, scope) == [Guess(scope)] + s1 && s6 == [Guess(scope)] + [];
    NoTickFails(w1, cfg.lockoutSeconds - 1, scope);
    NoTickFails(w3, 1, scope);
    NoTickFails(w5, 1, scope);
    UnfoldsNothing(cfg, w7, [], scope, from, to);
    UnfoldsFirst(cfg, w6, Guess(scope), [], scope, from, to);
    UnfoldsFirst(cfg, w5, Tick(1), s6, scope, from, to);
    UnfoldsFirst(cfg, w4, Guess(scope), s5, scope, from, to);
    UnfoldsFirst(cfg, w3, Tick(1), s4, scope, from, to);
    UnfoldsFirst(cfg, w2, Guess(scope), s3, scope, from, to);
    UnfoldsFirst(cfg, w1, Tick(cfg.lockoutSeconds - 1), s2, scope, from, to);
    UnfoldsFirst(cfg, w, Guess(scope), s1, scope, from, to);
  }

  lemma UnfoldsFirst<T>(cfg: Config, w: Limits<T>, step: LimitStep<T>, rest: seq<LimitStep<T>>, scope: string, a: int,
                        b: int)
    ensures Run(cfg, w, [step] + rest) == Run(cfg, Next(cfg, w, step), rest)
    ensures Failures(cfg, w, [step] + rest, scope, a, b)
         == (if a <= w.now < b && Fails(w, step, scope) then 1 else 0)
             + Failures(cfg, Next(cfg, w, step), rest, scope, a, b)
  {
    assert ([step] + rest)[0] == step && ([step] + rest)[1..] == rest;
  }

  lemma UnfoldsNothing<T>(cfg: Config, w: Limits<T>, steps: seq<LimitStep<T>>, scope: string, a: int, b: int)
    requires steps == []
    ensures Run(cfg, w, steps) == w && Failures(cfg, w, steps, scope, a, b) == 0
  {
  }

  lemma NoTickFails<T>(w: Limits<T>, seconds: nat, scope: string)
    ensures !Fails(w, Tick(seconds), scope)
  {
  }

  // ----------------------------------------------------- password login

  /** What the credentials turn out to be, once they are looked at. */
  function Credentials(account: Account, passwordOk: bool): Verdict {
    if account == NoAccount || !passwordOk then Wrong
    else if account == Disabled then Refused
    else Right
  }

  /** How a login check ends. Faults of the limiter deny before the check and
      are ignored after it. */
  function LoginEnding(redis: Cache, now: int, scope: string, verdict: Verdict, budget: nat): Attempt<()> {
    if budget == 0 then Raised(ServiceUnavailable)
    else if Live(redis, Lockout(scope), now) then Raised(AccountLocked)
    else if budget == 1 then Raised(StoreDown)
    else if verdict == Right then Ok(())
    else Raised(AuthError)
  }

  class Authenticator<T> {
    const cfg: Config
    const conn: Connection<T>
    const limiter: RateLimiter<T>

    constructor (cfg: Config, conn: Connection<T>)
      ensures this.cfg == cfg && this.conn == conn && Valid()
    {
      this.cfg := cfg;
      this.conn := conn;
      limiter := new RateLimiter(cfg, conn);
    }

    ghost predicate Valid() {
      limiter.cfg == cfg && limiter.conn == conn
    }

    /** Check a password. `account` and `passwordOk` are what the lookup and
        the hash comparison will say. */
    method Authenticate(email: string, ip: Option<string>, account: Account, passwordOk: bool, now: int)
      returns (r: Attempt<()>)
      requires Valid() && conn.working == conn.committed
      modifies conn
      ensures var scope := Scoped(email, ip);
              var step := Check(scope, [Select], Credentials(account, passwordOk), old(conn.budget));
              && conn.redis == Next(cfg, Limits(now, old(conn.redis), old(conn.working)), step).redis
              && r == LoginEnding(old(conn.redis), now, scope, Credentials(account, passwordOk), old(conn.budget))
              && (r == Raised(AuthError) && (account == NoAccount || !passwordOk)
                  <==> Fails(Limits(now, old(conn.redis), old(conn.working)), step, scope))
      ensures var locked := Live(old(conn.redis), Lockout(Scoped(email, ip)), now);
              && (r.Ok? <==> 2 <= old(conn.budget) && !locked && account == InGoodStanding && passwordOk)
              && (r == Raised(AccountLocked) <==> 1 <= old(conn.budget) && locked)
              && (r == Raised(AuthError) <==>
                    2 <= old(conn.budget) && !locked && !(account == InGoodStanding && passwordOk))
              && (r == Raised(ServiceUnavailable) <==> old(conn.budget) == 0)
      ensures account == Disabled && passwordOk ==>
                MeterOf(conn.redis, Scoped(email, ip)) == MeterOf(old(conn.redis), Scoped(email, ip))
    {
      hide Reach, FailureCmds, ClearCmds;
      var scope := Scoped(email, ip);
      ghost var s0, b0 := conn.Snapshot(), conn.budget;
      ghost var verdict := Credentials(account, passwordOk);
      ghost var exists1: seq<Command<T>> := [Exists(Lockout(scope))];
      ghost var select: seq<Command<T>> := [Select];
      ghost var tail := TailCmds<T>(cfg, conn.redis, now, scope, verdict);
      LoginAnswers(cfg, Limits(now, conn.redis, conn.working), email, ip, account, passwordOk, conn.budget);
      ReachConcat(s0, b0, now, exists1, select);
      ReachConcat(s0, b0, now, exists1 + select, tail);
      assert exists1 + [] == exists1 && exists1 + (select + tail) == exists1 + select + tail;
      assert exists1 + select + [] == exists1 + select;
      var _ :- limiter.EnsureNotLocked(email, ip, now);
      var _ :- conn.Query(now);
      assert conn.Did(s0, b0, now, exists1 + select) && conn.redis == s0.redis;
      if account == NoAccount || !passwordOk {
        limiter.RecordFailure(email, ip, now);
        return Raised(AuthError);
      }
      if account == Disabled {
        return Raised(AuthError);
      }
      limiter.ClearFailures(email, ip, now);
      return Ok(());
    }
  }

  /** What a login check answers, and when it counts a failure or forgives the
      earlier ones: a disabled account with the right password does neither. */
  lemma LoginAnswers<T>(cfg: Config, w: Limits<T>, email: string, ip: Option<string>, account: Account,
                        passwordOk: bool, budget: nat)
    ensures var scope := Scoped(email, ip);
            var verdict := Credentials(account, passwordOk);
            var step: LimitStep<T> := Check(scope, [Select], verdict, budget);
            var answer := LoginEnding(w.redis, w.now, scope, verdict, budget);
            var locked := Live(w.redis, Lockout(scope), w.now);
            && (answer.Ok? <==> 2 <= budget && !locked && account == InGoodStanding && passwordOk)
            && (answer == Raised(AccountLocked) <==> 1 <= budget && locked)
            && (answer == Raised(AuthError) <==> 2 <= budget && !locked && !(account == InGoodStanding && passwordOk))
            && (Fails(w, step, scope) <==> 2 <= budget && !locked && (account == NoAccount || !passwordOk))
            && (Succeeds(w, step, scope) <==> 2 <= budget && !locked && account == InGoodStanding && passwordOk)
            && (locked || (account == Disabled && passwordOk) ==>
                  MeterOf(Next(cfg, w, step).redis, scope) == MeterOf(w.redis, scope))
  {
    var step: LimitStep<T> := Check(Scoped(email, ip), [Select], Credentials(account, passwordOk), budget);
    MeterNext(cfg, w, step, Scoped(email, ip));
    hide Next;
  }

  // ----------------------------------------------------- scopes

  /** Identifiers that differ only in letter case are counted and locked together. */
  lemma CaseShares(a: string, b: string, ip: Option<string>)
    requires |a| == |b|
    requires forall i | 0 <= i < |a| ::
               a[i] == b[i] || ('A' <= a[i] <= 'Z' && b[i] as int == a[i] as int + 32)
               || ('A' <= b[i] <= 'Z' && a[i] as int == b[i] as int + 32)
    ensures Scoped(a, ip) == Scoped(b, ip)
  {
    forall i | 0 <= i < |a|
      ensures Lower(a)[i] == Lower(b)[i]
    {
      assert LowerChar(a[i]) == LowerChar(b[i]);
    }
    assert Lower(a) == Lower(b);
  }

  /** An address counts separately for each IP address it is tried from. */
  lemma AddressesApart(identifier: string, a: string, b: string)
    ensures Scoped(identifier, Some(a)) == Scoped(identifier, Some(b)) <==> a == b
    ensures Scoped(identifier, Some("")) == Scoped(identifier, None)
  {
    var n := |identifier|;
    if a != "" && b != "" && Scoped(identifier, Some(a)) == Scoped(identifier, Some(b)) {
      assert Scoped(identifier, Some(a))[n + 1..] == a && Scoped(identifier, Some(b))[n + 1..] == b;
    }
    if (a == "") != (b == "") {
      assert |Scoped(identifier, Some(a))| != |Scoped(identifier, Some(b))|;
    }
  }

  /** What a hit is answered: only a window with room passes, and Redis failing
      at either of its commands denies. */
  lemma HitAnswers<T>(cfg: Config, w: Limits<T>, step: LimitStep<T>)
    requires step.Hit?
    ensures var answer := HitEnding(w.redis, w.now, step.bucket, step.limit, step.budget);
            var c := Counter(w.redis, RateLimit(step.bucket), w.now);
            var lost := step.budget == 0 || (c == 0 && step.budget == 1);
            && (answer == Raised(ServiceUnavailable) <==> lost)
            && (answer == Raised(RateLimited) <==> !lost && step.limit <= c)
            && (answer == Ok(()) <==> !lost && c < step.limit)
            && (Passing(w, step, step.bucket) <==> answer == Ok(()))
  {
  }
}
