/** Blacklisting on a millisecond clock. A token's expiry (RFC 7519, section
    4.1.4) and a Redis lifetime are whole seconds, so the lifetime computed
    from the expiry is rounded down and ends up to a second early. */
module Truncation {
  import opened Base

  const SECOND: int := 1000

  /** The deadline of one token's blacklist entry. Instants are in
      milliseconds, `exp` in seconds. */
  datatype Blacklist = Blacklist(until: Option<int>)

  function ExpiryOf(cfg: Config, issuedAt: int, remember: bool): int {
    (issuedAt + cfg.RefreshSeconds(remember) * SECOND) / SECOND
  }

  predicate Listed(black: Blacklist, now: int) {
    black.until.Some? && now < black.until.value
  }

  predicate Accepted(black: Blacklist, exp: int, now: int) {
    now < exp * SECOND && !Listed(black, now)
  }

  /** Whole seconds left; `int` rounds toward zero, and only positive ones count. */
  function Lifetime(exp: int, now: int): int {
    if exp * SECOND <= now then 0 else (exp * SECOND - now) / SECOND
  }

  function Revoke(black: Blacklist, exp: int, now: int): Blacklist {
    if 0 < Lifetime(exp, now) then Blacklist(Some(now + Lifetime(exp, now) * SECOND)) else black
  }

  function RevokeById(cfg: Config, now: int): Blacklist {
    Blacklist(Some(now + cfg.RefreshSeconds(true) * SECOND))
  }

  /** After a rotation at `now` the token is let in again during a gap at its
      very end, shorter than a second, and at no other instant. */
  lemma RotationGap(black: Blacklist, exp: int, now: int)
    requires Accepted(black, exp, now)
    ensures var gap := (exp * SECOND - now) % SECOND;
            && 0 <= gap < SECOND
            && (gap == 0 <==> now % SECOND == 0)
            && forall t | now <= t :: Accepted(Revoke(black, exp, now), exp, t)
                <==> exp * SECOND - gap <= t < exp * SECOND
  {
  }

  /** The presentations that succeed when the token is presented at each of
      `times`; a successful one rotates, which blacklists. */
  function Successes(black: Blacklist, exp: int, times: seq<int>): seq<int>
    decreases |times|
  {
    if times == [] then []
    else if Accepted(black, exp, times[0])
    then [times[0]] + Successes(Revoke(black, exp, times[0]), exp, times[1..])
    else Successes(black, exp, times[1..])
  }

  predicate Ordered(times: seq<int>) {
    forall i, j | 0 <= i < j < |times| :: times[i] <= times[j]
  }

  /** Nothing gets in before the token's last second. */
  predicate LastSecondOnly(black: Blacklist, exp: int, now: int) {
    now < exp * SECOND ==> (exp - 1) * SECOND < now || (black.until.Some? && (exp - 1) * SECOND < black.until.value)
  }

  lemma {:induction false} OnlyLastSecond(black: Blacklist, exp: int, times: seq<int>)
    requires Ordered(times) && (times != [] ==> LastSecondOnly(black, exp, times[0]))
    ensures forall t | t in Successes(black, exp, times) :: (exp - 1) * SECOND < t
    decreases |times|
  {
    if times != [] {
      var rest := times[1..];
      assert rest != [] ==> times[0] <= rest[0] by {
        if rest != [] {
          assert times[1] == rest[0];
        }
      }
      OnlyLastSecond(if Accepted(black, exp, times[0]) then Revoke(black, exp, times[0]) else black, exp, rest);
    }
  }

  /** However often a refresh token is presented, every success but the first
      falls in its last second; if the first came on a second boundary, there
      is no other. */
  lemma {:induction false} ReplaySpan(exp: int, times: seq<int>)
    requires Ordered(times)
    ensures var s := Successes(Blacklist(None), exp, times);
            && (forall t | s != [] && t in s[1..] :: (exp - 1) * SECOND < t)
            && (s != [] && s[0] % SECOND == 0 ==> |s| == 1)
    decreases |times|
  {
    if times != [] {
      var rest := times[1..];
      assert rest != [] ==> times[0] <= rest[0] by {
        if rest != [] {
          assert times[1] == rest[0];
        }
      }
      if Accepted(Blacklist(None), exp, times[0]) {
        var black := Revoke(Blacklist(None), exp, times[0]);
        var s := Successes(Blacklist(None), exp, times);
        assert s[1..] == Successes(black, exp, rest);
        OnlyLastSecond(black, exp, rest);
        if s[0] % SECOND == 0 {
          Shut(black, exp, rest);
        }
      } else {
        ReplaySpan(exp, rest);
      }
    }
  }

  lemma {:induction false} Shut(black: Blacklist, exp: int, times: seq<int>)
    requires black.until.Some? && exp * SECOND <= black.until.value
    ensures Successes(black, exp, times) == []
    decreases |times|
  {
    if times != [] {
      Shut(black, exp, times[1..]);
    }
  }

  /** Off the boundary the gap is real: the same token rotates twice. */
  lemma ReplayedInTheGap(exp: int, now: int)
    requires now < exp * SECOND && now % SECOND != 0
    ensures var late := exp * SECOND - 1;
            Successes(Blacklist(None), exp, [now, late]) == [now, late]
  {
    var black := Revoke(Blacklist(None), exp, now);
    var late := exp * SECOND - 1;
    RotationGap(Blacklist(None), exp, now);
    assert [now, late][1..] == [late] && [late][1..] == [];
    assert Successes(black, exp, [late]) == [late] + Successes(Revoke(black, exp, late), exp, []);
    assert Successes(Blacklist(None), exp, [now, late]) == [now] + Successes(black, exp, [late]);
  }

  /** Blacklisting by id has no gap: every refresh token issued before stays
      out until it expires, whatever its own lifetime was. */
  lemma RevokeByIdReaches(cfg: Config, issuedAt: int, remember: bool, revokedAt: int, now: int)
    requires cfg.Sane() && issuedAt <= revokedAt <= now
    ensures !Accepted(RevokeById(cfg, revokedAt), ExpiryOf(cfg, issuedAt, remember), now)
  {
    assert cfg.RefreshSeconds(remember) <= cfg.RefreshSeconds(true);
  }
}
