/** Values shared by every component: settings, identifiers, exceptions. */
module Base {

  datatype Option<+T> = None | Some(value: T)

  /** The exceptions a request can end with. `StoreDown` is a Redis or
      database command that failed. */
  datatype Error =
    | AuthError
    | TokenReplay
    | AccountLocked
    | NotFound
    | Conflict
    | Invalid
    | RateLimited
    | ServiceUnavailable
    | StoreDown

  /** A call that returns a value or raises. */
  datatype Attempt<+T> = Ok(value: T) | Raised(error: Error) {
    predicate IsFailure() {
      Raised?
    }

    function PropagateFailure<U>(): Attempt<U>
      requires Raised?
    {
      Raised(error)
    }

    function Extract(): T
      requires Ok?
    {
      value
    }
  }

  /** The same ending, yielding another value. */
  function Yielding<T, U>(a: Attempt<T>, v: U): Attempt<U> {
    match a
    case Ok(_) => Ok(v)
    case Raised(e) => Raised(e)
  }

  /** A random identifier; only its identity matters. */
  datatype Uuid = Uuid(n: nat)

  /** What a lookup by id or address finds. */
  datatype Account = NoAccount | Disabled | InGoodStanding

  /** The settings the protocols depend on, in the units of the source. */
  datatype Config = Config(
    accessMinutes: int,
    refreshDays: int,
    rememberDays: int,
    preAuthMinutes: int,
    idleMinutes: int,
    absoluteHours: int,
    throttleSeconds: int,
    maxFailedLogins: int,
    lockoutSeconds: int,
    totpWindow: int,
    backupCodes: nat,
    verifyHours: int,
    resetMinutes: int,
    changeHours: int,
    oauthStateSeconds: int)
  {
    function AccessSeconds(): int { accessMinutes * 60 }

    function RefreshSeconds(remember: bool): int {
      (if remember then rememberDays else refreshDays) * 86400
    }

    function IdleSeconds(): int { idleMinutes * 60 }

    function AbsoluteSeconds(): int { absoluteHours * 3600 }

    /** What the protocol theorems ask of the settings: positive durations,
        remember-me at least as long as a plain login, and an idle timeout
        longer than the activity throttle. */
    predicate Sane() {
      && 0 < accessMinutes && 0 < refreshDays <= rememberDays && 0 < preAuthMinutes
      && 0 < absoluteHours && 0 < throttleSeconds < IdleSeconds()
      && 1 <= maxFailedLogins && 0 < lockoutSeconds
      && 0 <= totpWindow
      && 0 < verifyHours && 0 < resetMinutes && 0 < changeHours && 0 < oauthStateSeconds
    }
  }

  function Min(a: int, b: int): int {
    if a <= b then a else b
  }

  /** Lower-casing, on the ASCII letters. */
  function LowerChar(c: char): char {
    if 'A' <= c <= 'Z' then (c as int + 32) as char else c
  }

  function Lower(s: string): (r: string)
    ensures |r| == |s|
  {
    seq(|s|, i requires 0 <= i < |s| => LowerChar(s[i]))
  }
}
