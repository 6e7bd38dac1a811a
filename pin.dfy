/** PIN and identifier format checks, the guard in front of PIN hashing, and the lockout
    arithmetic; the clock is a parameter. */
module Pin {
  import opened Wrappers
  import opened Text
  import opened Store

  const MaxFailedAttempts := 5
  /** Fifteen minutes, in milliseconds. */
  const LockoutDurationMs := 15 * 60 * 1000
  const InvalidPinMessage := "PIN must be exactly 4 digits"

  /** `validatePin`: exactly four decimal digits. */
  predicate ValidatePin(pin: string) {
    |pin| == 4 && forall i :: 0 <= i < 4 ==> IsDigit(pin[i])
  }

  predicate IdentifierChar(c: char) {
    IsAsciiLetter(c) || IsDigit(c) || c == '.' || c == '_' || c == '-'
  }

  /** `validateIdentifier`: 2 to 30 characters, each a letter, digit, dot, underscore or hyphen. */
  predicate ValidateIdentifier(id: string) {
    2 <= |id| <= 30 && forall i :: 0 <= i < |id| ==> IdentifierChar(id[i])
  }

  /** The PIN that spells `n` with four digits, leading zeros kept. */
  function PinOf(n: nat): (p: string)
    requires n < 10000
    ensures |p| == 4
  {
    [Digit(n / 10 / 10 / 10), Digit(n / 10 / 10 % 10), Digit(n / 10 % 10), Digit(n % 10)]
  }

  function Digit(d: nat): (c: char)
    requires d < 10
    ensures IsDigit(c) && DigitValue(c) == d
  {
    '0' + d as char
  }

  function DigitValue(c: char): (d: nat)
    requires IsDigit(c)
    ensures d < 10
  {
    c as int - '0' as int
  }

  /** A valid PIN is exactly a four-digit rendering of one of the 10,000 numbers below 10,000. */
  lemma ValidPinsAreFourDigitNumbers(pin: string)
    ensures ValidatePin(pin) <==> exists n :: 0 <= n < 10000 && PinOf(n) == pin
  {
    if ValidatePin(pin) {
      var a, b, c, d := DigitValue(pin[0]), DigitValue(pin[1]), DigitValue(pin[2]), DigitValue(pin[3]);
      var ab := a * 10 + b;
      var abc := ab * 10 + c;
      var n := abc * 10 + d;
      ShiftDigit(abc, d);
      ShiftDigit(ab, c);
      ShiftDigit(a, b);
      assert PinOf(n) == pin;
    }
  }

  /** Appending a digit and dividing by ten undo each other. */
  lemma ShiftDigit(m: nat, d: nat)
    requires d < 10
    ensures (m * 10 + d) / 10 == m && (m * 10 + d) % 10 == d
  {
  }

  /** `hashPin`: an invalid PIN is refused before anything is hashed. */
  function HashPin(pin: string): (r: Result<PinHash, string>)
    ensures r.Failure? <==> !ValidatePin(pin)
    ensures r.Failure? ==> r.error == InvalidPinMessage
    ensures r.Success? ==> r.value == HashOf(pin)
  {
    if !ValidatePin(pin) then Failure(InvalidPinMessage) else Success(HashOf(pin))
  }

  /** Hashing keeps PINs apart: two PINs with the same stored hash are the same PIN. */
  lemma HashPinInjective(a: string, b: string)
    requires HashPin(a).Success? && HashPin(b).Success? && HashPin(a).value == HashPin(b).value
    ensures a == b
  {
  }

  datatype Lockout = Lockout(locked: bool, remainingMs: int)

  /** `isLockedOut`; `lockedUntil` and `now` are milliseconds since the epoch. */
  function IsLockedOut(failedAttempts: int, lockedUntil: Option<int>, now: int): (r: Lockout)
    ensures r.locked <==> failedAttempts >= MaxFailedAttempts && lockedUntil.Some? && lockedUntil.value > now
    ensures r.locked ==> r.remainingMs == lockedUntil.value - now
    ensures !r.locked ==> r.remainingMs == 0
  {
    if failedAttempts < MaxFailedAttempts || lockedUntil.None? then Lockout(false, 0)
    else
      var remaining := lockedUntil.value - now;
      if remaining <= 0 then Lockout(false, 0) else Lockout(true, remaining)
  }

  /** `getLockoutUntil`. */
  function GetLockoutUntil(now: int): (t: int)
    ensures t - now == LockoutDurationMs
  {
    now + LockoutDurationMs
  }

  /** The remaining time is positive exactly when the account is locked, and never more than the
      full lockout when the lock was set by `GetLockoutUntil` at or before `now`. */
  lemma LockoutWindow(failedAttempts: int, setAt: int, now: int)
    requires failedAttempts >= MaxFailedAttempts && setAt <= now
    ensures var r := IsLockedOut(failedAttempts, Some(GetLockoutUntil(setAt)), now);
      && (r.locked <==> now < setAt + 900000)
      && (r.locked <==> r.remainingMs > 0)
      && 0 <= r.remainingMs <= LockoutDurationMs
  {
  }

  /** Below the attempt threshold, no lock date has any effect. */
  lemma FewAttemptsNeverLock(failedAttempts: int, lockedUntil: Option<int>, now: int)
    requires failedAttempts < MaxFailedAttempts
    ensures IsLockedOut(failedAttempts, lockedUntil, now) == Lockout(false, 0)
  {
  }
}
