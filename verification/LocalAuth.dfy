/** PIN login on a till: the lockout counter, and how many guesses it lets through over any run. */
module LocalAuth {
  import opened Basics
  import opened Pbkdf2

  const MAX_FAILED: int := 5
  const LOCKOUT: int := 5 * 60 * 1_000_000_000 // nanoseconds
  const PIN_ITERATIONS: int := 120000
  const PIN_KEY_LEN: nat := 32

  datatype Account = Account(
    enabled: bool, salt: Bytes, hash: Bytes, iterations: int,
    failed: int, lockedUntil: Option<int>, grantExpires: int)

  datatype Outcome = Malformed | UserNotFound | Locked | GrantExpired | WrongPin | LoggedIn

  predicate ValidPin(pin: string) {
    4 <= |pin| <= 8 && forall i | 0 <= i < |pin| :: '0' <= pin[i] <= '9'
  }

  function PinBytes(pin: string): Bytes
    requires ValidPin(pin)
  {
    seq(|pin|, i requires 0 <= i < |pin| => (pin[i] as int) as byte)
  }

  predicate LockedAt(a: Account, now: int) {
    a.lockedUntil.Some? && now < a.lockedUntil.value
  }

  /** What a login on an enabled row does, given whether the hash matches. */
  function Decide(a: Account, now: int, right: bool): (Account, Outcome) {
    if LockedAt(a, now) then (a, Locked)
    else if now >= a.grantExpires then (a, GrantExpired)
    else if right then (a.(failed := 0, lockedUntil := None), LoggedIn)
    else if a.failed + 1 >= MAX_FAILED then (a.(failed := 0, lockedUntil := Some(now + LOCKOUT)), WrongPin)
    else (a.(failed := a.failed + 1), WrongPin)
  }

  /** The UPDATE of a login, with the values it computed from the row it read. */
  datatype Write = Count(failed: int) | Lock(until: int) | Reset

  /** What a login writes, from the row its SELECT returned; None when it stops before comparing. */
  function WriteFor(a: Account, now: int, right: bool): Option<Write> {
    if LockedAt(a, now) || now >= a.grantExpires then None
    else if right then Some(Reset)
    else if a.failed + 1 >= MAX_FAILED then Some(Lock(now + LOCKOUT))
    else Some(Count(a.failed + 1))
  }

  /** The UPDATE sets these columns of the row as it is by then. */
  function Written(a: Account, w: Write): Account {
    match w
    case Count(failed) => a.(failed := failed)
    case Lock(until) => a.(failed := 0, lockedUntil := Some(until))
    case Reset => a.(failed := 0, lockedUntil := None)
  }

  /** With nothing in between, the SELECT and the UPDATE make up one decision. */
  lemma ReadThenWrite(a: Account, now: int, right: bool)
    ensures var w := WriteFor(a, now, right);
            Decide(a, now, right).0 == (if w.Some? then Written(a, w.value) else a)
            && (Decide(a, now, right).1 == WrongPin <==> w.Some? && !right)
            && (Decide(a, now, right).1 == LoggedIn <==> w.Some? && right)
  {
  }

  /** The stored hash is the standard's derived key of the PIN. */
  ghost predicate Matches(prf: Prf, a: Account, pin: string)
    requires IsPrf(prf) && ValidPin(pin)
  {
    DerivedKey(prf, PinBytes(pin), a.salt, if a.iterations < 1 then 1 else a.iterations, |a.hash|) == a.hash
  }

  class LocalUsers {
    var users: map<string, Account>

    constructor ()
      ensures users == map[]
    {
      users := map[];
    }

    /** Enrolment once the grant is verified; an old row is replaced and unlocked. */
    method Enroll(prf: Prf, userId: string, pin: string, salt: Bytes, expires: int) returns (ok: bool)
      requires IsPrf(prf)
      modifies this
      ensures ok <==> ValidPin(pin)
      ensures !ok ==> users == old(users)
      ensures ok ==> userId in users && users == old(users)[userId := users[userId]] && Matches(prf, users[userId], pin)
                     && users[userId].failed == 0 && users[userId].lockedUntil == None
                     && users[userId].enabled && users[userId].grantExpires == expires
                     && users[userId].iterations == PIN_ITERATIONS
    {
      ok := ValidPin(pin);
      if ok {
        var hash := Pbkdf2Sha256(prf, PinBytes(pin), salt, PIN_ITERATIONS, PIN_KEY_LEN);
        users := users[userId := Account(true, salt, hash, PIN_ITERATIONS, 0, None, expires)];
      }
    }

    method Login(prf: Prf, user: string, pin: string, now: int) returns (outcome: Outcome)
      requires IsPrf(prf)
      modifies this
      ensures var id := Trim(user);
              if id == "" || !ValidPin(pin) then outcome == Malformed && users == old(users)
              else if id !in old(users) || !old(users)[id].enabled then outcome == UserNotFound && users == old(users)
              else var step := Decide(old(users)[id], now, Matches(prf, old(users)[id], pin));
                   outcome == step.1 && users == old(users)[id := step.0]
    {
      var id := Trim(user);
      if id == "" || !ValidPin(pin) {
        return Malformed;
      }
      if id !in users || !users[id].enabled {
        return UserNotFound;
      }
      var a := users[id];
      assert users == users[id := a];
      var w;
      outcome, w := Compare(prf, a, pin, now);
      if w.Some? {
        WriteBack(id, w.value);
      }
    }

    /** The checks on the row that was read, and the slow comparison; no statement runs in here. */
    method Compare(prf: Prf, a: Account, pin: string, now: int) returns (outcome: Outcome, w: Option<Write>)
      requires IsPrf(prf) && ValidPin(pin)
      ensures w == WriteFor(a, now, Matches(prf, a, pin)) && outcome == Decide(a, now, Matches(prf, a, pin)).1
    {
      if a.lockedUntil.Some? && now < a.lockedUntil.value {
        return Locked, None;
      }
      if now >= a.grantExpires {
        return GrantExpired, None;
      }
      var actual := Pbkdf2Sha256(prf, PinBytes(pin), a.salt, a.iterations, |a.hash|);
      if actual != a.hash {
        var failed := a.failed + 1;
        return WrongPin, Some(if failed >= MAX_FAILED then Lock(now + LOCKOUT) else Count(failed));
      }
      return LoggedIn, Some(Reset);
    }

    /** The UPDATE; other logins of the user may have run since the SELECT. */
    method WriteBack(id: string, w: Write)
      modifies this
      ensures users.Keys == old(users).Keys && forall o | o in users && o != id :: users[o] == old(users)[o]
      ensures id in users ==> users[id] == Written(old(users)[id], w)
    {
      if id in users {
        users := users[id := Written(users[id], w)];
      }
    }
  }

  // ---- runs of attempts on one user --------------------------------------------------------------------

  datatype Attempt = Attempt(now: int, right: bool)

  function After(a: Account, attempts: seq<Attempt>): Account
    decreases |attempts|
  {
    if |attempts| == 0 then a else After(Decide(a, attempts[0].now, attempts[0].right).0, attempts[1..])
  }

  /** How many wrong PINs were compared. */
  function WrongPins(a: Account, attempts: seq<Attempt>): nat
    decreases |attempts|
  {
    if |attempts| == 0 then 0
    else
      var step := Decide(a, attempts[0].now, attempts[0].right);
      (if step.1 == WrongPin then 1 else 0) + WrongPins(step.0, attempts[1..])
  }

  predicate NobodyLoggedIn(a: Account, attempts: seq<Attempt>)
    decreases |attempts|
  {
    |attempts| == 0
    || (var step := Decide(a, attempts[0].now, attempts[0].right);
        step.1 != LoggedIn && NobodyLoggedIn(step.0, attempts[1..]))
  }

  /** A clock that never runs backwards. */
  predicate InWindow(attempts: seq<Attempt>, start: int, end: int) {
    && (forall i | 0 <= i < |attempts| :: start <= attempts[i].now <= end)
    && (forall i, j | 0 <= i < j < |attempts| :: attempts[i].now <= attempts[j].now)
  }

  predicate CounterOk(a: Account) {
    0 <= a.failed < MAX_FAILED
  }

  lemma {:induction false} CounterStaysInRange(a: Account, attempts: seq<Attempt>)
    requires CounterOk(a)
    ensures CounterOk(After(a, attempts))
    decreases |attempts|
  {
    if |attempts| > 0 {
      CounterStaysInRange(Decide(a, attempts[0].now, attempts[0].right).0, attempts[1..]);
    }
  }

  /** How many lockouts fit into a time span, plus one. */
  function Rounds(span: int): (n: int)
    requires span >= 0
    ensures n >= 1 && (n - 1) * LOCKOUT <= span < n * LOCKOUT
  {
    span / LOCKOUT + 1
  }

  /** How many more wrong PINs can be compared up to `end`. */
  function Budget(a: Account, now: int, end: int): int {
    var open := if LockedAt(a, now) then a.lockedUntil.value else now;
    if end < open then 0 else MAX_FAILED * Rounds(end - open) - a.failed
  }

  lemma LaterBudgetIsSmaller(a: Account, now: int, later: int, end: int)
    requires CounterOk(a) && now <= later
    ensures 0 <= Budget(a, later, end) <= Budget(a, now, end)
  {
  }

  /** A wrong PIN costs one of the budget. */
  lemma WrongPinCosts(a: Account, now: int, end: int)
    requires CounterOk(a) && now <= end && Decide(a, now, false).1 == WrongPin
    ensures 1 + Budget(Decide(a, now, false).0, now, end) <= Budget(a, now, end)
  {
    if a.failed + 1 >= MAX_FAILED && end >= now + LOCKOUT {
      assert (end - now) / LOCKOUT == (end - now - LOCKOUT) / LOCKOUT + 1;
    }
  }

  lemma {:induction false} WithinBudget(a: Account, now: int, end: int, attempts: seq<Attempt>)
    requires CounterOk(a) && InWindow(attempts, now, end) && NobodyLoggedIn(a, attempts)
    ensures WrongPins(a, attempts) <= Budget(a, now, end)
    decreases |attempts|
  {
    LaterBudgetIsSmaller(a, now, now, end);
    if |attempts| > 0 {
      var first := attempts[0];
      var a' := Decide(a, first.now, first.right).0;
      LaterBudgetIsSmaller(a, now, first.now, end);
      if Decide(a, first.now, first.right).1 == WrongPin {
        WrongPinCosts(a, first.now, end);
      }
      assert InWindow(attempts[1..], first.now, end);
      CounterStaysInRange(a, [first]);
      assert [first][1..] == [] && After(a, [first]) == a';
      WithinBudget(a', first.now, end, attempts[1..]);
    }
  }

  /** In any window, from any state of the counter: at most five guesses per lockout period begun. */
  lemma BudgetWithinBound(a: Account, start: int, end: int)
    requires CounterOk(a) && start <= end
    ensures Budget(a, start, end) <= MAX_FAILED * ((end - start) / LOCKOUT + 1) - a.failed
  {
    if LockedAt(a, start) && a.lockedUntil.value <= end {
      var u := a.lockedUntil.value;
      assert (end - u) / LOCKOUT <= (end - start) / LOCKOUT;
    }
  }

  lemma LockoutBound(a: Account, start: int, end: int, attempts: seq<Attempt>)
    requires CounterOk(a) && start <= end && InWindow(attempts, start, end) && NobodyLoggedIn(a, attempts)
    ensures WrongPins(a, attempts) <= MAX_FAILED * ((end - start) / LOCKOUT + 1) - a.failed
  {
    WithinBudget(a, start, end, attempts);
    BudgetWithinBound(a, start, end);
  }

  // ---- the bound is reached ------------------------------------------------------------------------------

  /** Five wrong PINs at once, again whenever the lock runs out. */
  function Guessing(start: int, rounds: nat): seq<Attempt>
    decreases rounds
  {
    if rounds == 0 then []
    else
      var wrong := Attempt(start, false);
      [wrong, wrong, wrong, wrong, wrong] + Guessing(start + LOCKOUT, rounds - 1)
  }

  lemma {:induction false} GuessingWindow(start: int, rounds: nat)
    ensures InWindow(Guessing(start, rounds), start, if rounds == 0 then start else start + (rounds - 1) * LOCKOUT)
    decreases rounds
  {
    if rounds > 0 {
      GuessingWindow(start + LOCKOUT, rounds - 1);
    }
  }

  lemma FiveWrong(a: Account, now: int, rest: seq<Attempt>)
    requires a.failed == 0 && !LockedAt(a, now) && now < a.grantExpires
    ensures var wrong := Attempt(now, false);
            var attempts := [wrong, wrong, wrong, wrong, wrong] + rest;
            var a' := a.(lockedUntil := Some(now + LOCKOUT));
            WrongPins(a, attempts) == 5 + WrongPins(a', rest)
            && (NobodyLoggedIn(a', rest) ==> NobodyLoggedIn(a, attempts))
  {
    var w := Attempt(now, false);
    var s5 := [w, w, w, w, w] + rest;
    var s4 := [w, w, w, w] + rest;
    var s3 := [w, w, w] + rest;
    var s2 := [w, w] + rest;
    var s1 := [w] + rest;
    assert s5[1..] == s4 && s4[1..] == s3 && s3[1..] == s2 && s2[1..] == s1 && s1[1..] == rest;
    var a1, a2, a3, a4 := a.(failed := 1), a.(failed := 2), a.(failed := 3), a.(failed := 4);
    assert a.(failed := 0) == a;
    assert WrongPins(a4, s1) == 1 + WrongPins(a.(lockedUntil := Some(now + LOCKOUT)), rest);
    assert WrongPins(a3, s2) == 1 + WrongPins(a4, s1);
    assert WrongPins(a2, s3) == 1 + WrongPins(a3, s2);
    assert WrongPins(a1, s4) == 1 + WrongPins(a2, s3);
    assert NobodyLoggedIn(a.(lockedUntil := Some(now + LOCKOUT)), rest) ==> NobodyLoggedIn(a4, s1);
    assert NobodyLoggedIn(a4, s1) ==> NobodyLoggedIn(a3, s2);
    assert NobodyLoggedIn(a3, s2) ==> NobodyLoggedIn(a2, s3);
    assert NobodyLoggedIn(a2, s3) ==> NobodyLoggedIn(a1, s4);
  }

  /** The bound is tight: for every window length some run of guesses uses it up. */
  lemma {:induction false} LockoutBoundIsReached(a: Account, start: int, rounds: nat)
    requires a.failed == 0 && !LockedAt(a, start) && start + rounds * LOCKOUT <= a.grantExpires
    ensures var attempts := Guessing(start, rounds);
            InWindow(attempts, start, if rounds == 0 then start else start + (rounds - 1) * LOCKOUT)
            && NobodyLoggedIn(a, attempts) && WrongPins(a, attempts) == MAX_FAILED * rounds
    decreases rounds
  {
    GuessingWindow(start, rounds);
    hide InWindow, Decide;
    if rounds > 0 {
      var later := a.(lockedUntil := Some(start + LOCKOUT));
      LockoutBoundIsReached(later, start + LOCKOUT, rounds - 1);
      FiveWrong(a, start, Guessing(start + LOCKOUT, rounds - 1));
    }
  }
}
