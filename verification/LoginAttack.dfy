/** A run that compares as many wrong PINs as the bound allows, and what follows for the lockout. */
module LoginAttack {
  import opened Basics
  import opened Rounding
  import opened LocalAuth
  import opened LoginProtocol
  import opened LoginBound

  // ---- the bound is reached --------------------------------------------------------------------------------

  /** The logins below `n` read; their numbers say which slot they use. */
  function Reads(now: int, n: nat): seq<Step> {
    if n == 0 then [] else Reads(now, n - 1) + [Read(n - 1, now, false)]
  }

  /** They write. */
  function Updates(n: nat): seq<Step> {
    if n == 0 then [] else Updates(n - 1) + [Update(n - 1)]
  }

  /**
   * Every slot reads; then they write one after the other, and before the next one writes, the free
   * slots play the same game from the counter this one set.
   */
  function Game(now: int, slots: nat, counter: nat): seq<Step>
    decreases 5 - counter, 1, 0
  {
    if counter >= 4 || slots == 0 then [] else Reads(now, slots) + Turns(now, slots, counter, slots)
  }

  /** The first `n` turns of the game. */
  function Turns(now: int, slots: nat, counter: nat, n: nat): seq<Step>
    requires counter < 4
    decreases 5 - counter, 0, n
  {
    if n == 0 then [] else Turns(now, slots, counter, n - 1) + [Update(n - 1)] + Game(now, n, counter + 1)
  }

  /** An old lock resets the counter; the free slots play, and each ends with a read that will lock. */
  function Revival(now: int, n: nat): seq<Step>
    requires n > 0
  {
    [Update(n - 1)] + Game(now, n, 0) + Reads(now, n)
  }

  /** In a later period every slot holds an old lock; the new locks are written before the next old one. */
  function Later(now: int, n: nat): seq<Step> {
    if n == 0 then [] else Later(now, n - 1) + Updates(n - 1) + Revival(now, n)
  }

  /** The first period, and `periods` later ones. */
  function Storm(start: int, m: nat, periods: nat): seq<Step> {
    if periods == 0 then Game(start, m, 0) + Reads(start, m)
    else Storm(start, m, periods - 1) + Later(start + periods * LOCKOUT, m)
  }

  function Score(slots: nat, counter: nat): nat
    decreases 5 - counter, 1, 0
  {
    if counter >= 4 || slots == 0 then 0 else slots + TurnsScore(counter, slots)
  }

  function TurnsScore(counter: nat, n: nat): nat
    requires counter < 4
    decreases 5 - counter, 0, n
  {
    if n == 0 then 0 else TurnsScore(counter, n - 1) + Score(n, counter + 1)
  }

  function LaterScore(n: nat): nat {
    if n == 0 then 0 else LaterScore(n - 1) + Score(n, 0) + n
  }

  predicate Open(a: Account, now: int) {
    !LockedAt(a, now) && now < a.grantExpires
  }

  /** What a stretch of steps does, in one relation that chains. */
  ghost predicate Stretch(s: State, steps: seq<Step>, t: State, guesses: nat, m: nat, from: int, to: int) {
    && Run(s, steps) == t && WrongGuesses(s, steps) == guesses && NobodyIn(s, steps) && OverlapAtMost(s, steps, m)
    && from <= to && Within(steps, from, to)
  }

  lemma {:induction false} Chain(
    s: State, a: seq<Step>, t: State, g: nat, from: int, mid: int, b: seq<Step>, u: State, h: nat, to: int, m: nat)
    requires Stretch(s, a, t, g, m, from, mid) && Stretch(t, b, u, h, m, mid, to)
    ensures Stretch(s, a + b, u, g + h, m, from, to)
  {
    ChainRuns(s, a, t, g, b, u, h, m);
    forall i | 0 <= i < |a + b| && (a + b)[i].Read? ensures from <= (a + b)[i].now <= to {
      assert (a + b)[i] == if i < |a| then a[i] else b[i - |a|];
    }
    hide Run, WrongGuesses, NobodyIn, OverlapAtMost;
  }

  lemma {:induction false} ChainRuns(s: State, a: seq<Step>, t: State, g: nat, b: seq<Step>, u: State, h: nat, m: nat)
    requires Run(s, a) == t && WrongGuesses(s, a) == g && NobodyIn(s, a) && OverlapAtMost(s, a, m)
    requires Run(t, b) == u && WrongGuesses(t, b) == h && NobodyIn(t, b) && OverlapAtMost(t, b, m)
    ensures Run(s, a + b) == u && WrongGuesses(s, a + b) == g + h && NobodyIn(s, a + b) && OverlapAtMost(s, a + b, m)
    decreases |a|
  {
    if |a| == 0 {
      assert a + b == b;
    } else {
      assert (a + b)[1..] == a[1..] + b;
      ChainRuns(Next(s, a[0]), a[1..], t, g - (if Guesses(s, a[0]) then 1 else 0), b, u, h, m);
    }
  }

  /** The logins under way use the slots below `m`. */
  predicate Slots(pending: map<nat, Write>, m: nat) {
    forall login | login in pending :: login < m
  }

  lemma {:induction false} SlotsAtMost(logins: set<nat>, m: nat)
    requires forall login | login in logins :: login < m
    ensures |logins| <= m
  {
    if m > 0 {
      SlotsAtMost(logins - {m - 1}, m - 1);
    } else {
      assert logins == {};
    }
  }

  lemma Nothing(s: State, m: nat, now: int)
    requires Slots(s.pending, m)
    ensures Stretch(s, [], s, 0, m, now, now)
  {
    SlotsAtMost(s.pending.Keys, m);
    assert |s.pending| == |s.pending.Keys|;
  }

  lemma OneStep(s: State, step: Step, m: nat, now: int)
    requires Slots(s.pending, m) && Slots(Next(s, step).pending, m)
    requires step.Read? ==> step.now == now && OutcomeOf(s, step) != LoggedIn
    ensures Stretch(s, [step], Next(s, step), if Guesses(s, step) then 1 else 0, m, now, now)
  {
    var t := Next(s, step);
    Nothing(t, m, now);
    SlotsAtMost(s.pending.Keys, m);
    assert |s.pending| == |s.pending.Keys|;
    hide Next;
    assert [step][1..] == [];
  }

  function Filled(pending: map<nat, Write>, n: nat, w: Write): map<nat, Write> {
    if n == 0 then pending else Filled(pending, n - 1, w)[n - 1 := w]
  }

  function Without(pending: map<nat, Write>, n: nat): map<nat, Write> {
    map login | login in pending && login >= n :: pending[login]
  }

  lemma {:induction false} FilledOne(pending: map<nat, Write>, n: nat, w: Write, login: nat)
    ensures var all := Filled(pending, n, w);
            && (login in all <==> login < n || login in pending)
            && (login in all ==> all[login] == if login < n then w else pending[login])
  {
    if n > 0 {
      FilledOne(pending, n - 1, w, login);
    }
  }

  lemma FilledAt(pending: map<nat, Write>, n: nat, w: Write)
    ensures var all := Filled(pending, n, w);
            && (forall login: nat :: login in all <==> login < n || login in pending)
            && (forall login: nat | login in all :: all[login] == if login < n then w else pending[login])
  {
    forall login: nat ensures login in Filled(pending, n, w) <==> login < n || login in pending {
      FilledOne(pending, n, w, login);
    }
    forall login: nat | login in Filled(pending, n, w)
      ensures Filled(pending, n, w)[login] == if login < n then w else pending[login]
    {
      FilledOne(pending, n, w, login);
    }
    hide Filled;
  }

  /** All free slots read, and would write the same. */
  lemma {:induction false} ReadsStretch(s: State, now: int, n: nat, m: nat)
    requires Open(s.account, now) && Slots(s.pending, m) && n <= m && forall login | login in s.pending :: login >= n
    ensures Stretch(s, Reads(now, n), s.(pending := Filled(s.pending, n, WriteFor(s.account, now, false).value)), n, m,
                    now, now)
  {
    var w := WriteFor(s.account, now, false).value;
    if n == 0 {
      Nothing(s, m, now);
    } else {
      ReadsStretch(s, now, n - 1, m);
      FilledAt(s.pending, n - 1, w);
      SlotReads(s.(pending := Filled(s.pending, n - 1, w)), now, n, m);
      hide Stretch, Filled, Open;
      Chain(s, Reads(now, n - 1), s.(pending := Filled(s.pending, n - 1, w)), n - 1, now, now,
            [Read(n - 1, now, false)], s.(pending := Filled(s.pending, n - 1, w)[n - 1 := w]), 1, now, m);
      assert Filled(s.pending, n, w) == Filled(s.pending, n - 1, w)[n - 1 := w] by { FilledNext(s.pending, n, w); }
    }
  }

  lemma FilledNext(pending: map<nat, Write>, n: nat, w: Write)
    requires n > 0
    ensures Filled(pending, n, w) == Filled(pending, n - 1, w)[n - 1 := w]
  {
  }

  lemma SlotReads(s: State, now: int, n: nat, m: nat)
    requires Open(s.account, now) && Slots(s.pending, m) && 0 < n <= m && n - 1 !in s.pending
    ensures Stretch(s, [Read(n - 1, now, false)],
                    s.(pending := s.pending[n - 1 := WriteFor(s.account, now, false).value]), 1, m, now, now)
  {
    OneStep(s, Read(n - 1, now, false), m, now);
    hide Stretch;
  }

  /** Pending locks are written, and only they. */
  lemma {:induction false} UpdatesStretch(s: State, now: int, n: nat, m: nat, until: int)
    requires Slots(s.pending, m)
             && forall login: nat | login < n :: login in s.pending && s.pending[login] == Lock(until)
    ensures Stretch(s, Updates(n),
                    State(if n == 0 then s.account else Written(s.account, Lock(until)), Without(s.pending, n)), 0, m,
                      now, now)
  {
    if n == 0 {
      assert Without(s.pending, 0) == s.pending;
      Nothing(s, m, now);
    } else {
      UpdatesStretch(s, now, n - 1, m, until);
      var a := if n == 1 then s.account else Written(s.account, Lock(until));
      LockWritten(a, s.pending, now, n, m, until);
      hide Stretch, Without, Next;
      Chain(s, Updates(n - 1), State(a, Without(s.pending, n - 1)), 0, now, now,
            [Update(n - 1)], State(Written(a, Lock(until)), Without(s.pending, n)), 0, now, m);
    }
  }

  lemma LockWritten(a: Account, pending: map<nat, Write>, now: int, n: nat, m: nat, until: int)
    requires Slots(pending, m) && n > 0 && n - 1 in pending && pending[n - 1] == Lock(until)
    ensures Stretch(State(a, Without(pending, n - 1)), [Update(n - 1)],
                    State(Written(a, Lock(until)), Without(pending, n)), 0, m, now, now)
  {
    var t := State(a, Without(pending, n - 1));
    assert Without(pending, n - 1) - {n - 1} == Without(pending, n);
    assert Next(t, Update(n - 1)) == State(Written(a, Lock(until)), Without(pending, n));
    hide Next, Stretch;
    OneStep(t, Update(n - 1), m, now);
  }

  lemma {:induction false} GameStretch(s: State, now: int, slots: nat, counter: nat, m: nat)
    requires Open(s.account, now) && s.account.failed == counter <= 4 && Slots(s.pending, m) && slots <= m
    requires forall login | login in s.pending :: login >= slots
    ensures var reached := if slots == 0 then counter else 4;
            Stretch(s, Game(now, slots, counter), s.(account := s.account.(failed := reached)), Score(slots, counter),
                    m, now, now)
    decreases 5 - counter, 1, 0
  {
    if counter >= 4 || slots == 0 {
      Nothing(s, m, now);
      assert s.(account := s.account.(failed := counter)) == s;
    } else {
      ReadsStretch(s, now, slots, m);
      var w := Count(counter + 1);
      assert WriteFor(s.account, now, false) == Some(w);
      TurnsStretch(s, now, slots, counter, slots, m);
      FilledAt(s.pending, slots, w);
      assert Without(Filled(s.pending, slots, w), slots) == s.pending;
      hide Stretch, Filled, Open;
      Chain(s, Reads(now, slots), s.(pending := Filled(s.pending, slots, w)), slots, now, now,
            Turns(now, slots, counter, slots), s.(account := s.account.(failed := 4)), TurnsScore(counter, slots), now,
              m);
    }
  }

  /** From all slots waiting with the next counter to `n` of them done. */
  lemma {:induction false} TurnsStretch(s: State, now: int, slots: nat, counter: nat, n: nat, m: nat)
    requires Open(s.account, now) && s.account.failed == counter < 4 && Slots(s.pending, m) && n <= slots <= m
    requires forall login | login in s.pending :: login >= slots
    ensures var all := Filled(s.pending, slots, Count(counter + 1));
            Stretch(s.(pending := all), Turns(now, slots, counter, n),
                    State(if n == 0 then s.account else s.account.(failed := 4), Without(all, n)),
                      TurnsScore(counter, n), m, now, now)
    decreases 5 - counter, 0, n
  {
    var all := Filled(s.pending, slots, Count(counter + 1));
    FilledAt(s.pending, slots, Count(counter + 1));
    hide Filled, Stretch;
    if n == 0 {
      assert Without(all, 0) == all;
      Nothing(s.(pending := all), m, now);
    } else {
      TurnsStretch(s, now, slots, counter, n - 1, m);
      hide Turns, TurnsScore, Without;
      OneMoreTurn(s.(pending := all), s.account, now, slots, counter, n, m);
    }
  }

  lemma OneMoreTurn(s: State, a: Account, now: int, slots: nat, counter: nat, n: nat, m: nat)
    requires Open(a, now) && a.failed == counter < 4 && Slots(s.pending, m) && 0 < n <= slots <= m
    requires n - 1 in s.pending && s.pending[n - 1] == Count(counter + 1)
    requires Stretch(s, Turns(now, slots, counter, n - 1),
                     State(if n == 1 then a else a.(failed := 4), Without(s.pending, n - 1)),
                       TurnsScore(counter, n - 1), m, now, now)
    ensures Stretch(s, Turns(now, slots, counter, n), State(a.(failed := 4), Without(s.pending, n)),
                    TurnsScore(counter, n), m, now, now)
    decreases 5 - counter, 0, n - 1, 1
  {
    hide Stretch, Turns, TurnsScore, Game, Score;
    var b := if n == 1 then a else a.(failed := 4);
    var u := State(a.(failed := counter + 1), Without(s.pending, n));
    CountWritten(b, s.pending, now, n, m, counter + 1);
    GameStretch(u, now, n, counter + 1, m);
    hide Without;
    TurnsChain(s, now, slots, counter, n, m, State(b, Without(s.pending, n - 1)), u);
  }

  lemma CountWritten(a: Account, pending: map<nat, Write>, now: int, n: nat, m: nat, failed: int)
    requires Slots(pending, m) && n > 0 && n - 1 in pending && pending[n - 1] == Count(failed)
    ensures Stretch(State(a, Without(pending, n - 1)), [Update(n - 1)],
                    State(a.(failed := failed), Without(pending, n)), 0, m, now, now)
  {
    var t := State(a, Without(pending, n - 1));
    assert Without(pending, n - 1) - {n - 1} == Without(pending, n);
    assert Next(t, Update(n - 1)) == State(a.(failed := failed), Without(pending, n));
    hide Next, Stretch;
    OneStep(t, Update(n - 1), m, now);
  }

  lemma TurnsChain(s: State, now: int, slots: nat, counter: nat, n: nat, m: nat, t: State, u: State)
    requires counter < 4 && n > 0
    requires Stretch(s, Turns(now, slots, counter, n - 1), t, TurnsScore(counter, n - 1), m, now, now)
    requires Stretch(t, [Update(n - 1)], u, 0, m, now, now)
    requires Stretch(u, Game(now, n, counter + 1), u.(account := u.account.(failed := 4)), Score(n, counter + 1), m,
                     now, now)
    ensures Stretch(s, Turns(now, slots, counter, n), u.(account := u.account.(failed := 4)), TurnsScore(counter, n),
                    m, now, now)
  {
    hide Stretch;
    var turns, before := Turns(now, slots, counter, n - 1), TurnsScore(counter, n - 1);
    Chain(s, turns, t, before, now, now, [Update(n - 1)], u, 0, now, m);
    Chain(s, turns + [Update(n - 1)], u, before, now, now,
          Game(now, n, counter + 1), u.(account := u.account.(failed := 4)), Score(n, counter + 1), now, m);
  }

  lemma LockReads(s: State, now: int, n: nat, m: nat)
    requires Open(s.account, now) && s.account.failed == 4 && Slots(s.pending, m) && n <= m
    requires forall login | login in s.pending :: login >= n
    ensures Stretch(s, Reads(now, n), s.(pending := Filled(s.pending, n, Lock(now + LOCKOUT))), n, m, now, now)
  {
    hide Stretch, Filled, Reads;
    ReadsStretch(s, now, n, m);
  }

  /** A game on the free slots, and a read that will lock on each of them. */
  lemma GameAndLocks(s: State, now: int, n: nat, m: nat)
    requires Open(s.account, now) && s.account.failed == 0 && Slots(s.pending, m) && 0 < n <= m
    requires forall login | login in s.pending :: login >= n
    ensures Stretch(s, Game(now, n, 0) + Reads(now, n),
                    State(s.account.(failed := 4), Filled(s.pending, n, Lock(now + LOCKOUT))), Score(n, 0) + n, m, now,
                      now)
  {
    hide Stretch, Filled, Reads, Game, Score;
    var t := s.(account := s.account.(failed := 4));
    GameStretch(s, now, n, 0, m);
    LockReads(t, now, n, m);
    Chain(s, Game(now, n, 0), t, Score(n, 0), now, now,
          Reads(now, n), t.(pending := Filled(s.pending, n, Lock(now + LOCKOUT))), n, now, m);
  }

  /** The slots below `n` hold a lock of this period, the others one of an earlier period. */
  function Locks(m: nat, n: nat, until: int, past: int): map<nat, Write> {
    Filled(Filled(map[], m, Lock(past)), n, Lock(until))
  }

  lemma LockOf(m: nat, n: nat, until: int, past: int, login: nat)
    requires n <= m
    ensures var pending := Locks(m, n, until, past);
            && (login in pending <==> login < m)
            && (login in pending ==> pending[login] == Lock(if login < n then until else past))
  {
    FilledOne(map[], m, Lock(past), login);
    FilledOne(Filled(map[], m, Lock(past)), n, Lock(until), login);
    hide Filled;
  }

  lemma LocksAt(m: nat, n: nat, until: int, past: int)
    requires n <= m
    ensures var pending := Locks(m, n, until, past);
            && (forall login: nat :: login in pending <==> login < m)
            && (forall login: nat | login in pending :: pending[login] == Lock(if login < n then until else past))
  {
    hide Locks;
    forall login: nat ensures login in Locks(m, n, until, past) <==> login < m {
      LockOf(m, n, until, past, login);
    }
    forall login: nat | login in Locks(m, n, until, past)
      ensures Locks(m, n, until, past)[login] == Lock(if login < n then until else past)
    {
      LockOf(m, n, until, past, login);
    }
  }

  lemma AllLocked(m: nat, until: int, past: int)
    ensures Locks(m, m, until, past) == Filled(map[], m, Lock(until))
  {
    LocksAt(m, m, until, past);
    FilledAt(map[], m, Lock(until));
    hide Locks, Filled;
    assert Locks(m, m, until, past).Keys == Filled(map[], m, Lock(until)).Keys;
  }

  /** The old lock of slot `n - 1` is written while the slots below are free. */
  lemma RevivalStretch(s: State, now: int, n: nat, m: nat, past: int)
    requires 0 < n <= m && past <= now < s.account.grantExpires
    requires s.pending == Without(Locks(m, n - 1, now + LOCKOUT, past), n - 1)
    ensures Stretch(s, Revival(now, n),
                    State(s.account.(failed := 4, lockedUntil := Some(past)), Locks(m, n, now + LOCKOUT, past)),
                    Score(n, 0) + n, m, now, now)
  {
    LocksAt(m, n - 1, now + LOCKOUT, past);
    LocksAt(m, n, now + LOCKOUT, past);
    var t := State(Written(s.account, Lock(past)), s.pending - {n - 1});
    assert Next(s, Update(n - 1)) == t;
    hide Locks;
    OneStep(s, Update(n - 1), m, now);
    GameAndLocks(t, now, n, m);
    FilledAt(t.pending, n, Lock(now + LOCKOUT));
    hide Filled, Stretch, Game, Reads;
    var u := State(s.account.(failed := 4, lockedUntil := Some(past)), Filled(t.pending, n, Lock(now + LOCKOUT)));
    assert u.pending == Locks(m, n, now + LOCKOUT, past);
    Chain(s, [Update(n - 1)], t, 0, now, now, Game(now, n, 0) + Reads(now, n), u, Score(n, 0) + n, now, m);
    assert Revival(now, n) == [Update(n - 1)] + (Game(now, n, 0) + Reads(now, n));
  }

  lemma {:induction false} LaterStretch(a: Account, now: int, n: nat, m: nat, past: int) returns (b: Account)
    requires n <= m && past <= now < a.grantExpires
    ensures Stretch(State(a, Locks(m, 0, now + LOCKOUT, past)), Later(now, n),
                    State(b, Locks(m, n, now + LOCKOUT, past)), LaterScore(n), m, now, now)
    ensures b.grantExpires == a.grantExpires
  {
    LocksAt(m, n, now + LOCKOUT, past);
    if n == 0 {
      b := a;
      Nothing(State(a, Locks(m, 0, now + LOCKOUT, past)), m, now);
    } else {
      var c := LaterStretch(a, now, n - 1, m, past);
      b := OneMoreRevival(State(a, Locks(m, 0, now + LOCKOUT, past)), c, now, n, m, past);
    }
  }

  lemma OneMoreRevival(s: State, c: Account, now: int, n: nat, m: nat, past: int) returns (b: Account)
    requires 0 < n <= m && past <= now < c.grantExpires
    requires Stretch(s, Later(now, n - 1), State(c, Locks(m, n - 1, now + LOCKOUT, past)), LaterScore(n - 1), m, now,
                     now)
    ensures Stretch(s, Later(now, n), State(b, Locks(m, n, now + LOCKOUT, past)), LaterScore(n), m, now, now)
    ensures b.grantExpires == c.grantExpires
  {
    hide Locks, Stretch, Without, Updates, Revival, Score, Within;
    var t := State(c, Locks(m, n - 1, now + LOCKOUT, past));
    var u := NewLocksWritten(c, now, n, m, past);
    RevivalStretch(u, now, n, m, past);
    b := u.account.(failed := 4, lockedUntil := Some(past));
    Chain(s, Later(now, n - 1), t, LaterScore(n - 1), now, now, Updates(n - 1), u, 0, now, m);
    Chain(s, Later(now, n - 1) + Updates(n - 1), u, LaterScore(n - 1), now, now,
          Revival(now, n), State(b, Locks(m, n, now + LOCKOUT, past)), Score(n, 0) + n, now, m);
  }

  lemma NewLocksWritten(c: Account, now: int, n: nat, m: nat, past: int) returns (u: State)
    requires 0 < n <= m
    ensures Stretch(State(c, Locks(m, n - 1, now + LOCKOUT, past)), Updates(n - 1), u, 0, m, now, now)
    ensures u.pending == Without(Locks(m, n - 1, now + LOCKOUT, past), n - 1)
            && u.account.grantExpires == c.grantExpires
  {
    LocksAt(m, n - 1, now + LOCKOUT, past);
    hide Locks, Stretch, Without;
    var pending := Locks(m, n - 1, now + LOCKOUT, past);
    u := State(if n == 1 then c else Written(c, Lock(now + LOCKOUT)), Without(pending, n - 1));
    UpdatesStretch(State(c, pending), now, n - 1, m, now + LOCKOUT);
  }

  /** After `periods` further periods every slot holds a lock of the last one. */
  lemma {:induction false} StormStretch(a: Account, start: int, m: nat, periods: nat) returns (b: Account)
    requires a.failed == 0 && Open(a, start) && start + periods * LOCKOUT < a.grantExpires && m > 0
    ensures Stretch(State(a, map[]), Storm(start, m, periods),
                    State(b, Filled(map[], m, Lock(start + periods * LOCKOUT + LOCKOUT))),
                    Score(m, 0) + m + periods * LaterScore(m), m, start, start + periods * LOCKOUT)
    ensures b.grantExpires == a.grantExpires
  {
    hide Stretch, Later, LaterScore, Game, Reads, Score, Locks, Filled;
    if periods == 0 {
      GameAndLocks(State(a, map[]), start, m, m);
      b := a.(failed := 4);
    } else {
      var before, scored := start + (periods - 1) * LOCKOUT, Score(m, 0) + m + (periods - 1) * LaterScore(m);
      var c := StormStretch(a, start, m, periods - 1);
      b := PeriodFollows(State(a, map[]), Storm(start, m, periods - 1), scored, c, start, before, before + LOCKOUT, m);
      Distribute(periods - 1, 1, LaterScore(m));
    }
  }

  lemma PeriodFollows(s: State, steps: seq<Step>, scored: nat, c: Account, start: int, before: int, now: int, m: nat)
    returns (b: Account)
    requires now == before + LOCKOUT && now < c.grantExpires
    requires Stretch(s, steps, State(c, Filled(map[], m, Lock(now))), scored, m, start, before)
    ensures Stretch(s, steps + Later(now, m), State(b, Filled(map[], m, Lock(now + LOCKOUT))), scored + LaterScore(m),
                    m, start, now)
    ensures b.grantExpires == c.grantExpires
  {
    hide Stretch, Filled, Later, LaterScore;
    b := LaterStretch(c, now, m, m, now);
    AllLocked(m, now + LOCKOUT, now);
    NoneLocked(m, now + LOCKOUT, now);
    var t := State(c, Filled(map[], m, Lock(now)));
    WaitUntil(s, steps, t, scored, m, start, before, now);
    Chain(s, steps, t, scored, start, now, Later(now, m), State(b, Filled(map[], m, Lock(now + LOCKOUT))),
          LaterScore(m), now, m);
  }

  lemma NoneLocked(m: nat, until: int, past: int)
    ensures Locks(m, 0, until, past) == Filled(map[], m, Lock(past))
  {
  }

  lemma WaitUntil(s: State, steps: seq<Step>, t: State, guesses: nat, m: nat, from: int, to: int, later: int)
    requires Stretch(s, steps, t, guesses, m, from, to) && to <= later
    ensures Stretch(s, steps, t, guesses, m, from, later)
  {
  }

  // ---- in numbers -------------------------------------------------------------------------------------------

  lemma {:induction false} ScoreIs(slots: nat, counter: nat)
    requires counter <= 4
    ensures Score(slots, counter) == Figurate(4 - counter, slots + 1) - 1
    decreases 5 - counter, 1, 0
  {
    if counter < 4 {
      TurnsScoreIs(counter, slots);
      FigurateAtOne(4 - counter);
    }
  }

  lemma {:induction false} TurnsScoreIs(counter: nat, n: nat)
    requires counter < 4
    ensures TurnsScore(counter, n) == Figurate(4 - counter, n + 1) - 1 - n
    decreases 5 - counter, 0, n
  {
    if n == 0 {
      FigurateAtOne(4 - counter);
    } else {
      TurnsScoreIs(counter, n - 1);
      ScoreIs(n, counter + 1);
      FigurateNext(4 - counter, n);
    }
  }

  lemma {:induction false} FreeAtIs(m: nat, turns: nat)
    ensures 2 * FreeAt(m, turns) == turns * (2 * m + 1 - turns)
  {
    if turns > 0 {
      FreeAtIs(m, turns - 1);
      assert turns * (2 * m + 1 - turns) == (turns - 1) * (2 * m + 1 - (turns - 1)) + 2 * (m - (turns - 1));
    }
  }

  lemma FreeAtNext(n: nat)
    requires n > 0
    ensures FreeAt(n, n + 1) == FreeAt(n - 1, n) + n
  {
    hide FreeAt;
    FreeAtIs(n, n + 1);
    FreeAtIs(n - 1, n);
    assert (n + 1) * (2 * n + 1 - (n + 1)) == n * (2 * (n - 1) + 1 - n) + 2 * n;
  }

  lemma PeriodOfNone()
    ensures Period(0) == 0
  {
    FigurateAtOne(5);
    assert FreeAt(0, 1) == 0;
  }

  lemma PeriodNext(n: nat)
    requires n > 0
    ensures Period(n) == Period(n - 1) + Figurate(4, n + 1) - 1 + n
  {
    hide FreeAt, Figurate;
    FreeAtNext(n);
    FigurateNext(5, n);
  }

  lemma {:induction false} LaterScoreIs(n: nat)
    ensures LaterScore(n) == Period(n)
  {
    hide Period, Score, Figurate;
    if n == 0 {
      PeriodOfNone();
    } else {
      LaterScoreIs(n - 1);
      ScoreIs(n, 0);
      PeriodNext(n);
    }
  }

  lemma FirstIs(m: nat)
    ensures First(m, 0) == Score(m, 0) + m
  {
    ScoreIs(m, 0);
    FigurateNext(5, m);
    var levels := Levels([0, 0, 0, 0, 0], m, 0);
    assert levels == [m, 0, 0, 0, 0];
    assert levels[1..] == [0, 0, 0, 0] && levels[1..][1..] == [0, 0, 0] && levels[1..][1..][1..] == [0, 0];
    hide Figurate, Score;
    LoadZeros(levels[1..]);
    LoadFirst(levels);
  }

  lemma {:induction false} LoadZeros(levels: seq<nat>)
    requires forall i | 0 <= i < |levels| :: levels[i] == 0
    ensures Load(levels) == 0
  {
    if |levels| > 0 {
      LoadZeros(levels[1..]);
    }
  }

  /** The largest numbers for one, two and three logins at a time, by the lockout periods begun after the first. */
  lemma MostInNumbers(start: int, end: int)
    requires start <= end
    ensures var periods := PeriodsIn(start, end);
            && Most(1, 0, start, end) == 5 + 5 * periods
            && Most(2, 0, start, end) == 16 + 21 * periods
            && Most(3, 0, start, end) == 37 + 58 * periods
  {
    hide First, Period, PeriodsIn;
    PeriodInNumbers();
    FirstInNumbers();
  }

  lemma FirstInNumbers()
    ensures First(1, 0) == 5 && First(2, 0) == 16 && First(3, 0) == 37
  {
    hide Figurate, First, Score;
    FiguratesUpToFour();
    FirstIs(1);
    FirstIs(2);
    FirstIs(3);
    ScoreIs(1, 0);
    ScoreIs(2, 0);
    ScoreIs(3, 0);
  }

  lemma PeriodInNumbers()
    ensures Period(1) == 5 && Period(2) == 21 && Period(3) == 58
  {
    hide Figurate, FreeAt;
    FiguratesUpToFour();
    FreeAtIs(1, 2);
    FreeAtIs(2, 3);
    FreeAtIs(3, 4);
  }

  lemma FiguratesUpToFour()
    ensures Figurate(4, 2) == 5 && Figurate(4, 3) == 15 && Figurate(4, 4) == 35
    ensures Figurate(5, 2) == 6 && Figurate(5, 3) == 21 && Figurate(5, 4) == 56
  {
    assert Figurate(2, 2) == 3 && Figurate(2, 3) == 6 && Figurate(2, 4) == 10;
    assert Figurate(3, 2) == 4 && Figurate(3, 3) == 10 && Figurate(3, 4) == 20;
    assert Figurate(4, 2) == 5 && Figurate(4, 3) == 15 && Figurate(4, 4) == 35;
  }

  // ---- the theorems -----------------------------------------------------------------------------------------

  /** A run of logins on one user in a window, at most `m` at a time, none of which gets in. */
  ghost predicate Attack(a: Account, start: int, end: int, m: nat, steps: seq<Step>) {
    OverlapAtMost(State(a, map[]), steps, m) && Within(steps, start, end) && NobodyIn(State(a, map[]), steps)
  }

  /**
   * The largest number of wrong PINs that get compared: no run of at most `m` logins at a time gets
   * more, from any counter, and from zero some run gets as many.
   */
  lemma LargestNumberOfGuesses(a: Account, start: int, end: int, m: nat)
    requires CounterOk(a) && start <= end
    ensures forall steps | Attack(a, start, end, m, steps) ::
            WrongGuesses(State(a, map[]), steps) <= Most(m, a.failed, start, end)
    ensures a.failed == 0 && !LockedAt(a, start) && end < a.grantExpires ==>
              exists steps :: Attack(a, start, end, m, steps)
                && WrongGuesses(State(a, map[]), steps) == Most(m, 0, start, end)
  {
    forall steps | Attack(a, start, end, m, steps)
      ensures WrongGuesses(State(a, map[]), steps) <= Most(m, a.failed, start, end) {
      MostGuesses(a, start, end, m, steps);
    }
    if a.failed == 0 && !LockedAt(a, start) && end < a.grantExpires {
      var steps := MostIsReached(a, start, end, m);
    }
    hide WrongGuesses, Most, Attack;
  }

  lemma MostIsReached(a: Account, start: int, end: int, m: nat) returns (steps: seq<Step>)
    requires start <= end && a.failed == 0 && !LockedAt(a, start) && end < a.grantExpires
    ensures Attack(a, start, end, m, steps) && WrongGuesses(State(a, map[]), steps) == Most(m, 0, start, end)
  {
    hide Attack, First, Period, Score, LaterScore, PeriodsIn, WrongGuesses, Storm;
    PeriodsOf(start, end);
    FirstIs(m);
    LaterScoreIs(m);
    if m == 0 {
      steps := NoAttack(a, start, end);
    } else {
      steps := StormIsAttack(a, start, end, m, PeriodsIn(start, end));
    }
  }

  lemma NoAttack(a: Account, start: int, end: int) returns (steps: seq<Step>)
    requires start <= end
    ensures Attack(a, start, end, 0, steps) && WrongGuesses(State(a, map[]), steps) == 0 == Score(0, 0) == LaterScore(0)
  {
    steps := [];
    Nothing(State(a, map[]), 0, start);
    NoScore();
    hide Stretch, Attack;
    StretchIsAttack(a, steps, State(a, map[]), 0, 0, start, start, end);
  }

  lemma StormIsAttack(a: Account, start: int, end: int, m: nat, periods: nat) returns (steps: seq<Step>)
    requires a.failed == 0 && !LockedAt(a, start) && start + periods * LOCKOUT <= end < a.grantExpires && m > 0
    ensures Attack(a, start, end, m, steps)
            && WrongGuesses(State(a, map[]), steps) == Score(m, 0) + m + periods * LaterScore(m)
  {
    Product(periods, LOCKOUT);
    assert Open(a, start);
    hide Stretch, Attack, Storm, Filled, Score, LaterScore, Open;
    steps := Storm(start, m, periods);
    var b := StormStretch(a, start, m, periods);
    var t := State(b, Filled(map[], m, Lock(start + periods * LOCKOUT + LOCKOUT)));
    StretchIsAttack(a, steps, t, Score(m, 0) + m + periods * LaterScore(m), m, start, start + periods * LOCKOUT, end);
  }

  lemma NoScore()
    ensures Score(0, 0) == 0 && LaterScore(0) == 0
  {
  }

  lemma StretchIsAttack(a: Account, steps: seq<Step>, t: State, guesses: nat, m: nat, start: int, to: int, end: int)
    requires Stretch(State(a, map[]), steps, t, guesses, m, start, to) && to <= end
    ensures Attack(a, start, end, m, steps) && WrongGuesses(State(a, map[]), steps) == guesses
  {
    hide WrongGuesses, NobodyIn, OverlapAtMost, Run;
  }

  /** One login at a time keeps the lockout bound. */
  lemma BoundOneAtATime(a: Account, start: int, end: int, steps: seq<Step>)
    requires CounterOk(a) && start <= end && Attack(a, start, end, 1, steps)
    ensures WrongGuesses(State(a, map[]), steps) <= MAX_FAILED * ((end - start) / LOCKOUT + 1) - a.failed
  {
    hide First, Period, PeriodsIn, WrongGuesses;
    MostGuesses(a, start, end, 1, steps);
    PeriodInNumbers();
    FirstOfOne(a.failed);
  }

  lemma FirstOfOne(counter: int)
    requires 0 <= counter <= 4
    ensures First(1, counter) == 5 - counter
  {
    hide Figurate, Load;
    FiguratesUpToFour();
    OnesLoad(Levels([0, 0, 0, 0, 0], 1, counter), counter + 1);
  }

  lemma {:induction false} OnesLoad(levels: seq<nat>, n: nat)
    requires n <= |levels| && forall i | 0 <= i < |levels| :: levels[i] == if i < n then 1 else 0
    ensures Load(levels) == n
  {
    if n == 0 {
      LoadZeros(levels);
    } else {
      FigurateAtOne(|levels|);
      OnesLoad(levels[1..], n - 1);
    }
  }

  /** Two overlapping logins suffice for sixteen guesses at one instant, where the bound is five. */
  lemma OverlapBreaksTheBound(a: Account, now: int)
    requires a.failed == 0 && Open(a, now)
    ensures exists steps :: Attack(a, now, now, 2, steps) && WrongGuesses(State(a, map[]), steps) == 16
  {
    MostInNumbers(now, now);
    var steps := MostIsReached(a, now, now, 2);
    hide Attack, WrongGuesses;
  }

  /** The lockout bound for every row, window and run with at most `m` logins at a time. */
  ghost predicate BoundHolds(m: nat) {
    forall a, start, end, steps | CounterOk(a) && start <= end && Attack(a, start, end, m, steps) ::
      WrongGuesses(State(a, map[]), steps) <= MAX_FAILED * ((end - start) / LOCKOUT + 1) - a.failed
  }

  /** The bound holds if and only if no login reads between another's SELECT and UPDATE. */
  lemma BoundHoldsExactlyWithoutOverlap(m: nat)
    ensures BoundHolds(m) <==> m <= 1
  {
    if m <= 1 {
      forall a, start, end, steps | CounterOk(a) && start <= end && Attack(a, start, end, m, steps)
        ensures WrongGuesses(State(a, map[]), steps) <= MAX_FAILED * ((end - start) / LOCKOUT + 1) - a.failed
      {
        FewerOverlap(State(a, map[]), steps, m, 1);
        BoundOneAtATime(a, start, end, steps);
      }
    } else {
      var a := Account(true, [], [], 1, 0, None, 1);
      OverlapBreaksTheBound(a, 0);
      var steps :| Attack(a, 0, 0, 2, steps) && WrongGuesses(State(a, map[]), steps) == 16;
      FewerOverlap(State(a, map[]), steps, 2, m);
      assert Attack(a, 0, 0, m, steps);
      assert WrongGuesses(State(a, map[]), steps) > MAX_FAILED * ((0 - 0) / LOCKOUT + 1) - a.failed;
    }
  }

  /** Any number of logins that read before the first one writes compare that many PINs, and count as one. */
  lemma AnyNumberTogether(a: Account, now: int, n: nat)
    requires a.failed == 0 && Open(a, now) && n > 0
    ensures var s, steps := State(a, map[]), Reads(now, n) + Updates(n);
            WrongGuesses(s, steps) == n && Run(s, steps).account == a.(failed := 1)
  {
    var s, t := State(a, map[]), State(a, Filled(map[], n, Count(1)));
    ReadsStretch(s, now, n, n);
    assert WriteFor(a, now, false) == Some(Count(1));
    CountsStretch(t, now, n, n);
    hide Filled, Reads, Updates;
    Chain(s, Reads(now, n), t, n, now, now, Updates(n), Run(t, Updates(n)), 0, now, n);
  }

  lemma {:induction false} CountsStretch(s: State, now: int, n: nat, m: nat)
    requires n <= m && s.pending == Filled(map[], m, Count(1))
    ensures Stretch(s, Updates(n), State(if n == 0 then s.account else s.account.(failed := 1), Without(s.pending, n)),
                    0, m, now, now)
  {
    FilledAt(map[], m, Count(1));
    hide Filled;
    if n == 0 {
      assert Without(s.pending, 0) == s.pending;
      Nothing(s, m, now);
    } else {
      CountsStretch(s, now, n - 1, m);
      var a := if n == 1 then s.account else s.account.(failed := 1);
      CountWritten(a, s.pending, now, n, m, 1);
      hide Stretch, Without, Next;
      Chain(s, Updates(n - 1), State(a, Without(s.pending, n - 1)), 0, now, now,
            [Update(n - 1)], State(s.account.(failed := 1), Without(s.pending, n)), 0, now, m);
    }
  }
}
