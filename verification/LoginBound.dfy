/**
 * No run of logins, at most `m` of them under way at a time, compares more wrong PINs than a number
 * found by giving every state a value that each wrong PIN lowers and no other step raises.
 */
module LoginBound {
  import opened Rounding
  import opened LocalAuth
  import opened LoginProtocol

  // ---- figurate numbers ----------------------------------------------------------------------------------

  /** Binomial (k + j - 1 over j). */
  function Figurate(j: nat, k: nat): nat
    decreases j + k
  {
    if j == 0 then 1 else if k == 0 then 0 else Figurate(j, k - 1) + Figurate(j - 1, k)
  }

  lemma {:induction false} FigurateGrows(j: nat, k: nat, l: nat)
    requires k <= l
    ensures Figurate(j, k) <= Figurate(j, l)
    ensures j > 0 && k < l ==> Figurate(j, k) < Figurate(j, l)
    decreases j + l
  {
    if j > 0 && k < l {
      FigurateGrows(j, k, l - 1);
      FigurateGrows(j - 1, 1, l);
      FigurateAtOne(j - 1);
    }
  }

  lemma {:induction false} FigurateAtOne(j: nat)
    ensures Figurate(j, 1) == 1
  {
    if j > 0 {
      FigurateAtOne(j - 1);
    }
  }

  lemma {:induction false} FigurateOne(k: nat)
    ensures Figurate(1, k) == k
  {
    if k > 0 {
      FigurateOne(k - 1);
    }
  }

  /** How much is used up when so many logins stand at each level or above; the lowest level weighs most. */
  function Load(levels: seq<nat>): nat {
    if |levels| == 0 then 0 else Figurate(|levels|, levels[0]) + Load(levels[1..])
  }

  lemma {:induction false} LoadGrows(a: seq<nat>, b: seq<nat>)
    requires |a| == |b| && forall i | 0 <= i < |a| :: a[i] <= b[i]
    ensures Load(a) <= Load(b)
    ensures (exists i | 0 <= i < |a| :: a[i] < b[i]) ==> Load(a) < Load(b)
  {
    if |a| > 0 {
      FigurateGrows(|a|, a[0], b[0]);
      LoadGrows(a[1..], b[1..]);
      if i :| 0 <= i < |a| && a[i] < b[i] {
        if i > 0 {
          assert a[1..][i - 1] < b[1..][i - 1];
        }
      }
    }
  }

  lemma {:induction false} LoadAtMost(levels: seq<nat>, k: nat)
    requires |levels| > 0 && forall i | 0 <= i < |levels| :: levels[i] <= k
    ensures Load(levels) + 1 + (k - levels[|levels| - 1]) <= Figurate(|levels|, k + 1)
  {
    FigurateGrows(|levels|, levels[0], k);
    if |levels| == 1 {
      FigurateOne(levels[0]);
      FigurateOne(k + 1);
      assert Load(levels[1..]) == 0;
    } else {
      LoadAtMost(levels[1..], k);
    }
  }

  // ---- what is left to be compared -------------------------------------------------------------------------

  /** The level a write puts the counter to; a lock that ends before `end` only resets it. */
  function Level(w: Write, end: int): nat {
    match w
    case Count(failed) => if failed < 0 then 0 else failed
    case Lock(until) => if until < end then 0 else 5
    case Reset => 0
  }

  function LoginsAbove(pending: map<nat, Write>, end: int, level: nat): set<nat> {
    set login | login in pending && Level(pending[login], end) >= level
  }

  /** How many pending writes stand at this level or above. */
  function Above(pending: map<nat, Write>, end: int, level: nat): nat {
    |LoginsAbove(pending, end, level)|
  }

  lemma AboveAdd(pending: map<nat, Write>, login: nat, w: Write, end: int, level: nat)
    requires login !in pending
    ensures Above(pending[login := w], end, level) ==
            Above(pending, end, level) + (if Level(w, end) >= level then 1 else 0)
  {
    assert LoginsAbove(pending[login := w], end, level)
        == LoginsAbove(pending, end, level) + (if Level(w, end) >= level then {login} else {});
  }

  lemma AboveShrinks(pending: map<nat, Write>, end: int, low: nat, high: nat)
    requires low <= high
    ensures Above(pending, end, high) <= Above(pending, end, low) <= |pending|
  {
    SubsetSize(LoginsAbove(pending, end, high), LoginsAbove(pending, end, low));
    SubsetSize(LoginsAbove(pending, end, low), pending.Keys);
  }

  lemma {:induction false} SubsetSize(a: set<nat>, b: set<nat>)
    requires a <= b
    ensures |a| <= |b|
    decreases |a|
  {
    if a != {} {
      var x :| x in a;
      SubsetSize(a - {x}, b - {x});
    }
  }

  /** Locked until the period is over, unless a pending write of an older lock changes that. */
  predicate Dead(a: Account, end: int) {
    a.lockedUntil.Some? && a.lockedUntil.value >= end
  }

  /** Pending writes of each level, every free slot standing where the next read would put it. */
  function Levels(aboves: seq<nat>, free: nat, counter: int): (levels: seq<nat>)
    requires |aboves| == 5
    ensures |levels| == 5
  {
    seq(5, i requires 0 <= i < 5 => aboves[i] + (if counter >= i then free else 0))
  }

  function Aboves(pending: map<nat, Write>, end: int): (aboves: seq<nat>)
    ensures |aboves| == 5
  {
    seq(5, i requires 0 <= i < 5 => Above(pending, end, i + 1))
  }

  /** The slots free at the locks of so many turns, when each waiting old lock takes one. */
  function FreeAt(m: nat, turns: int): int
    decreases turns
  {
    if turns <= 0 then 0 else FreeAt(m, turns - 1) + m - (turns - 1)
  }

  /** The most wrong PINs still to be compared in a period, with `m` logins at a time. */
  function LeftOf(aboves: seq<nat>, waiting: nat, m: nat, counter: int, dead: bool): int
    requires |aboves| == 5 && waiting <= m
  {
    var free, stale := m - waiting, waiting - aboves[0];
    Figurate(5, m + 1) - 1 - m + free - Load(Levels(aboves, free, if dead then 4 else counter))
    + if dead then aboves[4] + FreeAt(m, stale) else FreeAt(m, stale + 1)
  }

  function Left(s: State, m: nat, end: int): int
    requires |s.pending| <= m
  {
    LeftOf(Aboves(s.pending, end), |s.pending|, m, s.account.failed, Dead(s.account, end))
  }

  /** No write of a right PIN is pending. */
  ghost predicate Sound(s: State) {
    CountersOk(s) && forall login | login in s.pending :: !s.pending[login].Reset?
  }

  /** The levels before a write of level `v`, with `a` those of the other pending writes. */
  function BeforeWrite(a: seq<nat>, free: nat, counter: int, v: nat): (levels: seq<nat>)
    ensures |levels| == |a|
  {
    seq(|a|, i requires 0 <= i < |a| => a[i] + (if v > i then 1 else 0) + (if counter >= i then free else 0))
  }

  /** The levels after it. */
  function AfterWrite(a: seq<nat>, free: nat, v: nat): (levels: seq<nat>)
    ensures |levels| == |a|
  {
    seq(|a|, i requires 0 <= i < |a| => a[i] + (if v >= i then free + 1 else 0))
  }

  /** A write frees a slot, but the counter it sets uses up at least as much. */
  lemma {:induction false} WriteUsesUp(a: seq<nat>, free: nat, counter: int, v: nat)
    requires |a| > v && forall i, j | 0 <= i < j < |a| :: a[i] >= a[j]
    ensures Load(BeforeWrite(a, free, counter, v)) < Load(AfterWrite(a, free, v))
  {
    var before, after := BeforeWrite(a, free, counter, v), AfterWrite(a, free, v);
    if v > 0 {
      hide Load, Figurate;
      WriteUsesUp(a[1..], free, counter - 1, v - 1);
      assert before[1..] == BeforeWrite(a[1..], free, counter - 1, v - 1)
             && after[1..] == AfterWrite(a[1..], free, v - 1);
      FigurateGrows(|a|, before[0], after[0]);
      LoadFirst(before);
      LoadFirst(after);
    } else {
      ResetUsesUp(a, free, counter);
    }
  }

  lemma ResetUsesUp(a: seq<nat>, free: nat, counter: int)
    requires |a| > 0 && forall i, j | 0 <= i < j < |a| :: a[i] >= a[j]
    ensures Load(BeforeWrite(a, free, counter, 0)) < Load(AfterWrite(a, free, 0))
  {
    hide Load, Figurate;
    var before, after := BeforeWrite(a, free, counter, 0), AfterWrite(a, free, 0);
    if |a| == 1 || counter < 1 {
      assert before[0] < after[0];
      LoadGrows(before, after);
    } else {
      LoadAtMost(before[1..], a[0] + free);
      LoadFirst(before);
      LoadFirst(after);
      FigurateNext(|a|, a[0] + free);
    }
  }

  lemma LoadFirst(levels: seq<nat>)
    requires |levels| > 0
    ensures Load(levels) == Figurate(|levels|, levels[0]) + Load(levels[1..])
  {
  }

  lemma FigurateNext(j: nat, k: nat)
    requires j > 0
    ensures Figurate(j, k + 1) == Figurate(j, k) + Figurate(j - 1, k + 1)
  {
  }

  // ---- every step pays --------------------------------------------------------------------------------------

  lemma AbovesOrdered(pending: map<nat, Write>, end: int)
    ensures var aboves := Aboves(pending, end);
            aboves[0] <= |pending| && forall i, j | 0 <= i < j < |aboves| :: aboves[i] >= aboves[j]
  {
    var aboves := Aboves(pending, end);
    AboveShrinks(pending, end, 1, 1);
    forall i, j | 0 <= i < j < |aboves| ensures aboves[i] >= aboves[j] {
      AboveShrinks(pending, end, i + 1, j + 1);
    }
  }

  lemma AbovesAdd(pending: map<nat, Write>, login: nat, w: Write, end: int)
    requires login !in pending
    ensures var before, after := Aboves(pending, end), Aboves(pending[login := w], end);
            forall i | 0 <= i < 5 :: after[i] == before[i] + (if Level(w, end) > i then 1 else 0)
    ensures |pending[login := w]| == |pending| + 1
  {
    OneMorePending(pending, login, w);
    hide Above, Level;
    var all := pending[login := w];
    forall i | 0 <= i < 5
      ensures Aboves(all, end)[i] == Aboves(pending, end)[i] + (if Level(w, end) > i then 1 else 0) {
      AboveAdd(pending, login, w, end, i + 1);
    }
  }

  lemma OneMorePending(pending: map<nat, Write>, login: nat, w: Write)
    requires login !in pending
    ensures |pending[login := w]| == |pending| + 1
  {
    assert pending[login := w].Keys == pending.Keys + {login};
  }

  lemma AbovesDrop(pending: map<nat, Write>, login: nat, end: int)
    requires login in pending
    ensures var before, after := Aboves(pending, end), Aboves(pending - {login}, end);
            forall i | 0 <= i < 5 :: before[i] == after[i] + (if Level(pending[login], end) > i then 1 else 0)
    ensures |pending| == |pending - {login}| + 1
  {
    assert (pending - {login})[login := pending[login]] == pending;
    AbovesAdd(pending - {login}, login, pending[login], end);
  }

  /** A wrong PIN read in this period takes one of what is left. */
  lemma ReadPays(s: State, step: Step, m: nat, end: int)
    requires Sound(s) && Guesses(s, step) && |s.pending| <= m && |Next(s, step).pending| <= m
             && end - LOCKOUT <= step.now < end
    ensures Sound(Next(s, step)) && Left(Next(s, step), m, end) == Left(s, m, end) - 1
  {
    ReadAdds(s, step, end);
    var before, after := Aboves(s.pending, end), Aboves(Next(s, step).pending, end);
    hide Load, Aboves, FreeAt, Sound, Guesses;
    assert Levels(after, m - |s.pending| - 1, s.account.failed) == Levels(before, m - |s.pending|, s.account.failed);
  }

  lemma ReadAdds(s: State, step: Step, end: int)
    requires Sound(s) && Guesses(s, step) && end - LOCKOUT <= step.now < end
    ensures var t := Next(s, step);
            var before, after := Aboves(s.pending, end), Aboves(t.pending, end);
            && Sound(t) && t.account == s.account && !Dead(s.account, end) && |t.pending| == |s.pending| + 1
            && before[0] <= |s.pending| && after[0] == before[0] + 1
            && forall i | 0 <= i < 5 :: after[i] == before[i] + (if s.account.failed >= i then 1 else 0)
  {
    var w := WriteFor(s.account, step.now, false).value;
    assert Next(s, step) == s.(pending := s.pending[step.login := w]);
    AbovesAdd(s.pending, step.login, w, end);
    AbovesOrdered(s.pending, end);
    hide Aboves;
    assert Level(w, end) == s.account.failed + 1;
  }

  lemma FreeAtGrows(m: nat, turns: nat)
    requires turns <= m
    ensures FreeAt(m, turns) <= FreeAt(m, turns + 1) == FreeAt(m, turns) + m - turns
  {
  }

  /** A pending write is dropped: this is what it does to the levels. */
  predicate Dropped(before: seq<nat>, after: seq<nat>, v: nat) {
    |before| == |after| == 5 && (forall i | 0 <= i < 5 :: before[i] == after[i] + (if v > i then 1 else 0))
    && forall i, j | 0 <= i < j < 5 :: after[i] >= after[j]
  }

  /** The dropped write set the counter. */
  lemma CounterSet(before: seq<nat>, after: seq<nat>, free: nat, counter: int, v: nat)
    requires Dropped(before, after, v) && v <= 4
    ensures Load(Levels(before, free, counter)) < Load(Levels(after, free + 1, v))
  {
    hide Load;
    assert Levels(before, free, counter) == BeforeWrite(after, free, counter, v);
    assert Levels(after, free + 1, v) == AfterWrite(after, free, v);
    WriteUsesUp(after, free, counter, v);
  }

  /** It did not, as the row is locked. */
  lemma CounterIdle(before: seq<nat>, after: seq<nat>, free: nat, counter: int, v: nat)
    requires Dropped(before, after, v) && v <= 5 && counter <= 4
    ensures Load(Levels(before, free, counter)) <= Load(Levels(after, free + 1, 4))
    ensures v <= 4 ==> Load(Levels(before, free, counter)) < Load(Levels(after, free + 1, 4))
  {
    hide Load;
    assert v <= 4 ==> Levels(before, free, counter)[v] < Levels(after, free + 1, 4)[v];
    LoadGrows(Levels(before, free, counter), Levels(after, free + 1, 4));
  }

  lemma UpdateDrops(s: State, login: nat, m: nat, end: int)
    requires Sound(s) && |s.pending| <= m && login in s.pending
    ensures var t, v := Next(s, Update(login)), Level(s.pending[login], end);
            var before, after := Aboves(s.pending, end), Aboves(t.pending, end);
            && v <= 5 && Dropped(before, after, v) && |t.pending| == |s.pending| - 1
            && before[4] <= before[0] <= |s.pending| && after[0] <= |t.pending|
            && before[0] == after[0] + (if v > 0 then 1 else 0) && before[4] == after[4] + (if v > 4 then 1 else 0)
            && (v <= 4 ==> t.account.failed == v)
            && Dead(t.account, end) == (v == 5 || (Dead(s.account, end) && v != 0))
  {
    AbovesDrop(s.pending, login, end);
    AbovesOrdered(s.pending, end);
    AbovesOrdered(s.pending - {login}, end);
    hide Aboves;
  }

  /** A counter that is set, a lock of this period, which ends the reads, and an old lock, which opens the row again. */
  lemma DropPays(before: seq<nat>, after: seq<nat>, waiting: nat, m: nat, counter: int, dead: bool, v: nat, next: int)
    requires Dropped(before, after, v) && v <= 5 && before[4] <= before[0] <= waiting <= m && waiting > 0
    requires 0 <= counter <= 4 && after[0] <= waiting - 1 && (v <= 4 ==> next == v)
    ensures LeftOf(after, waiting - 1, m, next, v == 5 || (dead && v != 0)) <= LeftOf(before, waiting, m, counter, dead)
  {
    hide Load, FreeAt, Levels, Figurate;
    FreeAtGrows(m, waiting - before[0]);
    if v == 5 || (dead && v != 0) {
      CounterIdle(before, after, m - waiting, if dead then 4 else counter, v);
    } else {
      CounterSet(before, after, m - waiting, if dead then 4 else counter, v);
    }
  }

  lemma UpdatePays(s: State, login: nat, m: nat, end: int)
    requires Sound(s) && |s.pending| <= m && login in s.pending
    ensures Left(Next(s, Update(login)), m, end) <= Left(s, m, end)
  {
    UpdateDrops(s, login, m, end);
    var t, v := Next(s, Update(login)), Level(s.pending[login], end);
    assert 0 <= s.account.failed <= 4;
    hide Aboves, Level, Sound, Next, Dead, Dropped, LeftOf;
    DropPays(Aboves(s.pending, end), Aboves(t.pending, end), |s.pending|, m, s.account.failed, Dead(s.account, end), v,
             t.account.failed);
  }

  lemma StepPays(s: State, step: Step, m: nat, end: int)
    requires Sound(s) && |s.pending| <= m && |Next(s, step).pending| <= m
    requires step.Read? ==> end - LOCKOUT <= step.now < end && OutcomeOf(s, step) != LoggedIn
    ensures Sound(Next(s, step)) && Left(Next(s, step), m, end) + (if Guesses(s, step) then 1 else 0) <= Left(s, m, end)
  {
    if Guesses(s, step) {
      ReadPays(s, step, m, end);
    } else if step.Update? && step.login in s.pending {
      hide Left;
      UpdatePays(s, step.login, m, end);
    } else {
      assert Next(s, step) == s;
    }
  }

  // ---- what a period starts with and leaves ---------------------------------------------------------------

  /** The most wrong PINs in a later period: every slot may hold a lock of an earlier one. */
  function Period(m: nat): int {
    Figurate(5, m + 1) - 1 - m + FreeAt(m, m + 1)
  }

  /** The most wrong PINs in the first period, from this counter. */
  function First(m: nat, counter: int): int {
    Figurate(5, m + 1) - 1 + m - Load(Levels([0, 0, 0, 0, 0], m, counter))
  }

  lemma {:induction false} FreeAtBounds(m: nat, turns: nat)
    requires turns <= m + 1
    ensures 0 <= FreeAt(m, turns) <= FreeAt(m, m + 1) && (turns > 0 ==> FreeAt(m, turns) >= m)
    decreases m + 1 - turns
  {
    FreeAtFrom(m, turns);
    if turns <= m {
      FreeAtBounds(m, turns + 1);
      FreeAtGrows(m, turns);
    }
  }

  lemma {:induction false} FreeAtFrom(m: nat, turns: nat)
    requires turns <= m + 1
    ensures FreeAt(m, turns) >= 0 && (turns > 0 ==> FreeAt(m, turns) >= m)
  {
    if turns > 1 {
      FreeAtFrom(m, turns - 1);
    }
  }

  lemma LoadBounds(aboves: seq<nat>, waiting: nat, m: nat, counter: nat)
    requires |aboves| == 5 && waiting <= m && counter <= 4 && aboves[0] <= waiting
    requires forall i, j | 0 <= i < j < 5 :: aboves[i] >= aboves[j]
    ensures var load := Load(Levels(aboves, m - waiting, counter));
            && load + 1 <= Figurate(5, m + 1) && aboves[0] + m - waiting <= load
            && (counter == 4 ==> load + 1 + (waiting - aboves[4]) <= Figurate(5, m + 1))
  {
    hide Figurate, Load;
    var levels := Levels(aboves, m - waiting, counter);
    LoadAtMost(levels, m);
    LoadFirst(levels);
    FigurateAtLeast(5, levels[0]);
  }

  /** Nothing negative is ever left, and never more than a period brings. */
  lemma LeftOfBounds(aboves: seq<nat>, waiting: nat, m: nat, counter: nat, dead: bool)
    requires |aboves| == 5 && waiting <= m && counter <= 4 && aboves[0] <= waiting
    requires forall i, j | 0 <= i < j < 5 :: aboves[i] >= aboves[j]
    ensures 0 <= LeftOf(aboves, waiting, m, counter, dead) <= Period(m)
  {
    hide Figurate, FreeAt, Load, Levels;
    FreeAtBounds(m, waiting - aboves[0]);
    FreeAtBounds(m, waiting - aboves[0] + 1);
    LoadBounds(aboves, waiting, m, if dead then 4 else counter);
  }

  lemma LeftBounds(s: State, m: nat, end: int)
    requires Sound(s) && |s.pending| <= m
    ensures 0 <= Left(s, m, end) <= Period(m)
  {
    AbovesOrdered(s.pending, end);
    assert 0 <= s.account.failed <= 4;
    hide Aboves, LeftOf, Period, Dead, Sound;
    LeftOfBounds(Aboves(s.pending, end), |s.pending|, m, s.account.failed, Dead(s.account, end));
  }

  lemma {:induction false} FigurateAtLeast(j: nat, k: nat)
    requires j > 0
    ensures Figurate(j, k) >= k
  {
    if k > 0 {
      FigurateAtLeast(j, k - 1);
      FigurateGrows(j, k - 1, k);
    }
  }

  lemma NothingAbove(end: int)
    ensures Aboves(map[], end) == [0, 0, 0, 0, 0]
  {
    forall i | 0 <= i < 5 ensures Aboves(map[], end)[i] == 0 {
      assert LoginsAbove(map[], end, i + 1) == {};
    }
  }

  lemma LeftAtFirst(a: Account, m: nat, end: int)
    requires CounterOk(a)
    ensures Left(State(a, map[]), m, end) <= First(m, a.failed)
  {
    NothingAbove(end);
    assert FreeAt(m, 1) == m && FreeAt(m, 0) == 0;
    hide Aboves, FreeAt, Figurate;
    var zeros := [0, 0, 0, 0, 0];
    LoadAtMost(Levels(zeros, m, a.failed), m);
    LoadGrows(Levels(zeros, m, a.failed), Levels(zeros, m, 4));
  }

  // ---- the bound, for any number at a time -----------------------------------------------------------------

  /** How many further periods begin after `period` ended and no later than `end`. */
  function PeriodsAfter(period: int, end: int): nat {
    if end < period then 0 else (end - period) / LOCKOUT + 1
  }

  lemma OnePeriodLess(period: int, end: int, each: int)
    requires end >= period
    ensures PeriodsAfter(period, end) * each == each + PeriodsAfter(period + LOCKOUT, end) * each
  {
    assert end >= period + LOCKOUT ==> (end - period) / LOCKOUT == (end - period - LOCKOUT) / LOCKOUT + 1;
    Distribute(PeriodsAfter(period + LOCKOUT, end), 1, each);
  }

  lemma {:induction false} WithinLeft(s: State, steps: seq<Step>, m: nat, now: int, period: int, end: int)
    requires Sound(s) && OverlapAtMost(s, steps, m) && NobodyIn(s, steps)
    requires period - LOCKOUT <= now && Within(steps, now, end)
    ensures WrongGuesses(s, steps) <= Left(s, m, period) + PeriodsAfter(period, end) * Period(m)
    decreases |steps|, end - period
  {
    LeftBounds(s, m, period);
    hide Left, Period;
    if |steps| > 0 {
      var step := steps[0];
      if step.Read? && step.now >= period {
        LeftBounds(s, m, period + LOCKOUT);
        WithinLeft(s, steps, m, period, period + LOCKOUT, end);
        OnePeriodLess(period, end, Period(m));
      } else {
        StepPays(s, step, m, period);
        WithinLeft(Next(s, step), steps[1..], m, if step.Read? then step.now else now, period, end);
      }
    } else {
      Product(PeriodsAfter(period, end), Period(m));
    }
  }

  /** How many lockouts fit into a window. */
  function PeriodsIn(start: int, end: int): (n: nat)
    requires start <= end
    ensures n == (end - start) / LOCKOUT
  {
    (end - start) / LOCKOUT
  }

  /** The most wrong PINs in a window, with `m` logins at a time, from this counter. */
  function Most(m: nat, counter: int, start: int, end: int): int
    requires start <= end
  {
    First(m, counter) + PeriodsIn(start, end) * Period(m)
  }

  lemma MostGuesses(a: Account, start: int, end: int, m: nat, steps: seq<Step>)
    requires CounterOk(a) && start <= end && OverlapAtMost(State(a, map[]), steps, m)
    requires Within(steps, start, end) && NobodyIn(State(a, map[]), steps)
    ensures WrongGuesses(State(a, map[]), steps) <= Most(m, a.failed, start, end)
  {
    WithinLeft(State(a, map[]), steps, m, start, start + LOCKOUT, end);
    LeftAtFirst(a, m, start + LOCKOUT);
    hide Left, First, Period, PeriodsAfter, PeriodsIn;
    PeriodsOf(start, end);
  }

  lemma PeriodsOf(start: int, end: int)
    requires start <= end
    ensures PeriodsAfter(start + LOCKOUT, end) == PeriodsIn(start, end)
            && start + PeriodsIn(start, end) * LOCKOUT <= end
  {
    assert end >= start + LOCKOUT ==> (end - start) / LOCKOUT == (end - start - LOCKOUT) / LOCKOUT + 1;
  }
}
