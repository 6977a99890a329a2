/**
 * Logins of one user that overlap: each is a SELECT, a slow comparison and an UPDATE, and nothing
 * joins the two statements. This module says what of the lockout survives any overlap; LoginBound and
 * LoginAttack say how many wrong PINs get compared.
 */
module LoginProtocol {
  import opened LocalAuth

  datatype State = State(account: Account, pending: map<nat, Write>)

  /** A login reads the row and compares the PIN; later it writes what it computed. */
  datatype Step = Read(login: nat, now: int, right: bool) | Update(login: nat)

  function OutcomeOf(s: State, step: Step): Outcome
    requires step.Read?
  {
    Decide(s.account, step.now, step.right).1
  }

  function Next(s: State, step: Step): State {
    match step
    case Read(login, now, right) =>
      var w := WriteFor(s.account, now, right);
      if login in s.pending || w.None? then s else s.(pending := s.pending[login := w.value])
    case Update(login) =>
      if login in s.pending then State(Written(s.account, s.pending[login]), s.pending - {login}) else s
  }

  function Run(s: State, steps: seq<Step>): State
    decreases |steps|
  {
    if |steps| == 0 then s else Run(Next(s, steps[0]), steps[1..])
  }

  predicate Guesses(s: State, step: Step) {
    step.Read? && step.login !in s.pending && OutcomeOf(s, step) == WrongPin
  }

  /** How many wrong PINs a run compares. */
  function WrongGuesses(s: State, steps: seq<Step>): nat
    decreases |steps|
  {
    if |steps| == 0 then 0
    else (if Guesses(s, steps[0]) then 1 else 0) + WrongGuesses(Next(s, steps[0]), steps[1..])
  }

  predicate NobodyIn(s: State, steps: seq<Step>)
    decreases |steps|
  {
    |steps| == 0 || ((steps[0].Read? ==> OutcomeOf(s, steps[0]) != LoggedIn) && NobodyIn(Next(s, steps[0]), steps[1..]))
  }

  /** At no time are more than `m` logins between their SELECT and their UPDATE. */
  predicate OverlapAtMost(s: State, steps: seq<Step>, m: nat)
    decreases |steps|
  {
    |s.pending| <= m && (|steps| == 0 || OverlapAtMost(Next(s, steps[0]), steps[1..], m))
  }

  /** The reads happen in the window, on a clock that does not run backwards. */
  predicate Within(steps: seq<Step>, start: int, end: int) {
    && (forall i | 0 <= i < |steps| && steps[i].Read? :: start <= steps[i].now <= end)
    && (forall i, j | 0 <= i < j < |steps| && steps[i].Read? && steps[j].Read? :: steps[i].now <= steps[j].now)
  }

  // ---- what survives any overlap ----------------------------------------------------------------------

  predicate WriteOk(w: Write) {
    w.Count? ==> 1 <= w.failed < MAX_FAILED
  }

  ghost predicate CountersOk(s: State) {
    CounterOk(s.account) && forall login | login in s.pending :: WriteOk(s.pending[login])
  }

  /** The stored counter stays in 0..4 however logins overlap. */
  lemma {:induction false} CounterSurvivesOverlap(s: State, steps: seq<Step>)
    requires CountersOk(s)
    ensures CountersOk(Run(s, steps))
    decreases |steps|
  {
    if |steps| > 0 {
      CounterSurvivesOverlap(Next(s, steps[0]), steps[1..]);
    }
  }

  lemma {:induction false} FewerOverlap(s: State, steps: seq<Step>, m: nat, n: nat)
    requires OverlapAtMost(s, steps, m) && m <= n
    ensures OverlapAtMost(s, steps, n)
    decreases |steps|
  {
    if |steps| > 0 {
      FewerOverlap(Next(s, steps[0]), steps[1..], m, n);
    }
  }
}
