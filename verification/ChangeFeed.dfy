/**
 * Pulling Central's change feed. The cursor is saved only after a whole page, every message is
 * its own transaction, and the process may stop between any two of these.
 */
module ChangeFeed {
  import opened Basics
  import opened Inbox

  const SUPPORTED_SCHEMA: int := 1

  /** What one change of a page does; a schema the till does not know stops the page. */
  function Take(s: State, m: Message): Result<State, Error> {
    if m.schemaVersion > SUPPORTED_SCHEMA then Err(UnsupportedSchema) else Receive(s, m)
  }

  /** Applying changes in order; None once one of them fails. */
  function TakeAll(s: State, changes: seq<Message>): Option<State> {
    if |changes| == 0 then Some(s)
    else
      var before := TakeAll(s, changes[..|changes| - 1]);
      if before.None? then None
      else
        var r := Take(before.value, changes[|changes| - 1]);
        if r.Ok? then Some(r.value) else None
  }

  datatype Page = Page(cursor: string, hasMore: bool, changes: seq<Message>)

  /** The till's answer from the network: nothing usable, or a page. */
  datatype Answer = NoAnswer | Answered(page: Page)

  datatype Till = Till(inbox: State, cursor: string)

  /** Changes of a page until one fails or the process stops after `budget` of them. */
  function Partial(s: State, changes: seq<Message>, k: nat, budget: nat): (State, bool)
    requires k <= |changes|
    decreases |changes| - k
  {
    if k == |changes| then (s, true)
    else if budget == 0 then (s, false)
    else
      var r := Take(s, changes[k]);
      if r.Err? then (s, false) else Partial(r.value, changes, k + 1, budget - 1)
  }

  /** pullOnce; `budget` messages are applied before a crash, and `saves` says if the cursor is still saved. */
  function Pull(t: Till, answer: Answer, budget: nat, saves: bool): Till {
    if answer.NoAnswer? then t
    else
      var page := answer.page;
      var r := Partial(t.inbox, page.changes, 0, budget);
      Till(r.0, if r.1 && saves && page.cursor != "" then page.cursor else t.cursor)
  }

  // ---- Central's side ------------------------------------------------------------------------------------

  /** Central's feed is a log; a cursor names a position of it and a page is the stretch that follows. */
  predicate Serves(log: seq<Message>, position: string -> nat, cursor: string, answer: Answer) {
    answer.Answered? ==>
      var page, from := answer.page, position(cursor);
      && from + |page.changes| <= |log| && page.changes == log[from..from + |page.changes|]
      && (page.cursor != "" ==> position(page.cursor) == from + |page.changes|)
  }

  /** One pull: the log as it is then, what Central answers, and where the process stops. */
  datatype Attempt = Attempt(log: seq<Message>, answer: Answer, budget: nat, saves: bool)

  function Pulls(t: Till, attempts: seq<Attempt>): Till {
    if |attempts| == 0 then t
    else
      var a := attempts[|attempts| - 1];
      Pull(Pulls(t, attempts[..|attempts| - 1]), a.answer, a.budget, a.saves)
  }

  /** The log only grows, and every answer is served from it. */
  predicate Served(t: Till, attempts: seq<Attempt>, position: string -> nat) {
    |attempts| == 0
    || (var front, last := attempts[..|attempts| - 1], attempts[|attempts| - 1];
        && Served(t, front, position)
        && (|front| > 0 ==> front[|front| - 1].log <= last.log)
        && Serves(last.log, position, Pulls(t, front).cursor, last.answer))
  }

  // ---- repeating what is already applied -----------------------------------------------------------------

  predicate Settled(s: State, m: Message) {
    m.schemaVersion <= SUPPORTED_SCHEMA && Readable(m) && Applied(s, m.id)
  }

  lemma {:induction false} AllSettled(s: State, changes: seq<Message>)
    requires TakeAll(s, changes).Some?
    ensures forall i | 0 <= i < |changes| :: Settled(TakeAll(s, changes).value, changes[i])
    ensures forall id | Applied(s, id) :: Applied(TakeAll(s, changes).value, id)
  {
    if |changes| > 0 {
      var front, last := changes[..|changes| - 1], changes[|changes| - 1];
      AllSettled(s, front);
      var before := TakeAll(s, front).value;
      VersionsNeverFall(before, last);
      hide Receive;
      forall i | 0 <= i < |changes| ensures Settled(TakeAll(s, changes).value, changes[i]) {
        assert i < |front| ==> changes[i] == front[i];
        assert Readable(last) by { ReadableIfTaken(before, last); }
      }
    }
  }

  lemma ReadableIfTaken(s: State, m: Message)
    requires Receive(s, m).Ok?
    ensures Readable(m)
  {
  }

  lemma SettledIsSkipped(s: State, m: Message)
    requires Settled(s, m)
    ensures Take(s, m) == Ok(s)
  {
  }

  lemma TakeNext(s: State, log: seq<Message>, m: nat)
    requires m < |log| && TakeAll(s, log[..m]).Some?
    ensures var before := TakeAll(s, log[..m]).value;
            TakeAll(s, log[..m + 1]) == if Take(before, log[m]).Ok? then Some(Take(before, log[m]).value) else None
  {
    assert log[..m + 1][..m] == log[..m];
  }

  /** A crash lost nothing and repeated nothing: the till is where an uninterrupted reader of the log would be. */
  ghost predicate AtPoint(start: State, log: seq<Message>, s: State, m: nat) {
    m <= |log| && TakeAll(start, log[..m]) == Some(s)
  }

  /** Applying a stretch of the log again skips what was applied and continues after it. */
  lemma {:induction false} PartialContinues(start: State, log: seq<Message>, s: State, m: nat, from: nat,
      changes: seq<Message>, k: nat, budget: nat) returns (m': nat)
    requires AtPoint(start, log, s, m) && from + k <= m
    requires k <= |changes| && from + |changes| <= |log| && changes == log[from..from + |changes|]
    ensures AtPoint(start, log, Partial(s, changes, k, budget).0, m') && m <= m'
    ensures Partial(s, changes, k, budget).1 ==> from + |changes| <= m'
    decreases |changes| - k
  {
    hide Take, TakeAll;
    if k == |changes| || budget == 0 {
      m' := m;
    } else {
      assert changes[k] == log[from + k];
      if from + k < m {
        AllSettled(start, log[..m]);
        assert log[..m][from + k] == changes[k];
        SettledIsSkipped(s, changes[k]);
        m' := PartialContinues(start, log, s, m, from, changes, k + 1, budget - 1);
      } else {
        TakeNext(start, log, m);
        var r := Take(s, changes[k]);
        if r.Err? {
          m' := m;
        } else {
          m' := PartialContinues(start, log, r.value, m + 1, from, changes, k + 1, budget - 1);
        }
      }
    }
  }

  lemma LogGrows(start: State, log: seq<Message>, log': seq<Message>, s: State, m: nat)
    requires AtPoint(start, log, s, m) && log <= log'
    ensures AtPoint(start, log', s, m)
  {
    assert log'[..m] == log[..m];
  }

  function LastLog(attempts: seq<Attempt>): seq<Message> {
    if |attempts| == 0 then [] else attempts[|attempts| - 1].log
  }

  /**
   * Crash safety over every schedule of pulls, crashes and network failures: the till holds exactly
   * what one uninterrupted reader of the log would hold after some number of messages, and that
   * number is never behind the saved cursor.
   */
  lemma {:induction false} CrashSafe(start: State, cursor: string, attempts: seq<Attempt>,
      position: string -> nat) returns (m: nat)
    requires position(cursor) == 0 && Served(Till(start, cursor), attempts, position)
    ensures var t := Pulls(Till(start, cursor), attempts);
            AtPoint(start, LastLog(attempts), t.inbox, m) && position(t.cursor) <= m
  {
    if |attempts| == 0 {
      m := 0;
    } else {
      var front, last := attempts[..|attempts| - 1], attempts[|attempts| - 1];
      m := CrashSafe(start, cursor, front, position);
      var t := Pulls(Till(start, cursor), front);
      LogGrows(start, LastLog(front), last.log, t.inbox, m);
      if last.answer.Answered? {
        m := PartialContinues(start, last.log, t.inbox, m, position(t.cursor), last.answer.page.changes, 0,
                              last.budget);
      }
      hide TakeAll, Partial;
    }
  }

  /** Every message before a saved cursor has been applied. */
  lemma SavedPagesAreApplied(start: State, cursor: string, attempts: seq<Attempt>, position: string -> nat, i: nat)
    requires position(cursor) == 0 && Served(Till(start, cursor), attempts, position)
    requires i < position(Pulls(Till(start, cursor), attempts).cursor)
    ensures i < |LastLog(attempts)| && Applied(Pulls(Till(start, cursor), attempts).inbox, LastLog(attempts)[i].id)
  {
    var m := CrashSafe(start, cursor, attempts, position);
    var log := LastLog(attempts);
    AllSettled(start, log[..m]);
    assert log[..m][i] == log[i];
  }

  // ---- a message that cannot be applied --------------------------------------------------------------------

  lemma {:induction false} PrefixSucceeds(s: State, log: seq<Message>, m: nat, n: nat)
    requires m <= n <= |log| && TakeAll(s, log[..n]).Some?
    ensures TakeAll(s, log[..m]).Some?
    decreases n
  {
    if m < n {
      assert log[..n][..n - 1] == log[..n - 1];
      PrefixSucceeds(s, log, m, n - 1);
    }
  }

  /**
   * A message that fails after everything before it blocks the feed: no schedule of pulls gets the
   * data or the cursor past it, however much the log grows.
   */
  lemma FailingMessageBlocksTheFeed(start: State, cursor: string, attempts: seq<Attempt>, position: string -> nat,
      bad: nat)
    requires position(cursor) == 0 && Served(Till(start, cursor), attempts, position) && |attempts| > 0
    requires bad < |LastLog(attempts)| && TakeAll(start, LastLog(attempts)[..bad]).Some?
    requires Take(TakeAll(start, LastLog(attempts)[..bad]).value, LastLog(attempts)[bad]).Err?
    ensures var t := Pulls(Till(start, cursor), attempts);
            position(t.cursor) <= bad && exists m: nat :: m <= bad && AtPoint(start, LastLog(attempts), t.inbox, m)
  {
    var log := LastLog(attempts);
    var m := CrashSafe(start, cursor, attempts, position);
    TakeNext(start, log, bad);
    if m > bad {
      PrefixSucceeds(start, log, bad + 1, m);
    }
  }

  // ---- the loops -----------------------------------------------------------------------------------------------

  function Changes(answer: Answer): seq<Message> {
    if answer.Answered? then answer.page.changes else []
  }

  /** The whole of an answer is worked through, with no crash. */
  function FullPull(t: Till, answer: Answer): Till {
    Pull(t, answer, |Changes(answer)|, true)
  }

  predicate PullSucceeds(t: Till, answer: Answer) {
    answer.Answered? && Partial(t.inbox, answer.page.changes, 0, |answer.page.changes|).1
  }

  /** The first `n` answers, each worked through. */
  function FullPulls(t: Till, answers: nat -> Answer, n: nat): Till {
    if n == 0 then t else FullPull(FullPulls(t, answers, n - 1), answers(n - 1))
  }

  function WholeAttempts(logs: nat -> seq<Message>, answers: nat -> Answer, n: nat): (a: seq<Attempt>)
    ensures |a| == n
  {
    seq(n, i requires 0 <= i < n => Attempt(logs(i), answers(i), |Changes(answers(i))|, true))
  }

  /** Uninterrupted pulls are one of the schedules CrashSafe speaks about. */
  lemma {:induction false} FullPullsAreAttempts(t: Till, logs: nat -> seq<Message>, answers: nat -> Answer, n: nat)
    ensures Pulls(t, WholeAttempts(logs, answers, n)) == FullPulls(t, answers, n)
  {
    if n > 0 {
      FullPullsAreAttempts(t, logs, answers, n - 1);
      assert WholeAttempts(logs, answers, n)[..n - 1] == WholeAttempts(logs, answers, n - 1);
    }
  }

  lemma NoPulls(t: Till, answers: nat -> Answer)
    ensures FullPulls(t, answers, 0) == t
  {
  }

  lemma OneMorePull(t: Till, answers: nat -> Answer, n: nat)
    ensures FullPulls(t, answers, n + 1) == FullPull(FullPulls(t, answers, n), answers(n))
  {
  }

  class Puller {
    const inbox: Inbox
    var cursor: string

    constructor (inbox: Inbox)
      ensures this.inbox == inbox && cursor == ""
    {
      this.inbox, cursor := inbox, "";
    }

    function View(): Till
      reads this, inbox
    {
      Till(inbox.View(), cursor)
    }

    method PullOnce(answer: Answer) returns (more: bool, failed: bool)
      modifies this`cursor, inbox
      ensures View() == FullPull(old(View()), answer)
      ensures failed <==> !PullSucceeds(old(View()), answer)
      ensures !failed ==> answer.Answered? && more == answer.page.hasMore
    {
      if answer.NoAnswer? {
        return false, true;
      }
      var page := answer.page;
      ghost var n, start := |page.changes|, inbox.View();
      for k := 0 to |page.changes|
        invariant Partial(start, page.changes, 0, n) == Partial(inbox.View(), page.changes, k, n - k)
        invariant cursor == old(cursor)
      {
        if page.changes[k].schemaVersion > SUPPORTED_SCHEMA {
          return false, true;
        }
        var err := inbox.Apply(page.changes[k]);
        if err.Some? {
          return false, true;
        }
      }
      if page.cursor != "" && page.cursor != cursor {
        cursor := page.cursor;
      }
      return page.hasMore, false;
    }

    /** At most ten pages, stopping at the first failure or the end of the feed. */
    method PullUntilCaughtUp(answers: nat -> Answer) returns (failed: bool, ghost pulls: nat)
      modifies this`cursor, inbox
      ensures pulls <= 10 && View() == FullPulls(old(View()), answers, pulls)
      ensures forall i | 0 <= i < pulls ::
              (failed && i == pulls - 1) || PullSucceeds(FullPulls(old(View()), answers, i), answers(i))
      ensures failed ==> pulls > 0 && !PullSucceeds(FullPulls(old(View()), answers, pulls - 1), answers(pulls - 1))
      ensures !failed && pulls < 10 ==> pulls > 0 && answers(pulls - 1).Answered? && !answers(pulls - 1).page.hasMore
    {
      hide FullPull, PullSucceeds, FullPulls;
      pulls := 0;
      NoPulls(View(), answers);
      ghost var start := View();
      for i := 0 to 10
        invariant pulls == i && View() == FullPulls(start, answers, i)
        invariant forall j | 0 <= j < i :: PullSucceeds(FullPulls(start, answers, j), answers(j))
      {
        var more;
        more, failed := PullOnce(answers(i));
        OneMorePull(start, answers, i);
        pulls := i + 1;
        if failed {
          return;
        }
        if !more {
          return;
        }
      }
      failed := false;
    }
  }
}
