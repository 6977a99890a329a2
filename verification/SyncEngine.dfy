/**
 * The sync engine's dispatch loop, proved to be a run of the dispatch protocol, with other
 * dispatchers, the network and the till at work between any two of its statements.
 */
module SyncEngine {
  import opened Basics
  import opened OutboxTable
  import opened DispatchProtocol

  const DUPLICATE_CODE := "SYNC_EVENT_ALREADY_RECEIVED"

  datatype Response = NoResponse | Response(status: int, code: string, eventId: string)

  /**
   * What happens to one POST: it never arrives, its answer is lost, Central answers it, or some other
   * answer comes back, such as an error status of Central's or of a proxy, before or after Central stored it.
   */
  datatype Fate = RequestLost | AnswerLost | Answered | Other(stored: bool, response: Response)

  /** Central stores a first copy with 201 and names a repeated event in a 409. */
  function CentralAnswer(accepted: seq<string>, id: string): Response {
    if id in accepted then Response(409, DUPLICATE_CODE, id) else Response(201, "", "")
  }

  /** The outcome test of publish. */
  predicate IsAck(response: Response, id: string) {
    response.Response?
    && (200 <= response.status < 300
        || (response.status == 409 && response.code == DUPLICATE_CODE && response.eventId == id))
  }

  /** Central got the event to store. */
  predicate Reached(fate: Fate) {
    fate.AnswerLost? || fate.Answered? || (fate.Other? && fate.stored)
  }

  /** Whoever sends another answer does not acknowledge an event Central did not store. */
  predicate Honest(fate: Fate, id: string) {
    fate.Other? && IsAck(fate.response, id) ==> fate.stored
  }

  /** The post of `id` counts as acknowledged. */
  predicate Acknowledged(fate: Fate, id: string) {
    fate.Answered? || (fate.Other? && IsAck(fate.response, id))
  }

  function ResponseTo(fate: Fate, accepted: seq<string>, id: string): Response {
    match fate
    case RequestLost => NoResponse
    case AnswerLost => NoResponse
    case Answered => CentralAnswer(accepted, id)
    case Other(_, response) => response
  }

  function Received(accepted: seq<string>, id: string, fate: Fate): seq<string> {
    if !Reached(fate) || id in accepted then accepted else accepted + [id]
  }

  // ---- the steps of one round -----------------------------------------------------------------------------

  /** What everybody else does around the statements of a round; a failure has two of them. */
  datatype Meanwhile = Meanwhile(beforeClaim: seq<Step>, beforePost: seq<Step>, beforeMark: seq<Step>,
      beforeWrite: seq<Step>)

  const ALONE := Meanwhile([], [], [], [])

  /** A step of somebody else than dispatcher `d`. */
  predicate Foreign(step: Step, d: nat) {
    match step
    case Claim(e, _, _, _) => e != d
    case Acknowledge(e) => e != d
    case MarkPublished(e) => e != d
    case ReadAttempts(e) => e != d
    case WriteFailure(e, _) => e != d
    case Crash(e) => e != d
    case _ => true
  }

  predicate AllForeign(steps: seq<Step>, d: nat) {
    forall i | 0 <= i < |steps| :: Foreign(steps[i], d)
  }

  predicate Others(m: Meanwhile, d: nat) {
    AllForeign(m.beforeClaim, d) && AllForeign(m.beforePost, d) && AllForeign(m.beforeMark, d)
      && AllForeign(m.beforeWrite, d)
  }

  /** Up to the mark, when `id` is what the claim finds. */
  function SendSteps(d: nat, owner: string, now: string, id: string, fate: Fate, m: Meanwhile): seq<Step> {
    m.beforeClaim + [Claim(d, owner, now, id)] + m.beforePost + PostSteps(id, fate) + m.beforeMark
  }

  function PostSteps(id: string, fate: Fate): seq<Step> {
    if Reached(fate) then [Deliver(id)] else []
  }

  /** MarkPublished or MarkFailed; a dispatcher that no longer owns the row gives up before writing a failure. */
  function FinishSteps(d: nat, acked: bool, owned: bool, next: string, m: Meanwhile): seq<Step> {
    if acked then [Acknowledge(d), MarkPublished(d)]
    else if owned then [ReadAttempts(d)] + m.beforeWrite + [WriteFailure(d, next)]
    else [Crash(d)]
  }

  lemma {:induction false} RunConcat(s: State, a: seq<Step>, b: seq<Step>)
    ensures Run(s, a + b) == Run(Run(s, a), b)
    decreases |a|
  {
    if |a| == 0 {
      assert a + b == b;
    } else {
      assert (a + b)[1..] == a[1..] + b;
      RunConcat(Next(s, a[0]), a[1..], b);
    }
  }

  lemma RunOne(s: State, x: Step)
    ensures Run(s, [x]) == Next(s, x)
  {
    assert [x][1..] == [];
  }

  lemma RunTwo(s: State, x: Step, y: Step)
    ensures Run(s, [x, y]) == Next(Next(s, x), y)
  {
    assert [x, y] == [x] + [y];
    RunConcat(s, [x], [y]);
    RunOne(s, x);
    RunOne(Next(s, x), y);
  }

  lemma Then(s: State, a: seq<Step>, t: State, b: seq<Step>, u: State)
    requires t == Run(s, a) && u == Run(t, b)
    ensures u == Run(s, a + b)
  {
    RunConcat(s, a, b);
  }

  // ---- what others cannot take away ------------------------------------------------------------------------

  /** Events and requests stay, what was published stays so, and Central forgets nothing. */
  ghost predicate Grows(s: State, t: State) {
    && s.rows.Keys <= t.rows.Keys && s.wire <= t.wire && s.accepted <= t.accepted
    && forall id | id in s.rows && s.rows[id].status == Published :: t.rows[id].status == Published
  }

  lemma StepGrows(s: State, step: Step)
    ensures Grows(s, Next(s, step))
    ensures forall d | Foreign(step, d) && d in s.phases ::
              d in Next(s, step).phases && Next(s, step).phases[d] == s.phases[d]
    ensures forall d | Foreign(step, d) && d !in s.phases :: d !in Next(s, step).phases
  {
    hide Before, Precedes, Trim, WellFormed, Less;
    var t := Next(s, step);
    assert s.rows.Keys <= t.rows.Keys && s.wire <= t.wire && s.accepted <= t.accepted;
    if !step.Append? {
      StepKeepsOrder(s, step);
    }
  }

  lemma {:induction false} RunGrows(s: State, steps: seq<Step>)
    ensures Grows(s, Run(s, steps))
    decreases |steps|
  {
    if |steps| > 0 {
      StepGrows(s, steps[0]);
      RunGrows(Next(s, steps[0]), steps[1..]);
    }
  }

  lemma {:induction false} OthersKeepPhase(s: State, steps: seq<Step>, d: nat, phase: Phase)
    requires AllForeign(steps, d) && d in s.phases && s.phases[d] == phase
    ensures d in Run(s, steps).phases && Run(s, steps).phases[d] == phase
    decreases |steps|
  {
    if |steps| > 0 {
      StepGrows(s, steps[0]);
      OthersKeepPhase(Next(s, steps[0]), steps[1..], d, phase);
    }
  }

  lemma {:induction false} OthersTakeNoPhase(s: State, steps: seq<Step>, d: nat)
    requires AllForeign(steps, d) && d !in s.phases
    ensures d !in Run(s, steps).phases
    decreases |steps|
  {
    if |steps| > 0 {
      StepGrows(s, steps[0]);
      OthersTakeNoPhase(Next(s, steps[0]), steps[1..], d);
    }
  }

  // ---- a round with nobody in between ------------------------------------------------------------------------

  function Settled(locked: Rows, id: string, owner: string, acked: bool, next: string): Rows
    requires id in locked
  {
    if acked then PublishOwned(locked, id, owner)
    else FailOwned(locked, id, owner, locked[id].attempts + 1, next)
  }

  lemma FinishIsRun(s: State, d: nat, owner: string, id: string, acked: bool, next: string)
    requires d in s.phases && s.phases[d] == Holding(id, owner) && Owned(s.rows, id, owner)
    requires acked ==> id in s.accepted
    ensures Run(s, FinishSteps(d, acked, true, next, ALONE)) ==
            s.(rows := Settled(s.rows, id, owner, acked, next), phases := s.phases - {d})
  {
    var steps := FinishSteps(d, acked, true, next, ALONE);
    assert steps == [steps[0], steps[1]];
    RunTwo(s, steps[0], steps[1]);
    var phase := if acked then Acked(id, owner) else Failing(id, owner, s.rows[id].attempts + 1);
    assert Next(s, steps[0]) == s.(phases := s.phases[d := phase]);
    assert s.phases[d := phase] - {d} == s.phases - {d};
  }

  lemma SendIsRun(s: State, d: nat, owner: string, now: string, id: string, fate: Fate)
    requires d !in s.phases && NextClaim(s.rows, id, now)
    ensures Run(s, SendSteps(d, owner, now, id, fate, ALONE)) ==
            s.(rows := Lock(s.rows, id, owner, now), phases := s.phases[d := Holding(id, owner)],
               wire := s.wire + {id}, accepted := Received(s.accepted, id, fate))
  {
    var claim := Claim(d, owner, now, id);
    assert SendSteps(d, owner, now, id, fate, ALONE) == [claim] + PostSteps(id, fate);
    RunConcat(s, [claim], PostSteps(id, fate));
    RunOne(s, claim);
    PostIsRun(Next(s, claim), id, fate);
  }

  lemma PostIsRun(s: State, id: string, fate: Fate)
    requires id in s.wire
    ensures Run(s, PostSteps(id, fate)) == s.(accepted := Received(s.accepted, id, fate))
  {
    if Reached(fate) {
      RunOne(s, Deliver(id));
    }
  }

  /** Claim, post and mark without anybody in between make up one change of the table. */
  lemma RoundIsRun(s: State, d: nat, owner: string, now: string, id: string, fate: Fate, next: string)
    requires d !in s.phases && NextClaim(s.rows, id, now) && Honest(fate, id)
    ensures var acked := Acknowledged(fate, id);
            Run(s, SendSteps(d, owner, now, id, fate, ALONE) + FinishSteps(d, acked, true, next, ALONE)) ==
            s.(rows := Settled(Lock(s.rows, id, owner, now), id, owner, acked, next),
               wire := s.wire + {id},
               accepted := Received(s.accepted, id, fate))
  {
    var acked, send := Acknowledged(fate, id), SendSteps(d, owner, now, id, fate, ALONE);
    RunConcat(s, send, FinishSteps(d, acked, true, next, ALONE));
    SendIsRun(s, d, owner, now, id, fate);
    FinishIsRun(Run(s, send), d, owner, id, acked, next);
    assert s.phases[d := Holding(id, owner)] - {d} == s.phases;
  }

  /** Rows that became published between two tables. */
  ghost function NewlyPublished(before: Rows, after: Rows): set<string> {
    set id | id in after && after[id].status == Published && (id !in before || before[id].status != Published)
  }

  /** The same events, and what was published still is. */
  ghost predicate KeepsPublished(before: Rows, after: Rows) {
    before.Keys == after.Keys
    && forall id | id in before && before[id].status == Published :: after[id].status == Published
  }

  ghost predicate Progress(start: Rows, rows: Rows, published: nat) {
    KeepsPublished(start, rows) && published == |NewlyPublished(start, rows)|
  }

  lemma RoundProgresses(rows: Rows, id: string, owner: string, now: string, acked: bool, next: string)
    requires NextClaim(rows, id, now)
    ensures Progress(rows, Settled(Lock(rows, id, owner, now), id, owner, acked, next), if acked then 1 else 0)
  {
    var after := Settled(Lock(rows, id, owner, now), id, owner, acked, next);
    assert NewlyPublished(rows, after) == if acked then {id} else {};
  }

  lemma ProgressChains(a: Rows, b: Rows, m: nat, c: Rows, n: nat)
    requires Progress(a, b, m) && Progress(b, c, n)
    ensures Progress(a, c, m + n)
  {
    assert NewlyPublished(a, c) == NewlyPublished(a, b) + NewlyPublished(b, c);
    assert NewlyPublished(a, b) !! NewlyPublished(b, c);
  }

  /** Nothing is ready to be claimed. */
  ghost predicate Idle(rows: Rows, now: string) {
    forall id :: !Claimable(rows, id, now)
  }

  // ---- emptying the queue --------------------------------------------------------------------------------

  predicate Due(row: Row, now: string) {
    (row.status == Pending || row.status == Failed) && !Less(now, row.availableAt)
  }

  /** The event and every earlier one of its key is published or due: nothing holds it up. */
  ghost predicate Clear(rows: Rows, id: string, now: string) {
    && id in rows
    && forall e | e == id || Precedes(rows, e, id) :: rows[e].status == Published || Due(rows[e], now)
  }

  /** Exactly what nothing held up became published. */
  ghost predicate Emptied(before: Rows, after: Rows, now: string) {
    && before.Keys == after.Keys
    && forall id | id in before ::
         after[id].status == Published <==> before[id].status == Published || Clear(before, id, now)
  }

  /** Only clear events changed, and they are published; this is how a queue is worked off. */
  ghost predicate WorkedOff(before: Rows, rows: Rows, now: string) {
    && SameOrder(before, rows)
    && forall id | id in rows && rows[id] != before[id] :: rows[id].status == Published && Clear(before, id, now)
  }

  lemma LaterIsStillDue(row: Row, now: string, later: string)
    requires Due(row, now) && !Less(later, now)
    ensures Due(row, later)
  {
    if Less(later, row.availableAt) {
      LessTotal(now, row.availableAt);
      if Less(row.availableAt, now) {
        LessTransitive(later, row.availableAt, now);
      }
    }
  }

  lemma ClearLater(rows: Rows, id: string, now: string, later: string)
    requires Clear(rows, id, now) && !Less(later, now)
    ensures Clear(rows, id, later)
  {
    forall e | (e == id || Precedes(rows, e, id)) && rows[e].status != Published ensures Due(rows[e], later) {
      LaterIsStillDue(rows[e], now, later);
    }
    hide Precedes, Due;
  }

  /** One acknowledged round works off the first claimable event. */
  lemma RoundWorksOff(before: Rows, rows: Rows, earlier: string, id: string, owner: string, now: string, next: string)
    requires WorkedOff(before, rows, earlier) && NextClaim(rows, id, now) && !Less(now, earlier)
    ensures WorkedOff(before, Settled(Lock(rows, id, owner, now), id, owner, true, next), now)
  {
    var after := Settled(Lock(rows, id, owner, now), id, owner, true, next);
    ClaimedIsClear(before, rows, earlier, id, now);
    OneRowPublished(rows, id, owner, now, next);
    hide Claimable, NextClaim, Clear, Less, Settled, Lock;
    forall o | o in after && o != id && after[o] != before[o] ensures Clear(before, o, now) {
      ClearLater(before, o, earlier, now);
    }
  }

  lemma OneRowPublished(rows: Rows, id: string, owner: string, now: string, next: string)
    requires id in rows
    ensures var after := Settled(Lock(rows, id, owner, now), id, owner, true, next);
            SameOrder(rows, after) && after[id].status == Published && forall o | o in rows && o != id ::
                after[o] == rows[o]
  {
  }

  lemma ClaimedIsClear(before: Rows, rows: Rows, earlier: string, id: string, now: string)
    requires WorkedOff(before, rows, earlier) && Claimable(rows, id, now) && !Less(now, earlier)
    ensures Clear(before, id, now)
  {
    SameOrderPrecedes(before, rows);
    assert rows[id] == before[id];
    hide Less, Before;
    forall e | Precedes(before, e, id) && before[e].status != Published ensures Due(before[e], now) {
      assert rows[e].status == Published && rows[e] != before[e];
      ClearLater(before, e, earlier, now);
    }
  }

  lemma WorkedOffLater(before: Rows, rows: Rows, now: string, later: string)
    requires WorkedOff(before, rows, now) && !Less(later, now)
    ensures WorkedOff(before, rows, later)
  {
    forall id | id in rows && rows[id] != before[id] ensures Clear(before, id, later) {
      ClearLater(before, id, now, later);
    }
    hide Clear;
  }

  /** The first event of a key that holds up `id`, if any event does. */
  lemma FirstUnpublished(rows: Rows, id: string) returns (first: string)
    requires id in rows && rows[id].status != Published
    ensures first in rows && (first == id || Precedes(rows, first, id)) && rows[first].status != Published
    ensures forall e | e in rows && Precedes(rows, e, first) :: rows[e].status == Published
  {
    var ids := set e | e in rows && (e == id || Precedes(rows, e, id)) && rows[e].status != Published;
    assert id in ids;
    first := FirstOf(rows, ids);
    BeforeIsStrictTotal(rows);
    hide Before;
    forall e | e in rows && Precedes(rows, e, first) ensures rows[e].status == Published {
      assert rows[e].status != Published ==> e in ids;
    }
  }

  /** A queue worked off until nothing is claimable is emptied of all that nothing held up. */
  lemma IdleIsEmptied(before: Rows, rows: Rows, now: string)
    requires WorkedOff(before, rows, now) && Idle(rows, now)
    ensures Emptied(before, rows, now)
  {
    SameOrderPrecedes(before, rows);
    forall id | id in before && rows[id].status != Published
      ensures before[id].status != Published && !Clear(before, id, now) {
      var first := FirstUnpublished(rows, id);
      assert !Claimable(rows, first, now);
      assert rows[first] == before[first];
      assert !Due(before[first], now);
    }
    hide Precedes, Idle;
  }

  ghost function Unpublished(rows: Rows): set<string> {
    set id | id in rows && rows[id].status != Published
  }

  lemma NoMoreThanUnpublished(start: Rows, rows: Rows, published: nat)
    requires Progress(start, rows, published)
    ensures published <= |Unpublished(start)|
  {
    SubsetSize(NewlyPublished(start, rows), Unpublished(start));
  }

  lemma {:induction false} SubsetSize(a: set<string>, b: set<string>)
    requires a <= b
    ensures |a| <= |b|
    decreases |a|
  {
    if a != {} {
      var x :| x in a;
      SubsetSize(a - {x}, b - {x});
    }
  }

  // ---- the engine ------------------------------------------------------------------------------------------

  /** A step of somebody else in this round. */
  predicate OfOthers(step: Step, m: Meanwhile) {
    step in m.beforeClaim || step in m.beforePost || step in m.beforeMark || step in m.beforeWrite
  }

  /** Whatever is appended or skipped in a run of the loop, others did it. */
  ghost predicate OnlyDispatches(steps: seq<Step>, world: nat -> Meanwhile) {
    forall i | 0 <= i < |steps| && (steps[i].Append? || steps[i].Skip?) :: exists k :: OfOthers(steps[i], world(k))
  }

  lemma RoundOnlyDispatches(d: nat, owner: string, now: string, id: string, fate: Fate, acked: bool, owned: bool,
      next: string, world: nat -> Meanwhile, k: nat)
    ensures OnlyDispatches(SendSteps(d, owner, now, id, fate, world(k)) + FinishSteps(d, acked, owned, next, world(k)),
                           world)
  {
    var steps := SendSteps(d, owner, now, id, fate, world(k)) + FinishSteps(d, acked, owned, next, world(k));
    forall i | 0 <= i < |steps| && (steps[i].Append? || steps[i].Skip?)
      ensures exists k :: OfOthers(steps[i], world(k)) {
      assert OfOthers(steps[i], world(k));
    }
  }

  lemma WaitingOnlyDispatches(world: nat -> Meanwhile, k: nat)
    ensures OnlyDispatches(world(k).beforeClaim, world)
  {
    var waiting := world(k).beforeClaim;
    forall i | 0 <= i < |waiting| ensures exists k :: OfOthers(waiting[i], world(k)) {
      assert OfOthers(waiting[i], world(k));
    }
  }

  /** The run passes through this state. */
  ghost predicate Passes(s: State, steps: seq<Step>, t: State) {
    exists j | 0 <= j <= |steps| :: t == Run(s, steps[..j])
  }

  ghost predicate Forward(nows: nat -> string) {
    forall i: nat, j: nat | i < j :: !Less(nows(j), nows(i))
  }

  /** What one round amounts to, seen from the state before it. */
  ghost predicate RoundDone(
    d: nat, owner: string, now: string, next: string, fates: string -> Fate, m: Meanwhile, before: State,
    claimed: Option<string>, ok: bool, steps: seq<Step>, atMark: State, after: State)
  {
    var rows := Run(before, m.beforeClaim).rows;
    && after == Run(before, steps) && Grows(before, after)
    && match claimed
       case None => Idle(rows, now) && steps == m.beforeClaim && !ok
       case Some(id) =>
         var acked, send := Acknowledged(fates(id), id), SendSteps(d, owner, now, id, fates(id), m);
         var owned := Owned(atMark.rows, id, owner);
         && NextClaim(rows, id, now)
         && atMark == Run(before, send) && steps == send + FinishSteps(d, acked, owned, next, m)
         && (ok <==> acked && owned)
         && (ok ==> id in after.accepted && id in after.rows && after.rows[id].status == Published)
  }

  /** With nobody in between the claim is kept, and the round is one change of the table. */
  lemma RoundAlone(
    d: nat, owner: string, now: string, next: string, fates: string -> Fate, before: State,
    claimed: Option<string>, ok: bool, steps: seq<Step>, atMark: State, after: State)
    requires RoundDone(d, owner, now, next, fates, ALONE, before, claimed, ok, steps, atMark, after)
             && d !in before.phases
    requires claimed.Some? ==> Honest(fates(claimed.value), claimed.value)
    ensures claimed.None? ==> after == before && Idle(before.rows, now)
    ensures claimed.Some? ==>
              var id := claimed.value;
              && NextClaim(before.rows, id, now) && (ok <==> Acknowledged(fates(id), id))
              && after.rows == Settled(Lock(before.rows, id, owner, now), id, owner, ok, next)
    ensures Progress(before.rows, after.rows, if ok then 1 else 0)
  {
    assert Run(before, []) == before;
    if claimed.Some? {
      var id := claimed.value;
      SendIsRun(before, d, owner, now, id, fates(id));
      RoundIsRun(before, d, owner, now, id, fates(id), next);
      RoundProgresses(before.rows, id, owner, now, ok, next);
      hide Run, NextClaim, Progress, Grows, SendSteps, FinishSteps;
    } else {
      NothingProgresses(before.rows);
    }
  }

  lemma FailureIsRun(s: State, d: nat, id: string, owner: string, next: string, m: Meanwhile)
    requires d in s.phases && s.phases[d] == Holding(id, owner) && Others(m, d)
    ensures var owned := Owned(s.rows, id, owner);
            && (!owned ==> Run(s, FinishSteps(d, false, owned, next, m)) == s.(phases := s.phases - {d}))
            && (owned ==>
                  var phase := Failing(id, owner, s.rows[id].attempts + 1);
                  var t := Run(s.(phases := s.phases[d := phase]), m.beforeWrite);
                  Run(s, FinishSteps(d, false, owned, next, m)) ==
                  t.(rows := FailOwned(t.rows, id, owner, phase.attempts, next), phases := t.phases - {d}))
  {
    if Owned(s.rows, id, owner) {
      var phase := Failing(id, owner, s.rows[id].attempts + 1);
      var s1 := s.(phases := s.phases[d := phase]);
      RunOne(s, ReadAttempts(d));
      Then(s, [ReadAttempts(d)], s1, m.beforeWrite, Run(s1, m.beforeWrite));
      OthersKeepPhase(s1, m.beforeWrite, d, phase);
      hide AllForeign;
      var s2 := Run(s1, m.beforeWrite);
      RunOne(s2, WriteFailure(d, next));
      Then(s, [ReadAttempts(d)] + m.beforeWrite, s2, [WriteFailure(d, next)], Next(s2, WriteFailure(d, next)));
    } else {
      RunOne(s, Crash(d));
    }
  }

  lemma LoopStarts(start: State, cutoff: string, now: string, network: nat -> string -> Fate, world: nat -> Meanwhile)
    ensures var t := start.(rows := ReleaseStale(start.rows, cutoff));
            && t == Run(start, [RecoverStale(cutoff)]) && OnlyDispatches([RecoverStale(cutoff)], world)
            && Counted(start, t, [], network) && Progress(start.rows, t.rows, 0) && WorkedOff(t.rows, t.rows, now)
  {
    RunOne(start, RecoverStale(cutoff));
    StepGrows(start, RecoverStale(cutoff));
    ReleaseProgresses(start.rows, cutoff);
    hide Grows, Progress, ReleaseStale;
  }

  lemma CountedLater(start: State, before: State, after: State, posted: seq<string>, network: nat -> string -> Fate)
    requires Counted(start, before, posted, network) && Grows(before, after)
    ensures Counted(start, after, posted, network)
  {
    GrowsOn(start, before, after);
  }

  lemma OneMoreCounted(
    start: State, before: State, after: State, posted: seq<string>, network: nat -> string -> Fate, m: Meanwhile,
      id: string, now: string)
    requires Counted(start, before, posted, network) && Counted(start, after, posted, network)
    requires NextClaim(Run(before, m.beforeClaim).rows, id, now) && Acknowledged(network(|posted|)(id), id)
    requires id in after.accepted && id in after.rows && after.rows[id].status == Published
    ensures Counted(start, after, posted + [id], network)
  {
    RunGrows(before, m.beforeClaim);
    GrowsOn(start, before, Run(before, m.beforeClaim));
    hide Acknowledged, Run, Less;
  }

  lemma PassesMark(start: State, steps: seq<Step>, before: State, send: seq<Step>, finish: seq<Step>, atMark: State)
    requires before == Run(start, steps) && atMark == Run(before, send)
    ensures Passes(start, steps + (send + finish), atMark)
  {
    Then(start, steps, before, send, atMark);
    assert (steps + (send + finish))[..|steps + send|] == steps + send;
  }

  /** One more round in the loop. */
  lemma RoundExtends(
    d: nat, owner: string, nows: nat -> string, nexts: nat -> string, network: nat -> string -> Fate,
      world: nat -> Meanwhile,
    k: nat, start: State, steps: seq<Step>, posted: seq<string>, before: State,
    claimed: Option<string>, ok: bool, round: seq<Step>, atMark: State, after: State)
    requires RoundDone(d, owner, nows(k), nexts(k), network(k), world(k), before, claimed, ok, round, atMark, after)
    requires before == Run(start, steps) && OnlyDispatches(steps, world) && Counted(start, before, posted, network)
             && |posted| == k
    ensures after == Run(start, steps + round) && OnlyDispatches(steps + round, world)
    ensures Counted(start, after, posted, network)
    ensures claimed.None? ==> Idle(after.rows, nows(k)) && !ok
    ensures ok ==> claimed.Some? && Acknowledged(network(k)(claimed.value), claimed.value)
                   && Counted(start, after, posted + [claimed.value], network)
    ensures claimed.Some? && !ok && Acknowledged(network(k)(claimed.value), claimed.value) ==>
              !Owned(atMark.rows, claimed.value, owner) && Passes(start, steps + round, atMark)
  {
    hide Grows, Idle, Acknowledged, Owned, Run;
    Then(start, steps, before, round, after);
    CountedLater(start, before, after, posted, network);
    if claimed.None? {
      WaitingOnlyDispatches(world, k);
    } else {
      var id := claimed.value;
      RoundOnlyDispatches(d, owner, nows(k), id, network(k)(id), Acknowledged(network(k)(id), id),
                          Owned(atMark.rows, id, owner), nexts(k), world, k);
      PassesMark(start, steps, before, SendSteps(d, owner, nows(k), id, network(k)(id), world(k)),
                 FinishSteps(d, Acknowledged(network(k)(id), id), Owned(atMark.rows, id, owner), nexts(k), world(k)),
                   atMark);
      if ok {
        OneMoreCounted(start, before, after, posted, network, world(k), id, nows(k));
      }
    }
    hide Counted, SendSteps, FinishSteps, NextClaim, Passes;
  }

  lemma NothingProgresses(rows: Rows)
    ensures Progress(rows, rows, 0)
  {
    assert NewlyPublished(rows, rows) == {};
  }

  lemma ReleaseProgresses(rows: Rows, cutoff: string)
    ensures Progress(rows, ReleaseStale(rows, cutoff), 0)
  {
    assert NewlyPublished(rows, ReleaseStale(rows, cutoff)) == {};
  }

  lemma GrowsOn(s: State, t: State, u: State)
    requires Grows(s, t) && Grows(t, u)
    ensures Grows(s, u)
  {
  }

  ghost predicate Alone(world: nat -> Meanwhile) {
    forall k :: world(k) == ALONE
  }

  ghost predicate AllAcknowledged(network: nat -> string -> Fate) {
    forall k, id :: Acknowledged(network(k)(id), id)
  }

  /** These events are different, were acknowledged, and have become published. */
  ghost predicate Counted(before: State, after: State, ids: seq<string>, network: nat -> string -> Fate) {
    && Grows(before, after)
    && (forall i, j | 0 <= i < j < |ids| :: ids[i] != ids[j])
    && forall k | 0 <= k < |ids| ::
         && ids[k] in after.accepted && Acknowledged(network(k)(ids[k]), ids[k])
         && ids[k] in after.rows && after.rows[ids[k]].status == Published
         && (ids[k] in before.rows ==> before.rows[ids[k]].status != Published)
  }

  class Engine {
    const d: nat
    const owner: string
    const outbox: Outbox
    var phases: map<nat, Phase>  // what the dispatchers remember, this one included
    var wire: set<string>
    var accepted: seq<string>    // Central's log

    constructor (d: nat, deviceId: string, outbox: Outbox)
      ensures this.d == d && this.owner == "sync:" + deviceId && this.outbox == outbox && Valid()
      ensures View() == State(outbox.rows, outbox.consumed, map[], {}, [])
    {
      this.d, this.owner, this.outbox := d, "sync:" + deviceId, outbox;
      phases, wire, accepted := map[], {}, [];
    }

    /** Between two rounds the engine holds nothing. */
    predicate Valid()
      reads this
    {
      d !in phases
    }

    function View(): State
      reads this, outbox
    {
      State(outbox.rows, outbox.consumed, phases, wire, accepted)
    }

    /** Time passes, and others do these steps. */
    method LetOthers(steps: seq<Step>)
      modifies this, outbox
      ensures View() == Run(old(View()), steps)
    {
      var s := Run(View(), steps);
      outbox.rows, outbox.consumed := s.rows, s.consumed;
      phases, wire, accepted := s.phases, s.wire, s.accepted;
    }

    method Claim(now: string) returns (claimed: Option<string>)
      modifies this`phases, this`wire, outbox`rows
      ensures claimed.None? <==> Idle(old(outbox.rows), now)
      ensures claimed.None? ==> View() == old(View())
      ensures claimed.Some? ==>
                var id := claimed.value;
                && NextClaim(old(outbox.rows), id, now) && View() == Next(old(View()), Step.Claim(d, owner, now, id))
                && d in phases && phases[d] == Holding(id, owner) && id in wire
    {
      claimed := outbox.ClaimNext(owner, now);
      if claimed.Some? {
        phases := phases[d := Holding(claimed.value, owner)];
        wire := wire + {claimed.value};
      }
    }

    /** Posts one claimed event; true means Central acknowledged it. */
    method Publish(id: string, fate: Fate) returns (ok: bool)
      requires Honest(fate, id) && id in wire
      modifies this`accepted
      ensures accepted == Received(old(accepted), id, fate) && View() == Run(old(View()), PostSteps(id, fate))
      ensures ok <==> IsAck(ResponseTo(fate, old(accepted), id), id)
      ensures ok <==> Acknowledged(fate, id)
      ensures old(accepted) <= accepted && (ok ==> id in accepted)
    {
      PostIsRun(View(), id, fate);
      var response := ResponseTo(fate, accepted, id);
      accepted := Received(accepted, id, fate);
      ok := false;
      if response.Response? {
        if 200 <= response.status < 300 {
          ok := true;
        } else if response.status == 409 && response.code == DUPLICATE_CODE && response.eventId == id {
          ok := true;
        }
      }
    }

    /** After an acknowledgement; false when the claim was lost. */
    method Mark(id: string) returns (ok: bool)
      requires d in phases && phases[d] == Holding(id, owner) && id in accepted
      modifies this`phases, outbox`rows
      ensures Valid() && (ok <==> Owned(old(outbox.rows), id, owner))
      ensures ok ==> id in outbox.rows && outbox.rows[id].status == Published
      ensures forall owned, next, m :: View() == Run(old(View()), FinishSteps(d, true, owned, next, m))
    {
      RunTwo(View(), Acknowledge(d), MarkPublished(d));
      ghost var before := View();
      assert before.phases[d := Acked(id, owner)] - {d} == before.phases - {d};
      phases := phases - {d};
      ok := outbox.MarkPublished(id, owner);
    }

    /** After a failure: the SELECT and the UPDATE of MarkFailed, with others in between. */
    method Fail(id: string, next: string, m: Meanwhile)
      requires d in phases && phases[d] == Holding(id, owner) && Others(m, d)
      modifies this, outbox
      ensures Valid() && View() == Run(old(View()), FinishSteps(d, false, Owned(old(outbox.rows), id, owner), next, m))
    {
      ghost var before := View();
      FailureIsRun(before, d, id, owner, next, m);
      var attempts := outbox.ReadAttempts(id, owner);
      hide Run, FinishSteps;
      if attempts.Some? {
        phases := phases[d := Failing(id, owner, attempts.value + 1)];
        LetOthers(m.beforeWrite);
        outbox.WriteFailure(id, owner, attempts.value + 1, next);
      }
      phases := phases - {d};
    }

    /** Claim, publish and mark one event: the part dispatchOne and the loop share. */
    method Round(now: string, next: string, fates: string -> Fate, m: Meanwhile)
      returns (claimed: Option<string>, ok: bool, ghost steps: seq<Step>, ghost atMark: State)
      requires Valid() && Others(m, d) && forall id :: Honest(fates(id), id)
      modifies this, outbox
      ensures Valid()
      ensures RoundDone(d, owner, now, next, fates, m, old(View()), claimed, ok, steps, atMark, View())
    {
      hide Run, Idle, NextClaim, Honest, Acknowledged, PostSteps, FinishSteps;
      ghost var before := View();
      ok, steps, atMark := false, m.beforeClaim, before;
      LetOthers(m.beforeClaim);
      claimed := Claim(now);
      if claimed.None? {
        RunGrows(before, steps);
        OthersTakeNoPhase(before, steps, d);
        return;
      }
      var id := claimed.value;
      ghost var s1 := Run(before, m.beforeClaim);
      RunOne(s1, Step.Claim(d, owner, now, id));
      Then(before, m.beforeClaim, s1, [Step.Claim(d, owner, now, id)], View());
      steps, s1 := m.beforeClaim + [Step.Claim(d, owner, now, id)], View();
      LetOthers(m.beforePost);
      OthersKeepPhase(s1, m.beforePost, d, Holding(id, owner));
      RunGrows(s1, m.beforePost);
      Then(before, steps, s1, m.beforePost, View());
      steps, s1 := steps + m.beforePost, View();
      ok := Publish(id, fates(id));
      Then(before, steps, s1, PostSteps(id, fates(id)), View());
      steps, s1 := steps + PostSteps(id, fates(id)), View();
      LetOthers(m.beforeMark);
      OthersKeepPhase(s1, m.beforeMark, d, Holding(id, owner));
      RunGrows(s1, m.beforeMark);
      Then(before, steps, s1, m.beforeMark, View());
      steps, atMark := steps + m.beforeMark, View();
      ghost var finish := FinishSteps(d, ok, Owned(atMark.rows, id, owner), next, m);
      if ok {
        ok := Mark(id);
      } else {
        Fail(id, next, m);
      }
      Then(before, steps, atMark, finish, View());
      steps := steps + finish;
      RunGrows(before, steps);
    }

    /**
     * Dispatches until the limit, an idle queue or the first failure, with others at work all the
     * time. The effect is a run of the protocol. The events counted are all different, were not
     * published before, are published now and are at Central; a claim lost before its mark is not
     * counted, and ends the loop.
     */
    method DispatchReady(
      limit: int, cutoff: string, nows: nat -> string, nexts: nat -> string, network: nat -> string -> Fate,
        world: nat -> Meanwhile)
      returns (published: nat, failed: bool, ghost steps: seq<Step>, ghost posted: seq<string>, ghost atMark: State)
      requires Valid() && (forall k :: Others(world(k), d)) && forall k, id :: Honest(network(k)(id), id)
      modifies this, outbox
      ensures Valid() && View() == Run(old(View()), steps) && OnlyDispatches(steps, world)
      ensures published <= BatchLimit(limit) && |posted| == published + (if failed then 1 else 0)
      ensures Counted(old(View()), View(), posted[..published], network)
      ensures failed ==>
                var id := posted[published];
                && published < BatchLimit(limit)
                && (Acknowledged(network(published)(id), id) ==>
                    !Owned(atMark.rows, id, owner) && Passes(old(View()), steps, atMark))
      ensures !failed && published < BatchLimit(limit) ==> Idle(outbox.rows, nows(published))
      ensures Alone(world) ==> Progress(old(outbox.rows), outbox.rows, published)
      ensures Alone(world) && failed ==> !Acknowledged(network(published)(posted[published]), posted[published])
      ensures Alone(world) && AllAcknowledged(network) && Forward(nows) ==>
                && !failed && (|Unpublished(old(outbox.rows))| < BatchLimit(limit) ==> published < BatchLimit(limit))
                && (published < BatchLimit(limit) ==>
                    Emptied(ReleaseStale(old(outbox.rows), cutoff), outbox.rows, nows(published)))
    {
      hide Run, RoundDone, Progress, Idle, Grows, Counted, Honest, WorkedOff, Emptied, OnlyDispatches, Passes,
           Acknowledged, NextClaim, Settled, Owned;
      ghost var start := View();
      published, failed := 0, false;
      steps, posted, atMark := [RecoverStale(cutoff)], [], start;
      outbox.RecoverStaleClaims(cutoff);
      ghost var released := View();
      LoopStarts(start, cutoff, nows(0), network, world);
      while published < BatchLimit(limit)
        invariant Valid() && published <= BatchLimit(limit) && |posted| == published
        invariant View() == Run(start, steps) && OnlyDispatches(steps, world)
        invariant Counted(start, View(), posted, network)
        invariant Alone(world) ==> Progress(start.rows, outbox.rows, published)
        invariant Alone(world) && AllAcknowledged(network) && Forward(nows) ==>
                  WorkedOff(released.rows, outbox.rows, nows(published))
        decreases BatchLimit(limit) - published
      {
        ghost var before := View();
        var claimed, ok;
        ghost var round;
        claimed, ok, round, atMark := Round(nows(published), nexts(published), network(published), world(published));
        if Alone(world) {
          RoundAlone(d, owner, nows(published), nexts(published), network(published), before, claimed, ok, round,
                     atMark, View());
          ProgressChains(start.rows, before.rows, published, outbox.rows, if ok then 1 else 0);
        }
        RoundExtends(d, owner, nows, nexts, network, world, published, start, steps, posted, before, claimed, ok,
                     round, atMark, View());
        steps := steps + round;
        if claimed.None? {
          assert posted[..published] == posted;
          if Alone(world) && AllAcknowledged(network) && Forward(nows) {
            IdleIsEmptied(released.rows, outbox.rows, nows(published));
          }
          return;
        }
        assert (posted + [claimed.value])[..published] == posted;
        posted := posted + [claimed.value];
        if !ok {
          failed := true;
          return;
        }
        if Alone(world) && AllAcknowledged(network) && Forward(nows) {
          LessIrreflexive(nows(published));
          RoundWorksOff(released.rows, before.rows, nows(published), claimed.value, owner, nows(published),
                        nexts(published));
          WorkedOffLater(released.rows, outbox.rows, nows(published), nows(published + 1));
        }
        published := published + 1;
      }
      assert posted[..published] == posted;
      if Alone(world) {
        NoMoreThanUnpublished(start.rows, outbox.rows, published);
      }
    }

    /** One round without stale recovery; true when there was an event to work on. */
    method DispatchOne(now: string, next: string, fates: string -> Fate, m: Meanwhile) returns (worked: bool,
        ghost steps: seq<Step>)
      requires Valid() && Others(m, d) && forall id :: Honest(fates(id), id)
      modifies this, outbox
      ensures Valid() && View() == Run(old(View()), steps)
      ensures worked <==> !Idle(Run(old(View()), m.beforeClaim).rows, now)
    {
      ghost var atMark;
      var claimed, ok;
      claimed, ok, steps, atMark := Round(now, next, fates, m);
      worked := claimed.Some?;
    }
  }

  function BatchLimit(limit: int): nat {
    if limit <= 0 || limit > 500 then 100 else limit
  }
}
