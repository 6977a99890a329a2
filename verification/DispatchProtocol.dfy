/**
 * The dispatch protocol: any number of dispatchers over one outbox table, a network that may
 * delay, lose or repeat requests and acknowledgements, and Central, which keeps the first copy
 * of each event. Every step is one SQL statement, one transaction or one network action, so
 * runs interleave the two statements of MarkFailed as well.
 */
module DispatchProtocol {
  import opened Basics
  import opened OutboxTable

  /** What a dispatcher remembers between its statements. Owner strings need not be distinct. */
  datatype Phase =
    | Holding(id: string, owner: string)
    | Acked(id: string, owner: string)
    | Failing(id: string, owner: string, attempts: nat)

  datatype State = State(
    rows: Rows,
    consumed: map<string, string>,
    phases: map<nat, Phase>,
    wire: set<string>,      // events some dispatcher ever claimed; their requests may still arrive
    accepted: seq<string>)  // events Central has accepted, in order of first acceptance

  datatype Step =
    | Append(id: string, key: string, createdAt: string, availableAt: string)
    | Claim(d: nat, owner: string, now: string, id: string)
    | Deliver(id: string)
    | Acknowledge(d: nat)
    | MarkPublished(d: nat)
    | ReadAttempts(d: nat)
    | WriteFailure(d: nat, next: string)
    | Crash(d: nat)
    | RecoverStale(cutoff: string)
    | Recover(auth: Authorization, now: string)
    | Skip(id: string)

  const INIT := State(map[], map[], map[], {}, [])

  predicate Enabled(s: State, step: Step) {
    match step
    case Append(id, _, _, _) => id !in s.rows
    case Claim(_, _, now, id) => NextClaim(s.rows, id, now)
    case Deliver(id) => id in s.wire
    case Acknowledge(d) => d in s.phases && s.phases[d].Holding? && s.phases[d].id in s.accepted
    case MarkPublished(d) => d in s.phases && s.phases[d].Acked?
    case ReadAttempts(d) =>
      d in s.phases && s.phases[d].Holding? && Owned(s.rows, s.phases[d].id, s.phases[d].owner)
    case WriteFailure(d, _) => d in s.phases && s.phases[d].Failing?
    case Crash(d) => d in s.phases
    case RecoverStale(_) => true
    case Recover(auth, _) => Refusal(s.rows, s.consumed, Trimmed(auth)).None?
    case Skip(_) => true
  }

  /** A step that is not enabled changes nothing, so every sequence of steps is a run. */
  function Next(s: State, step: Step): State {
    if !Enabled(s, step) then s
    else match step
      case Append(id, key, createdAt, availableAt) =>
        s.(rows := s.rows[id := Row(key, createdAt, Pending, 0, availableAt, None, None)])
      case Claim(d, owner, now, id) =>
        s.(rows := Lock(s.rows, id, owner, now), phases := s.phases[d := Holding(id, owner)], wire := s.wire + {id})
      case Deliver(id) =>
        if id in s.accepted then s else s.(accepted := s.accepted + [id])
      case Acknowledge(d) =>
        s.(phases := s.phases[d := Acked(s.phases[d].id, s.phases[d].owner)])
      case MarkPublished(d) =>
        s.(rows := PublishOwned(s.rows, s.phases[d].id, s.phases[d].owner), phases := s.phases - {d})
      case ReadAttempts(d) =>
        var p := s.phases[d];
        s.(phases := s.phases[d := Failing(p.id, p.owner, s.rows[p.id].attempts + 1)])
      case WriteFailure(d, next) =>
        var p := s.phases[d];
        s.(rows := FailOwned(s.rows, p.id, p.owner, p.attempts, next), phases := s.phases - {d})
      case Crash(d) => s.(phases := s.phases - {d})
      case RecoverStale(cutoff) => s.(rows := ReleaseStale(s.rows, cutoff))
      case Recover(auth, now) =>
        var a := Trimmed(auth);
        s.(rows := Requeue(s.rows, a.eventId, now), consumed := s.consumed[a.recoveryId := a.eventId])
      case Skip(id) => s.(rows := SkipRow(s.rows, id))
  }

  function Run(s: State, steps: seq<Step>): State
    decreases |steps|
  {
    if |steps| == 0 then s else Run(Next(s, steps[0]), steps[1..])
  }

  // ---- what a run may assume ------------------------------------------------------------------

  /** The appended event does not sort before an event of its key that was already claimed. */
  predicate SortsAfterClaimed(s: State, id: string, key: string, createdAt: string) {
    forall f | f in s.wire && f in s.rows && s.rows[f].key == key ::
      !(Less(createdAt, s.rows[f].createdAt) || (createdAt == s.rows[f].createdAt && Less(id, f)))
  }

  predicate Allowed(s: State, step: Step) {
    step.Append? ==> SortsAfterClaimed(s, step.id, step.key, step.createdAt)
  }

  predicate AllAllowed(s: State, steps: seq<Step>)
    decreases |steps|
  {
    |steps| == 0 || (Allowed(s, steps[0]) && AllAllowed(Next(s, steps[0]), steps[1..]))
  }

  predicate NoSkips(steps: seq<Step>) {
    forall i | 0 <= i < |steps| :: !steps[i].Skip?
  }

  // ---- the claims -------------------------------------------------------------------------------

  /** An event ever claimed has every earlier event of its key published. */
  ghost predicate ClaimedInOrder(s: State) {
    forall e, id | id in s.wire && Precedes(s.rows, e, id) :: s.rows[e].status == Published
  }

  /** Attempts stay below the limit until the event dies, and a dead letter has exactly the limit. */
  ghost predicate AttemptsBounded(s: State) {
    forall id | id in s.rows ::
      && (s.rows[id].status == DeadLetter ==> s.rows[id].attempts == MAX_ATTEMPTS)
      && (s.rows[id].status == DeadLetter || s.rows[id].status == Published || s.rows[id].attempts < MAX_ATTEMPTS)
  }

  /** Central accepts an event only after all earlier events of its ordering key. */
  ghost predicate AcceptedInOrder(s: State) {
    forall i, e | 0 <= i < |s.accepted| && Precedes(s.rows, e, s.accepted[i]) :: e in s.accepted[..i]
  }

  ghost predicate AcceptedOnce(s: State) {
    forall i, j | 0 <= i < j < |s.accepted| :: s.accepted[i] != s.accepted[j]
  }

  ghost predicate PublishedIsAccepted(s: State) {
    forall id | id in s.rows && s.rows[id].status == Published :: id in s.accepted
  }

  // ---- invariants -------------------------------------------------------------------------------

  ghost predicate Bookkeeping(s: State) {
    && s.wire <= s.rows.Keys
    && (forall id | id in s.rows && (s.rows[id].status == Processing || s.rows[id].status == DeadLetter) ::
          id in s.wire)
    && (forall d | d in s.phases :: s.phases[d].id in s.wire)
    && (forall d | d in s.phases && s.phases[d].Failing? :: 1 <= s.phases[d].attempts <= MAX_ATTEMPTS)
    && (forall id | id in s.accepted :: id in s.wire)
  }

  /** Kept by every step, manual skips included. */
  ghost predicate Inv(s: State) {
    Bookkeeping(s) && ClaimedInOrder(s) && AttemptsBounded(s) && AcceptedOnce(s)
  }

  /** Kept by every step but a manual skip. */
  ghost predicate DeliveryInv(s: State) {
    && PublishedIsAccepted(s)
    && AcceptedInOrder(s)
    && (forall d | d in s.phases && s.phases[d].Acked? :: s.phases[d].id in s.accepted)
  }

  /** Statements other than an append keep the set of events and their order. */
  predicate SameOrder(rows: Rows, rows': Rows) {
    rows.Keys == rows'.Keys
      && forall id | id in rows :: rows[id].key == rows'[id].key && rows[id].createdAt == rows'[id].createdAt
  }

  lemma SameOrderPrecedes(rows: Rows, rows': Rows)
    requires SameOrder(rows, rows')
    ensures forall e, id :: Precedes(rows', e, id) <==> Precedes(rows, e, id)
  {
    hide Less;
  }

  lemma StepKeepsRows(s: State, step: Step)
    requires !step.Append?
    ensures SameOrder(s.rows, Next(s, step).rows)
    ensures forall id | id in s.rows && s.rows[id].status == Published :: Next(s, step).rows[id].status == Published
  {
    hide Less, Before, Precedes, Trim, WellFormed;
  }

  lemma StepKeepsOrder(s: State, step: Step)
    requires !step.Append?
    ensures SameOrder(s.rows, Next(s, step).rows)
    ensures forall e, id :: Precedes(Next(s, step).rows, e, id) <==> Precedes(s.rows, e, id)
    ensures forall id | id in s.rows && s.rows[id].status == Published :: Next(s, step).rows[id].status == Published
  {
    StepKeepsRows(s, step);
    hide Next;
    SameOrderPrecedes(s.rows, Next(s, step).rows);
  }

  lemma StepKeepsBookkeeping(s: State, step: Step)
    requires Bookkeeping(s) && AttemptsBounded(s)
    ensures Bookkeeping(Next(s, step))
  {
    hide Less, Before, Precedes, Trim;
  }

  lemma StepKeepsClaimedInOrder(s: State, step: Step)
    requires Bookkeeping(s) && ClaimedInOrder(s) && Allowed(s, step)
    ensures ClaimedInOrder(Next(s, step))
  {
    var t := Next(s, step);
    if step.Append? {
      hide Less;
      assert forall e, id | id in t.wire && Precedes(t.rows, e, id) && e != step.id :: Precedes(s.rows, e, id);
    } else {
      StepKeepsOrder(s, step);
      hide Precedes;
      forall e, id | id in t.wire && Precedes(t.rows, e, id) ensures t.rows[e].status == Published {
        assert Precedes(s.rows, e, id);
        if id in s.wire {
          assert s.rows[e].status == Published;
        }
      }
    }
  }

  lemma StepKeepsAttempts(s: State, step: Step)
    requires Bookkeeping(s) && AttemptsBounded(s)
    ensures AttemptsBounded(Next(s, step))
  {
    hide Less, Before, Precedes, Trim;
  }

  lemma StepKeepsInv(s: State, step: Step)
    requires Inv(s) && Allowed(s, step)
    ensures Inv(Next(s, step))
  {
    StepKeepsBookkeeping(s, step);
    StepKeepsClaimedInOrder(s, step);
    StepKeepsAttempts(s, step);
  }

  /** A step other than an append reveals no earlier event of an accepted one. */
  lemma AcceptedKeepsPredecessors(s: State, step: Step, e: string, id: string)
    requires Bookkeeping(s) && id in s.wire && Precedes(Next(s, step).rows, e, id)
    requires step.Append? ==> id in s.rows && SortsAfterClaimed(s, step.id, step.key, step.createdAt)
    ensures Precedes(s.rows, e, id)
  {
    hide Less;
    if !step.Append? {
      StepKeepsOrder(s, step);
    }
  }

  lemma StepAccepts(s: State, step: Step)
    requires Bookkeeping(s)
    ensures var t := Next(s, step);
            && (t.accepted == s.accepted || exists id :: id in s.wire && t.accepted == s.accepted + [id])
            && (forall id | id in s.accepted :: id in s.wire && id in s.rows)
  {
    hide Less, Before, Precedes, Trim;
  }

  lemma StepKeepsAcceptedInOrder(s: State, step: Step)
    requires Inv(s) && PublishedIsAccepted(s) && AcceptedInOrder(s) && Allowed(s, step)
    ensures AcceptedInOrder(Next(s, step))
  {
    var t := Next(s, step);
    StepAccepts(s, step);
    hide Next, Precedes, AttemptsBounded, AcceptedOnce;
    forall i, e | 0 <= i < |t.accepted| && Precedes(t.rows, e, t.accepted[i]) ensures e in t.accepted[..i] {
      var id := t.accepted[i];
      AcceptedKeepsPredecessors(s, step, e, id);
      if i < |s.accepted| {
        assert t.accepted[..i] == s.accepted[..i];
      } else {
        assert t.accepted[..i] == s.accepted;
        assert s.rows[e].status == Published;
      }
    }
  }

  lemma StepKeepsPublishedAccepted(s: State, step: Step)
    requires Bookkeeping(s) && PublishedIsAccepted(s) && !step.Skip?
    requires forall d | d in s.phases && s.phases[d].Acked? :: s.phases[d].id in s.accepted
    ensures var t := Next(s, step);
            PublishedIsAccepted(t) && forall d | d in t.phases && t.phases[d].Acked? :: t.phases[d].id in t.accepted
  {
  }

  lemma StepKeepsDelivery(s: State, step: Step)
    requires Inv(s) && DeliveryInv(s) && Allowed(s, step) && !step.Skip?
    ensures DeliveryInv(Next(s, step))
  {
    StepKeepsPublishedAccepted(s, step);
    StepKeepsAcceptedInOrder(s, step);
  }

  lemma {:induction false} RunKeepsInv(s: State, steps: seq<Step>)
    requires Inv(s) && AllAllowed(s, steps)
    ensures Inv(Run(s, steps))
    ensures DeliveryInv(s) && NoSkips(steps) ==> DeliveryInv(Run(s, steps))
    decreases |steps|
  {
    if |steps| > 0 {
      StepKeepsInv(s, steps[0]);
      if DeliveryInv(s) && NoSkips(steps) {
        StepKeepsDelivery(s, steps[0]);
      }
      RunKeepsInv(Next(s, steps[0]), steps[1..]);
    }
  }
}
