/** What the dispatch protocol guarantees over whole runs from an empty outbox. */
module DispatchTheorems {
  import opened Basics
  import opened OutboxTable
  import opened DispatchProtocol
  import Timestamps

  /**
   * End-to-end ordering. Whatever is lost, repeated, delayed, crashed, recovered or requeued,
   * published events have reached Central, and Central's log of first acceptances is complete
   * and in order per ordering key, with no event twice.
   */
  lemma OrderedDelivery(steps: seq<Step>)
    requires AllAllowed(INIT, steps) && NoSkips(steps)
    ensures PublishedIsAccepted(Run(INIT, steps))
    ensures AcceptedInOrder(Run(INIT, steps))
    ensures AcceptedOnce(Run(INIT, steps))
  {
    RunKeepsInv(INIT, steps);
  }

  /** Row `id` is the earliest unpublished event of its key. */
  ghost predicate Head(rows: Rows, id: string) {
    id in rows && rows[id].status != Published && forall e | Precedes(rows, e, id) :: rows[e].status == Published
  }

  /** The dead letter the reconciliation snapshot shows for a key: the first by (created_at, id). */
  predicate SnapshotHead(rows: Rows, key: string, id: string) {
    && id in rows && rows[id].key == key && rows[id].status == DeadLetter
    && forall o | o in rows && o != id && rows[o].key == key && rows[o].status == DeadLetter :: Before(rows, id, o)
  }

  /** Manual skips included: what blocks a key is one row, and the snapshot names it. */
  lemma DeadLetterIsTheHead(steps: seq<Step>, key: string, id: string)
    requires AllAllowed(INIT, steps)
    requires SnapshotHead(Run(INIT, steps).rows, key, id)
    ensures var rows := Run(INIT, steps).rows;
            && Head(rows, id)
            && rows[id].attempts == MAX_ATTEMPTS
            && (forall o | o in rows && rows[o].key == key && rows[o].status == DeadLetter :: o == id)
            && (forall o, now | o in rows && rows[o].key == key :: !Claimable(rows, o, now))
  {
    RunKeepsInv(INIT, steps);
    BeforeIsStrictTotal(Run(INIT, steps).rows);
  }

  /** At most one event of a key is being dispatched, and it is the head of its key. */
  lemma OneInFlightPerKey(steps: seq<Step>, a: string, b: string)
    requires AllAllowed(INIT, steps)
    requires var rows := Run(INIT, steps).rows;
             a in rows && b in rows && rows[a].key == rows[b].key
             && rows[a].status in {Processing, DeadLetter} && rows[b].status in {Processing, DeadLetter}
    ensures a == b && Head(Run(INIT, steps).rows, a)
  {
    RunKeepsInv(INIT, steps);
    BeforeIsStrictTotal(Run(INIT, steps).rows);
  }

  lemma LiveAttemptsBelowLimit(steps: seq<Step>)
    requires AllAllowed(INIT, steps)
    ensures AttemptsBounded(Run(INIT, steps))
  {
    RunKeepsInv(INIT, steps);
  }

  // ---- authorised recovery is consumed once ---------------------------------------------------------

  predicate UsesRecovery(s: State, step: Step, recoveryId: string) {
    step.Recover? && Enabled(s, step) && Trimmed(step.auth).recoveryId == recoveryId
  }

  /** How many requeues a recovery id brought about in a run. */
  function Requeues(s: State, steps: seq<Step>, recoveryId: string): nat
    decreases |steps|
  {
    if |steps| == 0 then 0
    else (if UsesRecovery(s, steps[0], recoveryId) then 1 else 0) + Requeues(Next(s, steps[0]), steps[1..], recoveryId)
  }

  lemma {:induction false} RecoveryConsumedOnce(s: State, steps: seq<Step>, recoveryId: string)
    ensures Requeues(s, steps, recoveryId) <= 1
    ensures recoveryId in s.consumed ==> Requeues(s, steps, recoveryId) == 0
    decreases |steps|
  {
    if |steps| > 0 {
      RecoveryConsumedOnce(Next(s, steps[0]), steps[1..], recoveryId);
    }
  }

  /** A recovery that goes through revives the blocking event alone; one that fails consumes nothing. */
  lemma RecoveryRevivesTheHead(steps: seq<Step>, auth: Authorization, now: string)
    requires AllAllowed(INIT, steps)
    ensures var s := Run(INIT, steps);
            var t := Next(s, Recover(auth, now));
            var a := Trimmed(auth);
            if Refusal(s.rows, s.consumed, a).Some? then t == s
            else Head(s.rows, a.eventId) && Claimable(t.rows, a.eventId, now)
                 && t.rows[a.eventId].attempts == 0 && t.rows - {a.eventId} == s.rows - {a.eventId}
                 && a.recoveryId in t.consumed && t.wire == s.wire && t.accepted == s.accepted
  {
    RunKeepsInv(INIT, steps);
    var s := Run(INIT, steps);
    hide Run, AllAllowed, Trimmed, Less, Before;
    if Refusal(s.rows, s.consumed, Trimmed(auth)).None? {
      LessIrreflexive(now);
      StepKeepsOrder(s, Recover(auth, now));
    }
  }

  // ---- exactly which appends keep the order ----------------------------------------------------------

  /**
   * An append keeps Central's log in order in every continuation if and only if the new event
   * does not sort before an event of its key that was already claimed.
   */
  lemma AppendKeepsOrderExactlyWhen(s: State, id: string, key: string, createdAt: string, availableAt: string)
    requires Inv(s) && DeliveryInv(s) && id !in s.rows
    ensures SortsAfterClaimed(s, id, key, createdAt) <==>
            var t := Next(s, Append(id, key, createdAt, availableAt));
            forall steps | AllAllowed(t, steps) && NoSkips(steps) :: AcceptedInOrder(Run(t, steps))
  {
    var step := Append(id, key, createdAt, availableAt);
    var t := Next(s, step);
    if SortsAfterClaimed(s, id, key, createdAt) {
      StepKeepsInv(s, step);
      StepKeepsDelivery(s, step);
      forall steps | AllAllowed(t, steps) && NoSkips(steps) ensures AcceptedInOrder(Run(t, steps)) {
        RunKeepsInv(t, steps);
      }
    } else {
      var f :| f in s.wire && f in s.rows && s.rows[f].key == key
               && (Less(createdAt, s.rows[f].createdAt) || (createdAt == s.rows[f].createdAt && Less(id, f)));
      assert Precedes(t.rows, id, f);
      LateAppendBreaksOrder(s, t, id, f);
    }
  }

  lemma LateAppendBreaksOrder(s: State, t: State, id: string, f: string)
    requires Inv(s) && id !in s.rows && f in s.wire && t == s.(rows := t.rows) && Precedes(t.rows, id, f)
    ensures exists steps :: AllAllowed(t, steps) && NoSkips(steps) && !AcceptedInOrder(Run(t, steps))
  {
    assert id !in s.accepted;
    var steps := [Deliver(f)];
    assert steps[1..] == [];
    var u := Run(t, steps);
    assert u == Next(t, Deliver(f)) by {
      assert Run(Next(t, steps[0]), []) == Next(t, steps[0]);
    }
    assert AllAllowed(Next(t, steps[0]), steps[1..]);
    var i :| 0 <= i < |u.accepted| && u.accepted[i] == f;
    assert id !in u.accepted[..i];
  }

  /** An event is dispatched, then another of its key is appended; the texts are their created_at. */
  function AppendAfterDelivery(first: string, later: string): seq<Step> {
    [Append("a", "k", first, first), Claim(0, "sync", first, "a"), Deliver("a"), Append("b", "k", later, later)]
  }

  lemma AppendAfterDeliveryRun(first: string, later: string)
    ensures var t := Run(INIT, AppendAfterDelivery(first, later));
            t.accepted == ["a"] && t.rows.Keys == {"a", "b"} && t.rows["a"].key == t.rows["b"].key
            && t.rows["a"].createdAt == first && t.rows["b"].createdAt == later
  {
    LessIrreflexive(first);
    LessIrreflexive("a");
    var steps := AppendAfterDelivery(first, later);
    var s1 := Next(INIT, steps[0]);
    assert NextClaim(s1.rows, "a", first);
    var s2 := Next(s1, steps[1]);
    var s3 := Next(s2, steps[2]);
    var s4 := Next(s3, steps[3]);
    assert steps[1..][1..][1..][1..] == [];
    assert Run(INIT, steps) == Run(s1, steps[1..]) == Run(s2, steps[1..][1..]) == Run(s3, steps[1..][1..][1..]) == s4;
  }

  /**
   * So the order can break although time moves forward: the later event overtakes exactly when
   * its fraction continues the earlier one, as half past follows the whole second.
   */
  lemma LaterEventOvertakesExactlyWhen(second: string, a: string, b: string)
    requires Timestamps.Digits(a) && Timestamps.Digits(b) && |a| == |b| && Timestamps.Value(a) < Timestamps.Value(b)
    ensures var steps := AppendAfterDelivery(Timestamps.Format(second, a), Timestamps.Format(second, b));
            !AcceptedInOrder(Run(INIT, steps)) <==> Timestamps.Strip(a) <= Timestamps.Strip(b)
  {
    var first, later := Timestamps.Format(second, a), Timestamps.Format(second, b);
    AppendAfterDeliveryRun(first, later);
    var t := Run(INIT, AppendAfterDelivery(first, later));
    Timestamps.TextOrderIsTimeOrder(second, a, b);
    BeforeIsStrictTotal(t.rows);
    assert Precedes(t.rows, "b", "a") <==> !Less(first, later) by {
      assert !Less("b", "a") && Less("a", "b");
      LessTotal(first, later);
      if Less(first, later) && Less(later, first) { LessTransitive(first, later, first); LessIrreflexive(first); }
      if first == later { LessIrreflexive(first); Timestamps.FormatInjective(second, a, b); }
    }
    assert t.accepted[..0] == [] && t.accepted[0] == "a";
  }

  /** Half a second after a delivered event of 10:00:00, an event of the same key overtakes it. */
  lemma HalfASecondLaterOvertakes()
    ensures var steps := AppendAfterDelivery("2024-05-01T10:00:00Z", "2024-05-01T10:00:00.5Z");
            AllAllowed(INIT, steps[..3]) && NoSkips(steps) && !AcceptedInOrder(Run(INIT, steps))
  {
    var first, later := "2024-05-01T10:00:00Z", "2024-05-01T10:00:00.5Z";
    WholeAndHalf();
    hide Timestamps.Strip, Timestamps.Value, Timestamps.Format, AcceptedInOrder, Run, AllAllowed;
    LaterEventOvertakesExactlyWhen("2024-05-01T10:00:00", "000000000", "500000000");
    FirstStepsAllowed(first, later);
  }

  lemma FirstStepsAllowed(first: string, later: string)
    ensures AllAllowed(INIT, AppendAfterDelivery(first, later)[..3]) && NoSkips(AppendAfterDelivery(first, later))
  {
    var steps := AppendAfterDelivery(first, later)[..3];
    var rest, last := [Claim(0, "sync", first, "a"), Deliver("a")], [Deliver("a")];
    assert steps[1..] == rest && rest[1..] == last && last[1..] == [];
    hide Next, Less;
    var s1 := Next(INIT, steps[0]);
    assert AllAllowed(Next(s1, rest[0]), last);
    assert AllAllowed(s1, rest);
  }

  lemma WholeAndHalf()
    ensures var whole, half, second := "000000000", "500000000", "2024-05-01T10:00:00";
            && Timestamps.Digits(whole) && Timestamps.Digits(half) && Timestamps.Value(whole) < Timestamps.Value(half)
            && Timestamps.Strip(whole) == "" && Timestamps.Strip(half) == "5"
            && Timestamps.Format(second, whole) == "2024-05-01T10:00:00Z"
            && Timestamps.Format(second, half) == "2024-05-01T10:00:00.5Z"
  {
    hide Timestamps.Value, Timestamps.Strip, Timestamps.Tail, Less;
    StripsTo("000000000", 9, "");
    StripsTo("500000000", 8, "5");
    HalfIsMore();
    TailOfHalf();
  }

  lemma HalfIsMore()
    ensures Timestamps.Value("000000000") < Timestamps.Value("500000000")
  {
    hide Timestamps.Value;
    var whole, half := "000000000", "500000000";
    assert Less(whole, half) by { assert whole[0] < half[0]; }
    Timestamps.ValueOrder(whole, half);
  }

  lemma TailOfHalf()
    ensures Timestamps.Tail("5") == ".5Z" && Timestamps.Tail("") == "Z"
  {
    assert "." + "5" + "Z" == ".5Z";
  }

  lemma {:induction false} StripsTo(n: string, zeros: nat, rest: string)
    requires zeros + |rest| == |n| && n[..|rest|] == rest && forall i | |rest| <= i < |n| :: n[i] == '0'
    requires |rest| > 0 ==> rest[|rest| - 1] != '0'
    ensures Timestamps.Strip(n) == rest
    decreases zeros
  {
    if zeros == 0 {
      assert n == rest;
    } else {
      assert n[..|n| - 1][..|rest|] == rest;
      StripsTo(n[..|n| - 1], zeros - 1, rest);
    }
  }
}
