/**
  What every transaction keeps of the contract's attempts and paid periods: one attempt a cycle, one period for each
  settled attempt, and periods that follow one another along the boundaries of the original anchor.
*/
module BillingCore {
  import opened Prelude
  import opened BillingCalendar
  import opened BillingRows

  /** The statuses of an attempt whose dispatch marker was never written. */
  predicate Undispatched(s: AttemptStatus) {
    s == Created || s == CanceledBeforeDispatch
  }

  /** The end of the period of cycle `n - 1`, which is where cycle `n` starts. */
  function EndOf(c: Contract, n: nat): Time
    requires c.originalAnchor.Some? && c.planId.Some?
  {
    Boundary(c.originalAnchor.value, Months(c.planId.value) * n)
  }

  predicate CatalogQuote(q: Quote) {
    q.totalAmount == Price(q.planId) && q.periodMonths == Months(q.planId)
  }

  predicate AttemptOk(r: Rows, i: nat)
    requires i < |r.attempts|
  {
    var a := r.attempts[i];
    && a.cycle == i
    && a.quoteId < |r.quotes| && a.instrumentId < |r.instruments|
    && a.totalAmount == r.quotes[a.quoteId].totalAmount
    && (r.c.planId.Some? ==> r.quotes[a.quoteId].planId == r.c.planId.value)
    && (Settled(a.status) <==> i < r.c.nextCycle)
    && (Undispatched(a.status) <==> a.dispatchAt.None?)
  }

  predicate PeriodOk(r: Rows, i: nat)
    requires i < |r.periods| && r.c.originalAnchor.Some? && r.c.planId.Some?
  {
    var p := r.periods[i];
    && p.attemptId == i && p.cycle == i
    && p.startsAt == (if i == 0 then r.c.originalAnchor.value else EndOf(r.c, i))
    && p.endsAt == EndOf(r.c, i + 1)
    && p.startsAt <= p.accessEndsAt <= p.endsAt
  }

  /** A renewal's marker carries the very instant its period starts. */
  predicate DispatchOk(r: Rows, i: nat, now: Time)
    requires i < |r.attempts|
  {
    var at := r.attempts[i].dispatchAt;
    at.Some? ==> at.value <= now && (i > 0 ==> r.c.originalAnchor.Some? && r.c.planId.Some? && at.value == EndOf(r.c, i))
  }

  predicate Core(r: Rows, now: Time) {
    && (|r.attempts| == r.c.nextCycle || |r.attempts| == r.c.nextCycle + 1)
    && |r.periods| == r.c.nextCycle
    && (r.c.planId.Some? <==> r.c.nextCycle > 0)
    && (r.c.originalAnchor.Some? <==> r.c.nextCycle > 0)
    && (r.c.originalAnchor.Some? ==> r.c.originalAnchor.value <= now)
    && (forall i :: 0 <= i < |r.quotes| ==> CatalogQuote(r.quotes[i]))
    && (forall i :: 0 <= i < |r.attempts| ==> AttemptOk(r, i))
    && (forall i :: 0 <= i < |r.attempts| ==> DispatchOk(r, i, now))
    && (forall i :: 0 <= i < |r.periods| ==> PeriodOk(r, i))
  }

  // ----- Transactions that settle nothing -----

  predicate SteadyAttempt(a: Attempt, b: Attempt) {
    && b.cycle == a.cycle && b.quoteId == a.quoteId && b.instrumentId == a.instrumentId && b.totalAmount == a.totalAmount
    && b.dispatchAt == a.dispatchAt
    && (Settled(b.status) <==> Settled(a.status))
    && (Undispatched(b.status) <==> Undispatched(a.status))
  }

  predicate SteadyPeriod(p: Period, q: Period) {
    q == p || (q == p.(accessEndsAt := q.accessEndsAt) && q.startsAt <= q.accessEndsAt
               && (p.startsAt <= p.endsAt && p.accessEndsAt <= p.endsAt ==> q.accessEndsAt <= q.endsAt))
  }

  /** Rows that changed without a new attempt, marker or period. */
  predicate Steady(r: Rows, s: Rows) {
    && s.c.nextCycle == r.c.nextCycle && s.c.planId == r.c.planId && s.c.originalAnchor == r.c.originalAnchor
    && |r.quotes| <= |s.quotes| && |r.instruments| <= |s.instruments|
    && (forall i :: 0 <= i < |r.quotes| ==> s.quotes[i].planId == r.quotes[i].planId && s.quotes[i].totalAmount == r.quotes[i].totalAmount && s.quotes[i].periodMonths == r.quotes[i].periodMonths)
    && (forall i :: |r.quotes| <= i < |s.quotes| ==> CatalogQuote(s.quotes[i]))
    && |s.attempts| == |r.attempts| && (forall i :: 0 <= i < |r.attempts| ==> SteadyAttempt(r.attempts[i], s.attempts[i]))
    && |s.periods| == |r.periods| && (forall i :: 0 <= i < |r.periods| ==> SteadyPeriod(r.periods[i], s.periods[i]))
  }

  lemma SteadyKeepsCore(r: Rows, s: Rows, now: Time, later: Time)
    requires Core(r, now) && Steady(r, s) && now <= later
    ensures Core(s, later)
  {
    hide Boundary;
    forall i | 0 <= i < |s.attempts|
      ensures AttemptOk(s, i) && DispatchOk(s, i, later)
    {
      assert AttemptOk(r, i) && DispatchOk(r, i, now) && SteadyAttempt(r.attempts[i], s.attempts[i]);
    }
    forall i | 0 <= i < |s.periods|
      ensures PeriodOk(s, i)
    {
      assert PeriodOk(r, i) && SteadyPeriod(r.periods[i], s.periods[i]);
    }
    forall i | 0 <= i < |s.quotes|
      ensures CatalogQuote(s.quotes[i])
    {
      if i < |r.quotes| {
        assert CatalogQuote(r.quotes[i]);
      }
    }
  }

  lemma CreateQuoteSteady(r: Rows, plan: Plan, terms: nat, k: Readings)
    ensures var tx := CreateQuoteTx(r, plan, terms, k); tx.Ok? ==> Steady(r, tx.rows)
  {
  }

  lemma PrepareSteady(r: Rows, quoteId: Id, terms: nat, k: Readings)
    ensures var tx := PrepareTx(r, quoteId, terms, k); tx.Ok? ==> Steady(r, tx.rows)
  {
  }

  lemma ConfirmSteady(r: Rows, i: Id, bound: bool, terms: nat, keyVersion: nat, k: Readings)
    ensures var tx := ConfirmTx(r, i, bound, terms, keyVersion, k); tx.Ok? ==> Steady(r, tx.rows)
  {
  }

  lemma ReleaseDispatchSteady(r: Rows, id: Id, now: Time)
    requires id < |r.attempts|
    ensures Steady(r, ReleaseDispatchTx(r, id, now))
  {
  }

  lemma ReconcileClaimSteady(r: Rows, id: Id, force: bool, token: nat, now: Time)
    requires id < |r.attempts|
    ensures Steady(r, ReconcileClaimTx(r, id, force, token, now).0)
  {
  }

  lemma ReconcileSettledSteady(r: Rows, mock: bool, id: Id, result: LookupResult, k: Readings)
    requires id < |r.attempts| && Settled(r.attempts[id].status)
    ensures var tx := ReconcileSettledTx(r, mock, id, result, k); tx.Ok? ==> Steady(r, tx.rows)
  {
    hide ApplyCancellations, Matches;
  }

  lemma CancelSteady(r: Rows)
    ensures var tx := CancelTx(r); tx.Ok? ==> Steady(r, tx.rows)
  {
  }

  lemma CancelVerifySteady(r: Rows, mock: bool, version: nat, now: Time)
    ensures Steady(r, CancelVerifyTx(r, mock, version, now))
  {
  }

  lemma CommitRefundSteady(r: Rows, id: Id, token: nat, fence: nat, approval: Option<nat>, found: CancellationFound, k: Readings)
    requires id < |r.refunds| && r.refunds[id].attemptId < |r.attempts|
        && Settled(r.attempts[r.refunds[id].attemptId].status)
    ensures var tx := CommitRefundTx(r, id, token, fence, approval, found, k); tx.Ok? ==> Steady(r, tx.rows)
  {
    hide CancelIdTaken;
  }

  // ----- Transactions that add an attempt, a marker or a period -----

  lemma ChargeKeepsCore(r: Rows, input: ChargeInput, terms: nat, paymentId: nat, k: Readings, now: Time)
    requires Core(r, now) && now <= k.last
    ensures var tx := ChargeTx(r, input, terms, paymentId, k); tx.Ok? ==> Core(tx.rows, k.last)
  {
    hide Boundary, EndOf;
    if |r.attempts| > 0 {
      assert AttemptOk(r, |r.attempts| - 1);
    }
    var tx := ChargeTx(r, input, terms, paymentId, k);
    if tx.Ok? {
      var s := tx.rows;
      if |s.attempts| == |r.attempts| {
        SteadyKeepsCore(r, r, now, k.last);
      } else {
        assert r.c.nextCycle == 0 && |r.attempts| == 0;
        assert CatalogQuote(r.quotes[input.quoteId]);
      }
    }
  }

  lemma {:induction false} RenewKeepsCore(r: Rows, terms: nat, paymentId: nat, k: Readings, now: Time)
    requires Core(r, now) && now <= k.last
    requires forall i :: 0 <= i < |r.attempts| ==> r.attempts[i].quoteId < |r.quotes| && r.attempts[i].instrumentId < |r.instruments|
    ensures var tx := RenewTx(r, terms, paymentId, k); tx.Ok? ==> Core(tx.rows, k.last)
  {
    hide Boundary, EndOf;
    var tx := RenewTx(r, terms, paymentId, k);
    if tx.Ok? {
      var s := tx.rows;
      if |s.attempts| == |r.attempts| {
        assert Steady(r, s);
        SteadyKeepsCore(r, s, now, k.last);
      } else {
        RenewAppends(r, terms, paymentId, k, now);
      }
    }
  }

  lemma {:induction false} RenewAppends(r: Rows, terms: nat, paymentId: nat, k: Readings, now: Time)
    requires Core(r, now) && now <= k.last
    requires forall i :: 0 <= i < |r.attempts| ==> r.attempts[i].quoteId < |r.quotes| && r.attempts[i].instrumentId < |r.instruments|
    requires RenewTx(r, terms, paymentId, k).Ok? && |RenewTx(r, terms, paymentId, k).rows.attempts| != |r.attempts|
    ensures Core(RenewTx(r, terms, paymentId, k).rows, k.last)
  {
    hide Boundary, EndOf;
    var s := RenewTx(r, terms, paymentId, k).rows;
    if |r.attempts| > 0 {
      assert AttemptOk(r, |r.attempts| - 1);
    }
    assert |r.attempts| == r.c.nextCycle;
    forall i | 0 <= i < |s.attempts|
      ensures AttemptOk(s, i) && DispatchOk(s, i, k.last)
    {
      if i < |r.attempts| {
        assert AttemptOk(r, i) && DispatchOk(r, i, now) && s.attempts[i] == r.attempts[i];
      }
    }
    forall i | 0 <= i < |s.periods|
      ensures PeriodOk(s, i)
    {
      assert PeriodOk(r, i);
    }
  }

  lemma DispatchKeepsCore(r: Rows, id: Id, terms: nat, keyVersion: nat, decryptable: bool, k: Readings, now: Time)
    requires Core(r, now) && now <= k.first <= k.last
    requires id < |r.attempts| && r.attempts[id].quoteId < |r.quotes| && r.attempts[id].instrumentId < |r.instruments|
    ensures var tx := DispatchTx(r, id, terms, keyVersion, decryptable, k); tx.Ok? ==> Core(tx.rows, k.last)
  {
    hide Boundary;
    var tx := DispatchTx(r, id, terms, keyVersion, decryptable, k);
    assert AttemptOk(r, id);
    if tx.Ok? {
      if tx.out.Send? {
        var s := tx.rows;
        assert CatalogQuote(r.quotes[r.attempts[id].quoteId]);
        forall i | 0 <= i < |s.attempts|
          ensures AttemptOk(s, i) && DispatchOk(s, i, k.last)
        {
          assert AttemptOk(r, i) && DispatchOk(r, i, now);
        }
        forall i | 0 <= i < |s.periods|
          ensures PeriodOk(s, i)
        {
          assert PeriodOk(r, i);
        }
      } else {
        assert Steady(r, tx.rows);
        SteadyKeepsCore(r, tx.rows, now, k.last);
      }
    }
  }

  lemma PeriodsInOrder(r: Rows, now: Time)
    requires Core(r, now)
    ensures LatestPeriod(r.periods) == if r.c.nextCycle == 0 then None else Some(r.c.nextCycle - 1)
    ensures forall i :: 0 <= i < |r.periods| ==> r.periods[i].cycle == i && r.periods[i].attemptId == i
  {
    hide Boundary, LatestPeriod;
    forall i | 0 <= i < |r.periods|
      ensures r.periods[i].cycle == i && r.periods[i].attemptId == i
    {
      assert PeriodOk(r, i);
    }
    assert LatestPeriod(r.periods).Some? ==> r.periods[LatestPeriod(r.periods).value].cycle >= r.periods[r.c.nextCycle - 1].cycle;
  }

  /** The next period starts where the last one ended and ends later, so a payment always finds its place. */
  lemma NextPeriodFits(r: Rows, now: Time, id: Id, paidAt: Time)
    requires Core(r, now) && id < |r.attempts| && r.attempts[id].quoteId < |r.quotes| && !Settled(r.attempts[id].status)
    ensures id == r.c.nextCycle && FindPeriod(r.periods, id).None?
    ensures r.quotes[r.attempts[id].quoteId].periodMonths == Months(r.quotes[r.attempts[id].quoteId].planId)
    ensures id == 0 ==> Boundary(paidAt, Months(r.quotes[r.attempts[id].quoteId].planId) * 1) > paidAt
    ensures id > 0 ==> r.quotes[r.attempts[id].quoteId].planId == r.c.planId.value
    ensures id > 0 ==> r.periods[id - 1].endsAt == EndOf(r.c, id) && EndOf(r.c, id) < EndOf(r.c, id + 1)
  {
    hide Boundary, FindPeriod;
    var q := r.quotes[r.attempts[id].quoteId];
    assert AttemptOk(r, id);
    assert CatalogQuote(q);
    PeriodsInOrder(r, now);
    if id == 0 {
      BoundaryAfterAnchor(paidAt, Months(q.planId) * 1);
    } else {
      EndsIncrease(r.c, id);
      assert PeriodOk(r, id - 1);
    }
  }

  lemma {:induction false} EndsIncrease(c: Contract, n: nat)
    requires c.originalAnchor.Some? && c.planId.Some?
    ensures EndOf(c, n) < EndOf(c, n + 1)
  {
    hide Boundary;
    BoundaryIncreases(c.originalAnchor.value, Months(c.planId.value) * n, Months(c.planId.value) * (n + 1));
  }

  lemma {:induction false} SettleKeepsCore(r: Rows, id: Id, paidAt: Time, canceled: int, k: Readings, now: Time)
    requires Core(r, now) && now <= k.first <= k.last && paidAt <= k.first
    requires id < |r.attempts| && r.attempts[id].quoteId < |r.quotes| && !Settled(r.attempts[id].status)
        && r.attempts[id].dispatchAt.Some?
    ensures SettleTx(r, id, paidAt, canceled, k).Ok?
    ensures Core(SettleTx(r, id, paidAt, canceled, k).rows, k.last)
  {
    hide Boundary;
    NextPeriodFits(r, now, id, paidAt);
    PeriodsInOrder(r, now);
    assert AttemptOk(r, id) && DispatchOk(r, id, now);
    var s := SettleTx(r, id, paidAt, canceled, k).rows;
    forall i | 0 <= i < |s.attempts|
      ensures AttemptOk(s, i) && DispatchOk(s, i, k.last)
    {
      assert AttemptOk(r, i) && DispatchOk(r, i, now);
    }
    forall i | 0 <= i < |s.periods|
      ensures PeriodOk(s, i)
    {
      if i < |r.periods| {
        assert PeriodOk(r, i);
      }
    }
  }
}
