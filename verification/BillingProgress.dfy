/**
  What no transaction ever undoes: an attempt's identity, its dispatch marker, being settled or under review; the
  contract's stop flags; the identity of refund records; fences only grow.
*/
module BillingProgress {
  import opened Prelude
  import opened BillingCalendar
  import opened BillingRows

  predicate AttemptAdvances(a: Attempt, b: Attempt) {
    && b.cycle == a.cycle && b.quoteId == a.quoteId && b.instrumentId == a.instrumentId && b.paymentId == a.paymentId
    && b.key == a.key && b.binding == a.binding && b.totalAmount == a.totalAmount
    && (a.dispatchAt.Some? ==> b.dispatchAt == a.dispatchAt)
    && (Settled(a.status) ==> Settled(b.status)) && (a.status == Refunded ==> b.status == Refunded)
    && (b.status == Created ==> a.status == Created)
    && (a.reviewRequired ==> b.reviewRequired)
    && a.fence <= b.fence
  }

  predicate RefundAdvances(f: Refund, g: Refund) {
    && g.attemptId == f.attemptId && g.key == f.key && g.reason == f.reason && g.requestAmount == f.requestAmount
    && (g.status == Requested ==> f.status == Requested)
    && (f.verifiedAmount.Some? ==> g.verifiedAmount.Some?)
    && f.fence <= g.fence
  }

  predicate ReceiptAdvances(e: Receipt, f: Receipt) {
    f.eventId == e.eventId && f.paymentId == e.paymentId && f.expectation == e.expectation && f.receivedAt == e.receivedAt
  }

  predicate PeriodAdvances(p: Period, q: Period) {
    q == p.(accessEndsAt := q.accessEndsAt)
  }

  predicate ContractAdvances(c: Contract, d: Contract) {
    && d.scope == c.scope && c.nextCycle <= d.nextCycle && c.version <= d.version
    && (d.hasUser ==> c.hasUser)
    && (c.originalAnchor.Some? ==> d.originalAnchor == c.originalAnchor)
    && (c.cancelRequested ==> d.cancelRequested) && (c.renewalStopped ==> d.renewalStopped)
    && (c.renewalReviewRequired ==> d.renewalReviewRequired)
  }

  predicate Advances(r: Rows, s: Rows) {
    && ContractAdvances(r.c, s.c)
    && |r.attempts| <= |s.attempts| && (forall i :: 0 <= i < |r.attempts| ==> AttemptAdvances(r.attempts[i], s.attempts[i]))
    && |r.refunds| <= |s.refunds| && (forall i :: 0 <= i < |r.refunds| ==> RefundAdvances(r.refunds[i], s.refunds[i]))
    && |r.receipts| <= |s.receipts| && (forall i :: 0 <= i < |r.receipts| ==> ReceiptAdvances(r.receipts[i], s.receipts[i]))
    && |r.periods| <= |s.periods| && (forall i :: 0 <= i < |r.periods| ==> PeriodAdvances(r.periods[i], s.periods[i]))
    && |r.instruments| <= |s.instruments|
  }

  lemma AdvancesReflexive(r: Rows)
    ensures Advances(r, r)
  {
  }

  lemma AdvancesTransitive(r: Rows, s: Rows, t: Rows)
    requires Advances(r, s) && Advances(s, t)
    ensures Advances(r, t)
  {
    forall i | 0 <= i < |r.attempts|
      ensures AttemptAdvances(r.attempts[i], t.attempts[i])
    {
      assert AttemptAdvances(r.attempts[i], s.attempts[i]) && AttemptAdvances(s.attempts[i], t.attempts[i]);
    }
    forall i | 0 <= i < |r.refunds|
      ensures RefundAdvances(r.refunds[i], t.refunds[i])
    {
      assert RefundAdvances(r.refunds[i], s.refunds[i]) && RefundAdvances(s.refunds[i], t.refunds[i]);
    }
    forall i | 0 <= i < |r.receipts|
      ensures ReceiptAdvances(r.receipts[i], t.receipts[i])
    {
      assert ReceiptAdvances(r.receipts[i], s.receipts[i]) && ReceiptAdvances(s.receipts[i], t.receipts[i]);
    }
    forall i | 0 <= i < |r.periods|
      ensures PeriodAdvances(r.periods[i], t.periods[i])
    {
      assert PeriodAdvances(r.periods[i], s.periods[i]) && PeriodAdvances(s.periods[i], t.periods[i]);
    }
  }

  lemma ChargeAdvances(r: Rows, input: ChargeInput, terms: nat, paymentId: nat, k: Readings)
    ensures var tx := ChargeTx(r, input, terms, paymentId, k); tx.Ok? ==> Advances(r, tx.rows)
  {
  }

  lemma {:induction false} RenewAdvances(r: Rows, terms: nat, paymentId: nat, k: Readings)
    requires forall i :: 0 <= i < |r.attempts| ==> r.attempts[i].quoteId < |r.quotes| && r.attempts[i].instrumentId < |r.instruments|
    ensures var tx := RenewTx(r, terms, paymentId, k); tx.Ok? ==> Advances(r, tx.rows)
  {
    hide Boundary;
  }

  lemma DispatchAdvances(r: Rows, id: Id, terms: nat, keyVersion: nat, decryptable: bool, k: Readings)
    requires id < |r.attempts| && r.attempts[id].quoteId < |r.quotes| && r.attempts[id].instrumentId < |r.instruments|
    ensures var tx := DispatchTx(r, id, terms, keyVersion, decryptable, k); tx.Ok? ==> Advances(r, tx.rows)
  {
    hide Boundary;
  }

  lemma {:induction false} ApplyAdvances(refunds: seq<Refund>, attemptId: Id, mock: bool, xs: seq<Cancellation>, now: Time)
    ensures var out := ApplyCancellations(refunds, attemptId, mock, xs, now);
      out.Applied? ==> |out.refunds| == |refunds| && forall i :: 0 <= i < |refunds| ==> RefundAdvances(refunds[i], out.refunds[i])
    decreases |xs|
  {
    hide CancelIdTaken, FindRefund;
    if xs != [] {
      ApplyAdvances(refunds, attemptId, mock, xs[1..], now);
      var j := FindRefund(refunds, attemptId, xs[0]);
      if j.Some? {
        ApplyAdvances(refunds[j.value := VerifyRefund(refunds[j.value], xs[0].cancelId, xs[0].amount, now)], attemptId, mock, xs[1..], now);
      }
    }
  }

  lemma ReconcileSettledAdvances(r: Rows, mock: bool, id: Id, result: LookupResult, k: Readings)
    requires id < |r.attempts| && Settled(r.attempts[id].status)
    ensures var tx := ReconcileSettledTx(r, mock, id, result, k); tx.Ok? ==> Advances(r, tx.rows)
  {
    hide ApplyCancellations, Matches, FindPeriod;
    if result.Evidence? {
      ApplyAdvances(r.refunds, id, mock, result.payment.cancellations, k.first);
    }
  }

  lemma SettleAdvances(r: Rows, id: Id, paidAt: Time, canceled: int, k: Readings)
    requires id < |r.attempts| && r.attempts[id].quoteId < |r.quotes| && !Settled(r.attempts[id].status)
        && r.attempts[id].cycle >= r.c.nextCycle
    ensures var tx := SettleTx(r, id, paidAt, canceled, k); tx.Ok? ==> Advances(r, tx.rows)
  {
    hide Boundary, LatestPeriod, FindPeriod;
  }

  lemma {:induction false} ReconcileCommitAdvances(r: Rows, mock: bool, id: Id, token: nat, fence: nat, result: LookupResult, k: Readings)
    requires id < |r.attempts| && r.attempts[id].quoteId < |r.quotes| && (Settled(r.attempts[id].status)
        || r.attempts[id].cycle >= r.c.nextCycle)
    requires r.attempts[id].status != Created || r.attempts[id].leaseOwner != Some(Worker(token))
    ensures var tx := ReconcileCommitTx(r, mock, id, token, fence, result, k); tx.Ok? ==> Advances(r, tx.rows)
  {
    hide ReconcileSettledTx, SettleTx, Matches, Pow2;
    if Settled(r.attempts[id].status) {
      ReconcileSettledAdvances(r, mock, id, result, k);
    } else if result.Evidence? && result.payment.paidAt.Some? {
      SettleAdvances(r, id, result.payment.paidAt.value, result.payment.cancelledAmount, k);
    }
  }

  lemma CommitRefundAdvances(r: Rows, id: Id, token: nat, fence: nat, approval: Option<nat>, found: CancellationFound, k: Readings)
    requires id < |r.refunds| && r.refunds[id].attemptId < |r.attempts|
    ensures var tx := CommitRefundTx(r, id, token, fence, approval, found, k); tx.Ok? ==> Advances(r, tx.rows)
  {
    hide CancelIdTaken, FindPeriod;
  }

  lemma RefundRowsAdvance(r: Rows, id: Id, token: nat, k: Readings)
    requires id < |r.refunds| && r.refunds[id].attemptId < |r.attempts|
    ensures forall mock :: var tx := RefundClaimTx(r, mock, id, token, k); tx.Ok? ==> Advances(r, tx.rows)
    ensures forall consistent :: Advances(r, AuditClaimTx(r, id, token, consistent, k).0)
  {
  }
}
