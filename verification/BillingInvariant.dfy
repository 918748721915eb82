/** The invariant of the billing protocol: what holds of the rows, the calls in flight and the log together. */
module BillingInvariant {
  import opened Prelude
  import opened BillingCalendar
  import opened BillingRows
  import opened BillingCore
  import opened BillingProgress
  import opened BillingWorld

  // ----- Charging -----

  predicate ChargeCallOk(x: Call, r: Rows, log: Log) {
    x.ChargeCall? ==>
      && x.attempt < |r.attempts| && r.attempts[x.attempt].dispatchAt.Some?
      && x.paymentId == r.attempts[x.attempt].paymentId && x.amount == r.attempts[x.attempt].totalAmount
      && (forall e :: 0 <= e < |log.charges| ==> log.charges[e].attempt != x.attempt)
  }

  predicate ChargeOk(e: ChargeSent, r: Rows) {
    && e.attempt < |r.attempts| && r.attempts[e.attempt].dispatchAt.Some? && r.attempts[e.attempt].dispatchAt.value <= e.at
    && e.paymentId == r.attempts[e.attempt].paymentId && e.amount == r.attempts[e.attempt].totalAmount
  }

  predicate MarkerOk(m: Marker, r: Rows) {
    m.attempt < |r.attempts| && r.attempts[m.attempt].dispatchAt == Some(m.at)
  }

  predicate PaymentIdsUnique(attempts: seq<Attempt>, nextToken: nat) {
    && (forall i :: 0 <= i < |attempts| ==> attempts[i].paymentId < nextToken)
    && (forall i, j :: 0 <= i < j < |attempts| ==> attempts[i].paymentId != attempts[j].paymentId)
  }

  predicate Charging(w: World) {
    && PaymentIdsUnique(w.r.attempts, w.nextToken)
    && (forall n :: 0 <= n < |w.calls| ==> ChargeCallOk(w.calls[n], w.r, w.log))
    && (forall m, n :: 0 <= m < n < |w.calls| && w.calls[m].ChargeCall? && w.calls[n].ChargeCall? ==> w.calls[m].attempt != w.calls[n].attempt)
    && (forall e :: 0 <= e < |w.log.charges| ==> ChargeOk(w.log.charges[e], w.r))
    && (forall d, e :: 0 <= d < e < |w.log.charges| ==> w.log.charges[d].attempt != w.log.charges[e].attempt)
    && (forall m :: 0 <= m < |w.log.markers| ==> MarkerOk(w.log.markers[m], w.r))
    && (forall m, n :: 0 <= m < n < |w.log.markers| ==> w.log.markers[m].attempt != w.log.markers[n].attempt)
  }

  // ----- Retrying -----

  predicate RetryOk(a: Attempt, inconclusive: nat) {
    && inconclusive < LOOKUP_LIMIT
    && (!Settled(a.status) ==> inconclusive + (if a.leaseOwner.Some? && a.leaseOwner.value.Worker? then 1 else 0) <= a.lookupCount)
    && (!Settled(a.status) && a.status != DispatchUnknown ==> a.leaseOwner.None?)
  }

  predicate Retrying(w: World) {
    && (forall i :: 0 <= i < |w.r.attempts| ==> RetryOk(w.r.attempts[i], Inconclusive(w.log, i)))
    && (forall i <- w.log.inconclusive :: i < |w.r.attempts|)
  }

  // ----- Refunding -----

  predicate RefundOk(f: Refund, r: Rows) {
    && f.attemptId < r.c.nextCycle && f.requestAmount > 0 && f.status != Rejected
    && (f.verifiedAmount.Some? ==> f.verifiedAmount.value == f.requestAmount)
    && (f.status == RefundVerified ==> f.verifiedAmount.Some?)
  }

  predicate RefundCallOk(x: Call, r: Rows, log: Log) {
    && (x.RefundCall? ==>
          && x.refund < |r.refunds| && r.refunds[x.refund].status != Requested
              && x.amount == r.refunds[x.refund].requestAmount
          && (forall e :: 0 <= e < |log.refunds| ==> log.refunds[e].refund != x.refund))
    && (x.RefundLookup? ==> x.refund < |r.refunds| && x.amount == r.refunds[x.refund].requestAmount)
  }

  predicate RefundSentOk(e: RefundSent, r: Rows) {
    && e.refund < |r.refunds| && r.refunds[e.refund].status != Requested
    && e.attempt == r.refunds[e.refund].attemptId && e.amount == r.refunds[e.refund].requestAmount
  }

  predicate Refunding(w: World) {
    && (forall j :: 0 <= j < |w.r.refunds| ==> RefundOk(w.r.refunds[j], w.r))
    && (forall i :: 0 <= i < |w.r.attempts| ==> ReservedSum(w.r.refunds, i) <= w.r.attempts[i].totalAmount)
    && (forall n :: 0 <= n < |w.calls| ==> RefundCallOk(w.calls[n], w.r, w.log))
    && (forall m, n :: 0 <= m < n < |w.calls| && w.calls[m].RefundCall? && w.calls[n].RefundCall? ==> w.calls[m].refund != w.calls[n].refund)
    && (forall e :: 0 <= e < |w.log.refunds| ==> RefundSentOk(w.log.refunds[e], w.r))
    && (forall d, e :: 0 <= d < e < |w.log.refunds| ==> w.log.refunds[d].refund != w.log.refunds[e].refund)
  }

  // ----- Revoking -----

  /** Outside mock mode a revoked instrument has no lease left, so no revocation in flight can still commit on it. */
  predicate InstrumentOk(i: Instrument, mock: bool) {
    i.status == Revoked ==> i.envelope.None? && (mock || i.leaseOwner.None?)
  }

  predicate Revoking(w: World) {
    forall i :: 0 <= i < |w.r.instruments| ==> InstrumentOk(w.r.instruments[i], w.mock)
  }

  // ----- Receiving -----

  /** The commit that a processed receipt rests on: a lookup of its attempt that began once the receipt was there. */
  predicate Answers(x: Commit, e: Receipt) {
    && e.attemptId == Some(x.attempt) && x.initiatedAt >= e.receivedAt
    && ExpectationMet(e.expectation, x.cancelledAmount, x.totalAmount)
  }

  predicate Answered(e: Receipt, commits: seq<Commit>) {
    exists x :: x in commits && Answers(x, e)
  }

  predicate ReceiptOk(e: Receipt, commits: seq<Commit>, now: Time) {
    && e.receivedAt <= now
    && (e.phase != ReceiptPending ==> e.leaseOwner.None?)
    && (e.phase == ReceiptProcessed ==> Answered(e, commits))
  }

  predicate TicketOk(t: Ticket, r: Rows) {
    && t.receipt < |r.receipts| && t.receivedAt == r.receipts[t.receipt].receivedAt
        && t.expectation == r.receipts[t.receipt].expectation
  }

  predicate FreshResultOk(t: Ticket, result: EventResult, commits: seq<Commit>)
    requires result.FreshCommit?
  {
    && t.attemptId.Some? && result.initiatedAt >= t.receivedAt
    && Commit(t.attemptId.value, result.fence, result.initiatedAt, result.cancelledAmount, result.totalAmount) in commits
  }

  predicate TicketCallOk(x: Call, r: Rows, commits: seq<Commit>) {
    match x
    case LookupClaimed(id, _, _, ticket) => ticket.Some? ==> TicketOk(ticket.value, r) && ticket.value.attemptId == Some(id)
    case LookupSent(id, _, _, initiatedAt, ticket) =>
      ticket.Some? ==> TicketOk(ticket.value, r) && ticket.value.attemptId == Some(id) && initiatedAt >= ticket.value.receivedAt
    case EventLookup(t) => TicketOk(t, r)
    case EventDone(t, result) =>
      TicketOk(t, r) && (result.FreshCommit? ==> FreshResultOk(t, result, commits))
    case _ => true
  }

  predicate Receiving(w: World) {
    && (forall e :: 0 <= e < |w.r.receipts| ==> ReceiptOk(w.r.receipts[e], w.log.commits, w.now))
    && (forall n :: 0 <= n < |w.calls| ==> TicketCallOk(w.calls[n], w.r, w.log.commits))
  }

  predicate Inv(w: World) {
    Core(w.r, w.now) && Charging(w) && Retrying(w) && Refunding(w) && Revoking(w) && Receiving(w)
  }

  // ----- Frames -----

  /** Every call of `v` was already in flight in `w`, except possibly `x`. */
  predicate OnlyNewCall(w: World, v: World, x: Call) {
    forall n :: 0 <= n < |v.calls| ==> (n < |w.calls| && v.calls[n] == w.calls[n]) || v.calls[n] == x
  }

  lemma ChargingFrame(w: World, v: World, x: Call)
    requires Charging(w) && Advances(w.r, v.r) && |v.r.attempts| == |w.r.attempts| && w.nextToken <= v.nextToken
    requires OnlyNewCall(w, v, x) && !x.ChargeCall?
    requires v.log.charges == w.log.charges && v.log.markers == w.log.markers
    ensures Charging(v)
  {
    forall i | 0 <= i < |v.r.attempts|
      ensures v.r.attempts[i].paymentId == w.r.attempts[i].paymentId
    {
      assert AttemptAdvances(w.r.attempts[i], v.r.attempts[i]);
    }
    forall n | 0 <= n < |v.calls| && v.calls[n].ChargeCall?
      ensures n < |w.calls| && v.calls[n] == w.calls[n] && ChargeCallOk(v.calls[n], v.r, v.log)
    {
      assert ChargeCallOk(w.calls[n], w.r, w.log);
      assert AttemptAdvances(w.r.attempts[w.calls[n].attempt], v.r.attempts[w.calls[n].attempt]);
    }
    forall e | 0 <= e < |v.log.charges|
      ensures ChargeOk(v.log.charges[e], v.r)
    {
      assert ChargeOk(w.log.charges[e], w.r);
      assert AttemptAdvances(w.r.attempts[w.log.charges[e].attempt], v.r.attempts[w.log.charges[e].attempt]);
    }
    forall m | 0 <= m < |v.log.markers|
      ensures MarkerOk(v.log.markers[m], v.r)
    {
      assert MarkerOk(w.log.markers[m], w.r);
      assert AttemptAdvances(w.r.attempts[w.log.markers[m].attempt], v.r.attempts[w.log.markers[m].attempt]);
    }
  }

  /** Refund rows whose reservations and verified amounts are the same. */
  predicate SameReservations(xs: seq<Refund>, ys: seq<Refund>) {
    |xs| == |ys| && forall j :: 0 <= j < |xs| ==>
      ys[j].attemptId == xs[j].attemptId && ys[j].requestAmount == xs[j].requestAmount && (ys[j].status == Rejected <==> xs[j].status == Rejected)
  }

  lemma {:induction false} SameSum(xs: seq<Refund>, ys: seq<Refund>, attemptId: Id)
    requires SameReservations(xs, ys)
    ensures ReservedSum(xs, attemptId) == ReservedSum(ys, attemptId)
  {
    if xs != [] {
      SameSum(xs[..|xs| - 1], ys[..|ys| - 1], attemptId);
    }
  }

  lemma RefundingFrame(w: World, v: World, x: Call)
    requires Refunding(w) && Advances(w.r, v.r) && |v.r.attempts| == |w.r.attempts|
    requires |v.r.refunds| == |w.r.refunds|
    requires forall j :: 0 <= j < |v.r.refunds| ==> RefundOk(v.r.refunds[j], v.r)
    requires OnlyNewCall(w, v, x) && !x.RefundCall? && RefundCallOk(x, v.r, v.log)
    requires v.log.refunds == w.log.refunds
    ensures Refunding(v)
  {
    assert SameReservations(w.r.refunds, v.r.refunds) by {
      forall j | 0 <= j < |w.r.refunds|
        ensures v.r.refunds[j].attemptId == w.r.refunds[j].attemptId
            && v.r.refunds[j].requestAmount == w.r.refunds[j].requestAmount
        ensures v.r.refunds[j].status != Rejected && w.r.refunds[j].status != Rejected
      {
        assert RefundAdvances(w.r.refunds[j], v.r.refunds[j]) && RefundOk(w.r.refunds[j], w.r)
            && RefundOk(v.r.refunds[j], v.r);
      }
    }
    forall i | 0 <= i < |v.r.attempts|
      ensures ReservedSum(v.r.refunds, i) <= v.r.attempts[i].totalAmount
    {
      assert AttemptAdvances(w.r.attempts[i], v.r.attempts[i]);
      SameSum(w.r.refunds, v.r.refunds, i);
    }
    RefundCallsFrame(w, v, x);
  }

  lemma RefundCallsFrame(w: World, v: World, x: Call)
    requires Refunding(w) && |v.r.refunds| >= |w.r.refunds| && (forall j :: 0 <= j < |w.r.refunds| ==> RefundAdvances(w.r.refunds[j], v.r.refunds[j]))
    requires OnlyNewCall(w, v, x) && !x.RefundCall? && RefundCallOk(x, v.r, v.log)
    requires v.log.refunds == w.log.refunds
    ensures forall n :: 0 <= n < |v.calls| ==> RefundCallOk(v.calls[n], v.r, v.log)
    ensures forall m, n :: 0 <= m < n < |v.calls| && v.calls[m].RefundCall? && v.calls[n].RefundCall? ==> v.calls[m].refund != v.calls[n].refund
    ensures forall e :: 0 <= e < |v.log.refunds| ==> RefundSentOk(v.log.refunds[e], v.r)
  {
    hide ReservedSum;
    forall n | 0 <= n < |v.calls|
      ensures RefundCallOk(v.calls[n], v.r, v.log)
      ensures v.calls[n].RefundCall? ==> n < |w.calls| && v.calls[n] == w.calls[n]
    {
      if v.calls[n] != x {
        assert RefundCallOk(w.calls[n], w.r, w.log);
        if w.calls[n].RefundCall? || w.calls[n].RefundLookup? {
          assert RefundAdvances(w.r.refunds[w.calls[n].refund], v.r.refunds[w.calls[n].refund]);
        }
      }
    }
    forall e | 0 <= e < |v.log.refunds|
      ensures RefundSentOk(v.log.refunds[e], v.r)
    {
      assert RefundSentOk(w.log.refunds[e], w.r);
      assert RefundAdvances(w.r.refunds[w.log.refunds[e].refund], v.r.refunds[w.log.refunds[e].refund]);
    }
  }

  /** Refund rows that did not change stay fine when the contract moves on. */
  lemma RefundRowsFrame(w: World, v: World)
    requires Refunding(w) && v.r.refunds == w.r.refunds && w.r.c.nextCycle <= v.r.c.nextCycle
    ensures forall j :: 0 <= j < |v.r.refunds| ==> RefundOk(v.r.refunds[j], v.r)
  {
    hide ReservedSum;
    forall j | 0 <= j < |v.r.refunds|
      ensures RefundOk(v.r.refunds[j], v.r)
    {
      assert RefundOk(w.r.refunds[j], w.r);
    }
  }

  predicate CommitsKept(log: Log, next: Log) {
    forall x :: x in log.commits ==> x in next.commits
  }

  lemma ReceivingFrame(w: World, v: World, x: Call)
    requires Receiving(w) && Advances(w.r, v.r) && w.now <= v.now && CommitsKept(w.log, v.log)
    requires |v.r.receipts| == |w.r.receipts|
    requires forall e :: 0 <= e < |v.r.receipts| ==> v.r.receipts[e] == w.r.receipts[e] || ReceiptOk(v.r.receipts[e], v.log.commits, v.now)
    requires OnlyNewCall(w, v, x) && TicketCallOk(x, v.r, v.log.commits)
    ensures Receiving(v)
  {
    forall e | 0 <= e < |v.r.receipts|
      ensures ReceiptOk(v.r.receipts[e], v.log.commits, v.now)
    {
      assert ReceiptOk(w.r.receipts[e], w.log.commits, w.now);
      if v.r.receipts[e] == w.r.receipts[e] && v.r.receipts[e].phase == ReceiptProcessed {
        var x :| x in w.log.commits && Answers(x, w.r.receipts[e]);
        assert x in v.log.commits && Answers(x, v.r.receipts[e]);
      }
    }
    TicketsFrame(w, v, x);
  }

  lemma TicketsFrame(w: World, v: World, x: Call)
    requires Receiving(w) && CommitsKept(w.log, v.log)
    requires |v.r.receipts| >= |w.r.receipts| && (forall e :: 0 <= e < |w.r.receipts| ==> ReceiptAdvances(w.r.receipts[e], v.r.receipts[e]))
    requires OnlyNewCall(w, v, x) && TicketCallOk(x, v.r, v.log.commits)
    ensures forall n :: 0 <= n < |v.calls| ==> TicketCallOk(v.calls[n], v.r, v.log.commits)
  {
    forall n | 0 <= n < |v.calls|
      ensures TicketCallOk(v.calls[n], v.r, v.log.commits)
    {
      if v.calls[n] != x {
        TicketCallFrame(w.calls[n], w, v);
      }
    }
  }

  lemma TicketCallFrame(y: Call, w: World, v: World)
    requires TicketCallOk(y, w.r, w.log.commits) && CommitsKept(w.log, v.log)
    requires |v.r.receipts| >= |w.r.receipts| && (forall e :: 0 <= e < |w.r.receipts| ==> ReceiptAdvances(w.r.receipts[e], v.r.receipts[e]))
    ensures TicketCallOk(y, v.r, v.log.commits)
  {
    forall t | TicketOk(t, w.r)
      ensures TicketOk(t, v.r)
    {
      assert ReceiptAdvances(w.r.receipts[t.receipt], v.r.receipts[t.receipt]);
    }
  }
}
