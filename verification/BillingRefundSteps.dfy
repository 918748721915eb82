/** Refunds and webhook receipts keep the invariant of the billing protocol, and so does every step of a run. */
module BillingRefundSteps {
  import opened Prelude
  import opened BillingCalendar
  import opened BillingRows
  import opened BillingCore
  import opened BillingProgress
  import opened BillingWorld
  import opened BillingInvariant
  import opened BillingSteps
  import opened BillingLookupSteps

  lemma RefundOf(w: World, id: Id)
    requires Refunding(w) && id < |w.r.refunds|
    ensures RefundOk(w.r.refunds[id], w.r)
  {
  }

  /** A step on refund rows only. */
  lemma RefundRowsKeep(w: World, v: World, x: Call)
    requires Inv(w) && w.now <= v.now && w.nextToken <= v.nextToken
    requires v == w.(r := w.r.(refunds := v.r.refunds), now := v.now, nextToken := v.nextToken, calls := v.calls)
    requires |v.r.refunds| == |w.r.refunds| && (forall j :: 0 <= j < |v.r.refunds| ==> RefundOk(v.r.refunds[j], v.r) && RefundAdvances(w.r.refunds[j], v.r.refunds[j]))
    requires OnlyNewCall(w, v, x) && !x.ChargeCall? && !x.RefundCall? && RefundCallOk(x, v.r, v.log)
        && TicketCallOk(x, v.r, v.log.commits)
    ensures Inv(v)
  {
    hide Core, Charging, Refunding, Receiving, Retrying, Steady, Revoking, OnlyNewCall, RefundOk, RefundCallOk,
      TicketCallOk, RefundAdvances;
    assert Steady(w.r, v.r) by {
      RefundsSteady(w.r, v.r.refunds);
    }
    SteadyKeepsCore(w.r, v.r, w.now, v.now);
    RetryingSame(w, v);
    RevokingSame(w, v);
    Keeps(w, v, x);
  }

  lemma RefundsSteady(r: Rows, refunds: seq<Refund>)
    ensures Steady(r, r.(refunds := refunds))
  {
  }

  lemma {:induction false} RequestRefundKeeps(w: World, attemptId: Id, key: nat, reason: nat, k: Readings)
    requires Inv(w) && Timely(w, k)
    ensures Inv(Apply(w, RequestRefundTx(w.r, attemptId, key, reason), k))
  {
    hide Core, Charging, Refunding, Receiving, Retrying, Revoking, Steady;
    var tx := RequestRefundTx(w.r, attemptId, key, reason);
    var v := Apply(w, tx, k);
    if tx.Fail? || v.r == w.r {
      Idles(w, v);
    } else {
      assert Steady(w.r, v.r) by {
        RefundsSteady(w.r, v.r.refunds);
      }
      SteadyKeepsCore(w.r, v.r, w.now, v.now);
      RetryingSame(w, v);
      RevokingSame(w, v);
      ClaimedIsDispatched(w.r, w.now, attemptId);
      RequestedRefunding(w, v);
      ChargingFrame(w, v, Finished);
      ReceivingFrame(w, v, Finished);
    }
  }

  /** A new reservation takes at most what is left of the charge. */
  lemma RequestedRefunding(w: World, v: World)
    requires Refunding(w) && |v.r.refunds| == |w.r.refunds| + 1
    requires v == w.(r := w.r.(refunds := v.r.refunds), now := v.now, nextToken := v.nextToken)
    requires v.r.refunds[..|w.r.refunds|] == w.r.refunds
    requires var f := v.r.refunds[|w.r.refunds|];
      RefundOk(f, v.r) && f.attemptId < |w.r.attempts|
          && f.requestAmount == w.r.attempts[f.attemptId].totalAmount - ReservedSum(w.r.refunds, f.attemptId)
    ensures Refunding(v)
  {
    var n := |w.r.refunds|;
    forall j | 0 <= j < |v.r.refunds|
      ensures RefundOk(v.r.refunds[j], v.r)
    {
      if j < n {
        assert v.r.refunds[j] == w.r.refunds[j] && RefundOk(w.r.refunds[j], w.r);
      }
    }
    forall j | 0 <= j < n
      ensures RefundAdvances(w.r.refunds[j], v.r.refunds[j])
    {
      assert v.r.refunds[j] == w.r.refunds[j];
    }
    RefundCallsFrame(w, v, Finished);
  }

  lemma ApproveRefundKeeps(w: World, id: Id, operation: nat, k: Readings)
    requires Inv(w) && Timely(w, k) && id < |w.r.refunds|
    ensures Inv(Apply(w, ApproveRefundTx(w.r, id, operation), k))
  {
    hide Core, Charging, Receiving, Retrying, Revoking, ReservedSum, RefundSentOk;
    var v := Apply(w, ApproveRefundTx(w.r, id, operation), k);
    if ApproveRefundTx(w.r, id, operation).Fail? {
      Idles(w, v);
    } else {
      forall j | 0 <= j < |v.r.refunds|
        ensures RefundOk(v.r.refunds[j], v.r)
      {
        assert RefundOk(w.r.refunds[j], w.r);
      }
      RefundRowsKeep(w, v, Finished);
    }
  }

  lemma ClaimRefundKeeps(w: World, id: Id, k: Readings)
    requires Inv(w) && Timely(w, k)
    ensures Inv(DoClaimRefund(w, id, k))
  {
    hide Core, Charging, Receiving, Retrying, Revoking, ReservedSum, RefundSentOk, RefundCallOk;
    if id < |w.r.refunds| && w.r.refunds[id].attemptId < |w.r.attempts| {
      var v := DoClaimRefund(w, id, k);
      var tx := RefundClaimTx(w.r, w.mock, id, w.nextToken, k);
      if tx.Fail? || tx.out.None? {
        Idles(w, v);
      } else {
        forall j | 0 <= j < |v.r.refunds|
          ensures RefundOk(v.r.refunds[j], v.r) && RefundAdvances(w.r.refunds[j], v.r.refunds[j])
        {
          assert RefundOk(w.r.refunds[j], w.r);
        }
        if tx.out.value.dispatch {
          RefundDispatched(w, v, id, k);
        } else {
          RefundLookupFits(v.calls[|w.calls|], v);
          RefundRowsKeep(w, v, v.calls[|w.calls|]);
        }
      }
    }
  }

  lemma RefundLookupFits(x: Call, v: World)
    requires x.RefundLookup? && x.refund < |v.r.refunds| && x.amount == v.r.refunds[x.refund].requestAmount
    ensures RefundCallOk(x, v.r, v.log)
  {
  }

  /** Only a record that was never claimed is sent, and its claim makes it claimed. */
  lemma RefundDispatched(w: World, v: World, id: Id, k: Readings)
    requires Inv(w) && Timely(w, k) && id < |w.r.refunds| && w.r.refunds[id].attemptId < |w.r.attempts|
    requires w.r.refunds[id].status == Requested
    requires RefundClaimTx(w.r, w.mock, id, w.nextToken, k).Ok? && RefundClaimTx(w.r, w.mock, id, w.nextToken, k).out.Some?
    requires v == DoClaimRefund(w, id, k)
    requires forall j :: 0 <= j < |v.r.refunds| ==> RefundOk(v.r.refunds[j], v.r) && RefundAdvances(w.r.refunds[j], v.r.refunds[j])
    ensures Inv(v)
  {
    hide Core, Charging, Receiving, Retrying, Revoking, ReservedSum, Steady, RefundOk, RefundAdvances;
    assert Steady(w.r, v.r) by {
      RefundsSteady(w.r, v.r.refunds);
    }
    SteadyKeepsCore(w.r, v.r, w.now, v.now);
    RetryingSame(w, v);
    RevokingSame(w, v);
    ChargingFrame(w, v, v.calls[|w.calls|]);
    ReceivingFrame(w, v, v.calls[|w.calls|]);
    DispatchedRefunding(w, v, id);
  }

  lemma DispatchedRefunding(w: World, v: World, id: Id)
    requires Refunding(w) && id < |w.r.refunds| && w.r.refunds[id].status == Requested
    requires |v.r.refunds| == |w.r.refunds| && v.r.refunds[id].status != Requested
    requires v == w.(r := w.r.(refunds := v.r.refunds), now := v.now, nextToken := v.nextToken, calls := v.calls)
    requires |v.calls| == |w.calls| + 1 && v.calls[..|w.calls|] == w.calls
    requires var x := v.calls[|w.calls|]; x.RefundCall? && x.refund == id && x.amount == v.r.refunds[id].requestAmount
    requires forall j :: 0 <= j < |v.r.refunds| ==> RefundOk(v.r.refunds[j], v.r) && RefundAdvances(w.r.refunds[j], v.r.refunds[j])
    ensures Refunding(v)
  {
    hide RefundOk;
    var before := v.(calls := w.calls);
    assert OnlyNewCall(w, before, Finished);
    RefundCallsFrame(w, before, Finished);
    NoDispatchYet(w, id);
    forall n | 0 <= n < |v.calls|
      ensures RefundCallOk(v.calls[n], v.r, v.log)
      ensures n < |w.calls| ==> v.calls[n] == w.calls[n]
    {
      if n < |w.calls| {
        assert v.calls[n] == w.calls[n] == before.calls[n];
      }
    }
    assert SameReservations(w.r.refunds, v.r.refunds) by {
      NoneRejected(w, v);
    }
    forall i | 0 <= i < |v.r.attempts|
      ensures ReservedSum(v.r.refunds, i) <= v.r.attempts[i].totalAmount
    {
      SameSum(w.r.refunds, v.r.refunds, i);
    }
  }

  lemma NoneRejected(w: World, v: World)
    requires Refunding(w) && |v.r.refunds| == |w.r.refunds|
    requires forall j :: 0 <= j < |v.r.refunds| ==> RefundOk(v.r.refunds[j], v.r) && RefundAdvances(w.r.refunds[j], v.r.refunds[j])
    ensures SameReservations(w.r.refunds, v.r.refunds)
  {
    hide ReservedSum;
    forall j | 0 <= j < |v.r.refunds|
      ensures v.r.refunds[j].status != Rejected && w.r.refunds[j].status != Rejected
    {
      assert RefundOk(w.r.refunds[j], w.r) && RefundOk(v.r.refunds[j], v.r);
    }
  }

  lemma NoDispatchYet(w: World, id: Id)
    requires Refunding(w) && id < |w.r.refunds| && w.r.refunds[id].status == Requested
    ensures forall n :: 0 <= n < |w.calls| && w.calls[n].RefundCall? ==> w.calls[n].refund != id
    ensures forall e :: 0 <= e < |w.log.refunds| ==> w.log.refunds[e].refund != id
  {
    hide RefundOk, ReservedSum;
    forall n | 0 <= n < |w.calls| && w.calls[n].RefundCall?
      ensures w.calls[n].refund != id
    {
      assert RefundCallOk(w.calls[n], w.r, w.log);
    }
    forall e | 0 <= e < |w.log.refunds|
      ensures w.log.refunds[e].refund != id
    {
      assert RefundSentOk(w.log.refunds[e], w.r);
    }
  }

  lemma SendRefundKeeps(w: World, n: nat, k: Readings)
    requires Inv(w) && Timely(w, k)
    ensures Inv(DoSendRefund(w, n, k))
  {
    hide Core, Charging, Receiving, Retrying, Revoking, Steady, RefundOk, ReservedSum;
    if n < |w.calls| && w.calls[n].RefundCall? && w.calls[n].refund < |w.r.refunds| {
      var v := DoSendRefund(w, n, k);
      assert Steady(w.r, v.r) by {
        SteadySame(w.r);
      }
      SteadyKeepsCore(w.r, v.r, w.now, v.now);
      AdvancesReflexive(w.r);
      RetryingSame(w, v);
      RevokingSame(w, v);
      ChargingFrame(w, v, v.calls[n]);
      ReceivingFrame(w, v, v.calls[n]);
      SentRefunding(w, n, k);
    }
  }

  lemma SentRefunding(w: World, n: nat, k: Readings)
    requires Refunding(w) && Timely(w, k) && n < |w.calls| && w.calls[n].RefundCall? && w.calls[n].refund < |w.r.refunds|
    ensures Refunding(DoSendRefund(w, n, k))
  {
    hide RefundOk, ReservedSum;
    var v := DoSendRefund(w, n, k);
    var x := w.calls[n];
    assert RefundCallOk(x, w.r, w.log);
    QuietRefunds(w, v) by {
      AdvancesReflexive(w.r);
    }
    forall m | 0 <= m < |v.calls|
      ensures RefundCallOk(v.calls[m], v.r, v.log)
    {
      assert RefundCallOk(w.calls[m], w.r, w.log);
      if m != n && w.calls[m].RefundCall? {
        assert w.calls[m].refund != x.refund;
      }
    }
    forall e | 0 <= e < |v.log.refunds|
      ensures RefundSentOk(v.log.refunds[e], v.r)
    {
      if e < |w.log.refunds| {
        assert RefundSentOk(w.log.refunds[e], w.r);
      }
    }
  }

  lemma ReleaseRefundOk(w: World, id: Id, token: nat, fence: nat, exhausted: bool, delay: int, unknownOnly: bool, now: Time)
    requires Refunding(w) && id < |w.r.refunds|
    ensures var s := ReleaseRefundTx(w.r, id, token, fence, exhausted, delay, unknownOnly, now);
      && s == w.r.(refunds := s.refunds) && |s.refunds| == |w.r.refunds|
      && forall j :: 0 <= j < |s.refunds| ==> RefundOk(s.refunds[j], s) && RefundAdvances(w.r.refunds[j], s.refunds[j])
  {
    hide ReservedSum, RefundCallOk, RefundSentOk;
    var s := ReleaseRefundTx(w.r, id, token, fence, exhausted, delay, unknownOnly, now);
    forall j | 0 <= j < |s.refunds|
      ensures RefundOk(s.refunds[j], s) && RefundAdvances(w.r.refunds[j], s.refunds[j])
    {
      assert RefundOk(w.r.refunds[j], w.r);
    }
  }

  lemma SettleRefundKeeps(w: World, n: nat, found: Option<CancellationFound>, invalid: bool, k: Readings)
    requires Inv(w) && Timely(w, k)
    ensures Inv(DoSettleRefund(w, n, found, invalid, k))
  {
    hide Core, Charging, Refunding, Receiving, Retrying, Revoking, Steady, RefundOk, ReleaseRefundTx, CommitRefundTx,
      RefundAdvances, Pow2;
    if n < |w.calls| && w.calls[n].RefundLookup? {
      var x := w.calls[n];
      if x.refund < |w.r.refunds| && w.r.refunds[x.refund].attemptId < |w.r.attempts| {
        var v := DoSettleRefund(w, n, found, invalid, k);
        var delay := 1000 * Pow2(x.claim.lookupCount);
        ReleaseRefundOk(w, x.refund, x.token, x.claim.fence, true, delay, true, k.first);
        ReleaseRefundOk(w, x.refund, x.token, x.claim.fence, x.claim.lookupCount >= LOOKUP_LIMIT, delay, x.audit, k.first);
        if v.r == w.r {
          Idles(w, v);
        } else if found.Some? && found.value.amount == x.amount
            && CommitRefundTx(w.r, x.refund, x.token, x.claim.fence, x.approval, found.value, k).Ok?
            && v.r == CommitRefundTx(w.r, x.refund, x.token, x.claim.fence, x.approval, found.value, k).rows {
          RefundCommits(w, v, n, found.value, k);
        } else {
          RefundRowsKeep(w, v, Finished);
        }
      }
    }
  }

  lemma RefundCommits(w: World, v: World, n: nat, found: CancellationFound, k: Readings)
    requires Inv(w) && Timely(w, k) && n < |w.calls| && w.calls[n].RefundLookup? && found.amount == w.calls[n].amount
    requires w.calls[n].refund < |w.r.refunds| && w.r.refunds[w.calls[n].refund].attemptId < |w.r.attempts|
    requires var x := w.calls[n];
      var tx := CommitRefundTx(w.r, x.refund, x.token, x.claim.fence, x.approval, found, k);
      tx.Ok? && v == w.(r := tx.rows, now := k.last, calls := w.calls[n := Finished])
    ensures Inv(v)
  {
    hide Core, Charging, Refunding, Receiving, Retrying, Revoking, Steady, CommitRefundTx, Advances, RefundOk,
      ReceiptOk;
    var x := w.calls[n];
    RefundOf(w, x.refund);
    CallAmount(w, n);
    RefundedAttempt(w, x.refund);
    CommitRefundSteady(w.r, x.refund, x.token, x.claim.fence, x.approval, found, k);
    SteadyKeepsCore(w.r, v.r, w.now, v.now);
    CommitRefundAdvances(w.r, x.refund, x.token, x.claim.fence, x.approval, found, k);
    CommitRefundShape(w, x.refund, x.token, x.claim.fence, x.approval, found, k);
    RetryingSame(w.(r := v.r), v);
    RevokingSame(w, v);
    Keeps(w, v, Finished);
  }

  lemma CallAmount(w: World, n: nat)
    requires Refunding(w) && n < |w.calls| && w.calls[n].RefundLookup?
    ensures w.calls[n].refund < |w.r.refunds| && w.calls[n].amount == w.r.refunds[w.calls[n].refund].requestAmount
  {
    hide ReservedSum, RefundOk, RefundSentOk;
    assert RefundCallOk(w.calls[n], w.r, w.log);
  }

  lemma RefundedAttempt(w: World, id: Id)
    requires Refunding(w) && Core(w.r, w.now) && id < |w.r.refunds|
    ensures w.r.refunds[id].attemptId < w.r.c.nextCycle && Settled(w.r.attempts[w.r.refunds[id].attemptId].status)
  {
    hide Core, ReservedSum;
    RefundOf(w, id);
    AttemptsReach(w.r, w.now);
    ClaimedIsDispatched(w.r, w.now, w.r.refunds[id].attemptId);
  }

  lemma AttemptsReach(r: Rows, now: Time)
    requires Core(r, now)
    ensures |r.attempts| >= r.c.nextCycle == |r.periods|
  {
  }

  lemma CommitRefundShape(w: World, id: Id, token: nat, fence: nat, approval: Option<nat>, found: CancellationFound, k: Readings)
    requires Refunding(w) && Retrying(w) && id < |w.r.refunds| && w.r.refunds[id].attemptId < |w.r.attempts|
    requires Settled(w.r.attempts[w.r.refunds[id].attemptId].status) && found.amount == w.r.refunds[id].requestAmount
    ensures var tx := CommitRefundTx(w.r, id, token, fence, approval, found, k);
      tx.Ok? ==>
        && |tx.rows.attempts| == |w.r.attempts| && |tx.rows.refunds| == |w.r.refunds|
        && tx.rows.receipts == w.r.receipts && tx.rows.instruments == w.r.instruments
        && (forall j :: 0 <= j < |tx.rows.refunds| ==> RefundOk(tx.rows.refunds[j], tx.rows))
        && Retrying(w.(r := tx.rows))
  {
    hide ReservedSum, RefundCallOk, RefundSentOk, FindPeriod, CancelIdTaken;
    var tx := CommitRefundTx(w.r, id, token, fence, approval, found, k);
    if tx.Ok? {
      forall j | 0 <= j < |tx.rows.refunds|
        ensures RefundOk(tx.rows.refunds[j], tx.rows)
      {
        assert RefundOk(w.r.refunds[j], w.r);
      }
      forall i | 0 <= i < |tx.rows.attempts|
        ensures RetryOk(tx.rows.attempts[i], Inconclusive(w.log, i))
      {
        assert RetryOk(w.r.attempts[i], Inconclusive(w.log, i));
      }
    }
  }

  lemma ClaimAuditKeeps(w: World, id: Id, consistent: bool, k: Readings)
    requires Inv(w) && Timely(w, k)
    ensures Inv(DoClaimAudit(w, id, consistent, k))
  {
    hide Core, Charging, Receiving, Retrying, Revoking, ReservedSum, RefundSentOk;
    if !w.mock && id < |w.r.refunds| && w.r.refunds[id].attemptId < |w.r.attempts| {
      var v := DoClaimAudit(w, id, consistent, k);
      forall j | 0 <= j < |v.r.refunds|
        ensures RefundOk(v.r.refunds[j], v.r) && RefundAdvances(w.r.refunds[j], v.r.refunds[j])
      {
        assert RefundOk(w.r.refunds[j], w.r);
      }
      if |v.calls| == |w.calls| {
        RefundRowsKeep(w, v, Finished);
      } else {
        RefundLookupFits(v.calls[|w.calls|], v);
        RefundRowsKeep(w, v, v.calls[|w.calls|]);
      }
    }
  }

  // ----- Webhook receipts -----

  /** A step on receipt rows only. */
  lemma ReceiptRowsKeep(w: World, v: World, x: Call)
    requires Inv(w) && w.now <= v.now && w.nextToken <= v.nextToken
    requires v == w.(r := w.r.(receipts := v.r.receipts), now := v.now, nextToken := v.nextToken, calls := v.calls)
    requires |w.r.receipts| <= |v.r.receipts| && (forall e :: 0 <= e < |w.r.receipts| ==> ReceiptAdvances(w.r.receipts[e], v.r.receipts[e]))
    requires forall e :: 0 <= e < |v.r.receipts| ==> ReceiptOk(v.r.receipts[e], v.log.commits, v.now)
    requires OnlyNewCall(w, v, x) && !x.ChargeCall? && !x.RefundCall? && !x.RefundLookup?
        && TicketCallOk(x, v.r, v.log.commits)
    ensures Inv(v)
  {
    hide Core, Charging, Refunding, Retrying, Steady, Revoking, OnlyNewCall, ReceiptOk, ReceiptAdvances, TicketCallOk;
    assert Steady(w.r, v.r) by {
      ReceiptsSteady(w.r, v.r.receipts);
    }
    SteadyKeepsCore(w.r, v.r, w.now, v.now);
    RetryingSame(w, v);
    RevokingSame(w, v);
    assert Advances(w.r, v.r);
    ChargingFrame(w, v, x);
    QuietRefunds(w, v);
    RefundingFrame(w, v, x);
    TicketsFrame(w, v, x);
  }

  lemma ReceiptsSteady(r: Rows, receipts: seq<Receipt>)
    ensures Steady(r, r.(receipts := receipts))
  {
  }

  lemma ReceiptLater(e: Receipt, commits: seq<Commit>, now: Time, later: Time)
    requires ReceiptOk(e, commits, now) && now <= later
    ensures ReceiptOk(e, commits, later)
  {
  }

  lemma RecordEventKeeps(w: World, eventId: nat, paymentId: nat, expectation: Expectation, k: Readings)
    requires Inv(w) && Timely(w, k)
    ensures Inv(Apply(w, RecordEventTx(w.r, w.mock, eventId, paymentId, expectation, k.first), k))
  {
    hide Core, Charging, Refunding, Retrying, Revoking, Answered;
    var tx := RecordEventTx(w.r, w.mock, eventId, paymentId, expectation, k.first);
    var v := Apply(w, tx, k);
    if tx.Fail? {
      Idles(w, v);
    } else {
      forall e | 0 <= e < |v.r.receipts|
        ensures ReceiptOk(v.r.receipts[e], v.log.commits, v.now)
      {
        if e < |w.r.receipts| {
          ReceiptLater(w.r.receipts[e], w.log.commits, w.now, v.now);
        }
      }
      ReceiptRowsKeep(w, v, Finished);
    }
  }

  lemma {:induction false} ClaimEventKeeps(w: World, id: Id, k: Readings)
    requires Inv(w) && Timely(w, k)
    ensures Inv(DoClaimEvent(w, id, k))
  {
    hide Core, Charging, Refunding, Retrying, Revoking, Answered;
    if id < |w.r.receipts| {
      var v := DoClaimEvent(w, id, k);
      if |v.calls| == |w.calls| {
        Idles(w, v);
      } else {
        forall e | 0 <= e < |v.r.receipts|
          ensures ReceiptOk(v.r.receipts[e], v.log.commits, v.now)
        {
          ReceiptLater(w.r.receipts[e], w.log.commits, w.now, v.now);
        }
        ReceiptRowsKeep(w, v, v.calls[|w.calls|]);
      }
    }
  }

  lemma FinishEventKeeps(w: World, n: nat, k: Readings)
    requires Inv(w) && Timely(w, k)
    ensures Inv(DoFinishEvent(w, n, k))
  {
    hide Core, Charging, Refunding, Retrying, Revoking, Answered;
    if n < |w.calls| && w.calls[n].EventDone? && w.calls[n].eventTicket.receipt < |w.r.receipts| {
      var v := DoFinishEvent(w, n, k);
      assert TicketCallOk(w.calls[n], w.r, w.log.commits);
      forall e | 0 <= e < |v.r.receipts|
        ensures ReceiptOk(v.r.receipts[e], v.log.commits, v.now)
      {
        ReceiptLater(w.r.receipts[e], w.log.commits, w.now, v.now);
        if e == w.calls[n].eventTicket.receipt {
          FinishedReceipt(w, n, k);
        }
      }
      ReceiptRowsKeep(w, v, Finished);
    }
  }

  lemma FinishedReceipt(w: World, n: nat, k: Readings)
    requires Receiving(w) && Timely(w, k)
    requires n < |w.calls| && w.calls[n].EventDone? && w.calls[n].eventTicket.receipt < |w.r.receipts|
    ensures var v := DoFinishEvent(w, n, k);
      ReceiptOk(v.r.receipts[w.calls[n].eventTicket.receipt], v.log.commits, v.now)
  {
    var v := DoFinishEvent(w, n, k);
    var t, result := w.calls[n].eventTicket, w.calls[n].result;
    assert TicketCallOk(w.calls[n], w.r, w.log.commits);
    var before, after := w.r.receipts[t.receipt], v.r.receipts[t.receipt];
    assert ReceiptOk(before, w.log.commits, w.now);
    if after != before && after.phase == ReceiptProcessed {
      var x := Commit(t.attemptId.value, result.fence, result.initiatedAt, result.cancelledAmount, result.totalAmount);
      assert x in v.log.commits && Answers(x, after);
    }
  }

  // ----- Every step -----

  lemma InitialInv(w: World)
    requires Initial(w)
    ensures Inv(w)
  {
  }

  lemma StepKeepsInv(w: World, act: Action)
    requires Inv(w)
    ensures Inv(Do(w, act))
  {
    hide Inv, Apply, DoDispatch, DoSendCharge, DoReturnCharge, DoClaimLookup, DoLookupForEvent, DoStartLookup,
      DoCommitLookup, DoRenew, DoCancel, DoVerifyCancel, DoClaimRevoke, DoCommitRevoke, DoClaimRefund, DoSendRefund,
      DoClaimAudit, DoSettleRefund, DoClaimEvent, DoFinishEvent;
    if Timely(w, act.k) {
      match act
      case CreateQuote(plan, terms, k) => CreateQuoteKeeps(w, plan, terms, k);
      case Prepare(quoteId, terms, k) => PrepareKeeps(w, quoteId, terms, k);
      case Confirm(i, bound, terms, keyVersion, k) => ConfirmKeeps(w, i, bound, terms, keyVersion, k);
      case Charge(input, terms, k) => ChargeKeeps(w, input, terms, k);
      case Renew(terms, k) => RenewKeeps(w, terms, k);
      case Dispatch(id, terms, keyVersion, decryptable, k) => DispatchKeeps(w, id, terms, keyVersion, decryptable, k);
      case SendCharge(n, k) => SendChargeKeeps(w, n, k);
      case ReturnCharge(n, k) => ReturnChargeKeeps(w, n, k);
      case ClaimLookup(id, force, k) => ClaimLookupKeeps(w, id, force, k);
      case StartLookup(n, k) => StartLookupKeeps(w, n, k);
      case CommitLookup(n, lookup, k) => CommitLookupKeeps(w, n, lookup, k);
      case Cancel(k) => CancelKeeps(w, k);
      case VerifyCancel(n, k) => VerifyCancelKeeps(w, n, k);
      case ClaimRevoke(i, k) => ClaimRevokeKeeps(w, i, k);
      case CommitRevoke(n, deleted, k) => CommitRevokeKeeps(w, n, deleted, k);
      case RequestRefund(id, key, reason, k) => RequestRefundKeeps(w, id, key, reason, k);
      case ApproveRefund(id, operation, k) =>
        if !w.mock && id < |w.r.refunds| {
          ApproveRefundKeeps(w, id, operation, k);
        }
      case ClaimRefund(id, k) => ClaimRefundKeeps(w, id, k);
      case SendRefund(n, k) => SendRefundKeeps(w, n, k);
      case SettleRefund(n, found, invalid, k) => SettleRefundKeeps(w, n, found, invalid, k);
      case ClaimAudit(id, consistent, k) => ClaimAuditKeeps(w, id, consistent, k);
      case RecordEvent(eventId, paymentId, expectation, k) => RecordEventKeeps(w, eventId, paymentId, expectation, k);
      case ClaimEvent(id, k) => ClaimEventKeeps(w, id, k);
      case LookupForEvent(n, k) => LookupForEventKeeps(w, n, k);
      case FinishEvent(n, k) => FinishEventKeeps(w, n, k);
      case DeleteAccount(shared, k) => DeleteAccountKeeps(w, shared, k);
    }
  }

  /** The invariant holds after every run. */
  lemma {:induction false} RunKeepsInv(w: World, acts: seq<Action>)
    requires Inv(w)
    ensures Inv(Run(w, acts))
    decreases |acts|
  {
    hide Inv, Do;
    if acts != [] {
      RunKeepsInv(w, acts[..|acts| - 1]);
      StepKeepsInv(Run(w, acts[..|acts| - 1]), acts[|acts| - 1]);
    }
  }
}
