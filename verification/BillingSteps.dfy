/** Every step of the billing protocol keeps the invariant. */
module BillingSteps {
  import opened Prelude
  import opened BillingCalendar
  import opened BillingRows
  import opened BillingCore
  import opened BillingProgress
  import opened BillingWorld
  import opened BillingInvariant

  /** A step that adds no attempt, no refund, no receipt and at most the call `x`. */
  lemma Keeps(w: World, v: World, x: Call)
    requires Inv(w) && Core(v.r, v.now) && w.now <= v.now && w.nextToken <= v.nextToken
    requires Advances(w.r, v.r) && |v.r.attempts| == |w.r.attempts| && |v.r.refunds| == |w.r.refunds|
        && |v.r.receipts| == |w.r.receipts|
    requires forall j :: 0 <= j < |v.r.refunds| ==> RefundOk(v.r.refunds[j], v.r)
    requires forall e :: 0 <= e < |v.r.receipts| ==> v.r.receipts[e] == w.r.receipts[e] || ReceiptOk(v.r.receipts[e], v.log.commits, v.now)
    requires v.log.charges == w.log.charges && v.log.markers == w.log.markers && v.log.refunds == w.log.refunds
        && CommitsKept(w.log, v.log)
    requires OnlyNewCall(w, v, x) && !x.ChargeCall? && !x.RefundCall? && RefundCallOk(x, v.r, v.log)
        && TicketCallOk(x, v.r, v.log.commits)
    requires Retrying(v) && Revoking(v)
    ensures Inv(v)
  {
    hide Core, Charging, Refunding, Receiving, Retrying, Revoking, Advances, RefundOk, ReceiptOk, OnlyNewCall;
    ChargingFrame(w, v, x);
    RefundingFrame(w, v, x);
    ReceivingFrame(w, v, x);
  }

  /** As above, with the refunds and receipts untouched. */
  lemma Quiet(w: World, v: World, x: Call)
    requires Inv(w) && Core(v.r, v.now) && w.now <= v.now && w.nextToken <= v.nextToken
    requires Advances(w.r, v.r) && |v.r.attempts| == |w.r.attempts| && v.r.refunds == w.r.refunds
        && v.r.receipts == w.r.receipts
    requires v.log.charges == w.log.charges && v.log.markers == w.log.markers && v.log.refunds == w.log.refunds
        && CommitsKept(w.log, v.log)
    requires OnlyNewCall(w, v, x) && !x.ChargeCall? && !x.RefundCall? && RefundCallOk(x, v.r, v.log)
        && TicketCallOk(x, v.r, v.log.commits)
    requires Retrying(v) && Revoking(v)
    ensures Inv(v)
  {
    hide Core, Charging, Refunding, Receiving, Retrying, Revoking, Advances, RefundOk, ReceiptOk, OnlyNewCall;
    QuietRefunds(w, v);
    Keeps(w, v, x);
  }

  lemma QuietRefunds(w: World, v: World)
    requires Refunding(w) && v.r.refunds == w.r.refunds && Advances(w.r, v.r)
    ensures forall j :: 0 <= j < |v.r.refunds| ==> RefundOk(v.r.refunds[j], v.r)
  {
    hide Refunding, RefundOk;
    RefundRowsFrame(w, v);
  }

  /** Time may pass, and a call may end, without any row changing. */
  lemma Idles(w: World, v: World)
    requires Inv(w) && w.now <= v.now && v == w.(now := v.now, calls := v.calls, nextToken := v.nextToken)
        && w.nextToken <= v.nextToken
    requires OnlyNewCall(w, v, Finished)
    ensures Inv(v)
  {
    hide Charging, Refunding, Receiving, Retrying, Revoking, OnlyNewCall, Core;
    assert Steady(w.r, v.r) by {
      SteadySame(w.r);
    }
    SteadyKeepsCore(w.r, v.r, w.now, v.now);
    AdvancesReflexive(w.r);
    RetryingSame(w, v);
    RevokingSame(w, v);
    Quiet(w, v, Finished);
  }

  lemma SteadySame(r: Rows)
    ensures Steady(r, r)
  {
  }

  lemma RetryingSame(w: World, v: World)
    requires Retrying(w) && v.r.attempts == w.r.attempts && v.log.inconclusive == w.log.inconclusive
    ensures Retrying(v)
  {
    forall i | 0 <= i < |v.r.attempts|
      ensures RetryOk(v.r.attempts[i], Inconclusive(v.log, i))
    {
      assert RetryOk(w.r.attempts[i], Inconclusive(w.log, i));
    }
  }

  lemma RevokingSame(w: World, v: World)
    requires Revoking(w) && v.mock == w.mock && v.r.instruments == w.r.instruments
    ensures Revoking(v)
  {
  }

  // ----- Quotes and instruments -----

  lemma QuotesKeep(w: World, rows: Rows, k: Readings)
    requires Inv(w) && Timely(w, k) && Steady(w.r, rows) && Advances(w.r, rows)
    requires rows.attempts == w.r.attempts && rows.refunds == w.r.refunds && rows.receipts == w.r.receipts
    requires Revoking(w.(r := rows))
    ensures Inv(w.(r := rows, now := k.last, nextToken := w.nextToken + 1))
  {
    hide Charging, Refunding, Receiving, Retrying, Core, Steady, Advances;
    var v := w.(r := rows, now := k.last, nextToken := w.nextToken + 1);
    SteadyKeepsCore(w.r, rows, w.now, v.now);
    RetryingSame(w, v);
    Quiet(w, v, Finished);
  }

  lemma CreateQuoteKeeps(w: World, plan: Plan, terms: nat, k: Readings)
    requires Inv(w) && Timely(w, k)
    ensures Inv(Apply(w, CreateQuoteTx(w.r, plan, terms, k), k))
  {
    hide Charging, Refunding, Receiving, Retrying, Core;
    var tx := CreateQuoteTx(w.r, plan, terms, k);
    if tx.Ok? {
      CreateQuoteSteady(w.r, plan, terms, k);
      AdvancesReflexive(w.r);
      QuotesKeep(w, tx.rows, k);
    } else {
      Idles(w, w.(now := k.last));
    }
  }

  lemma {:induction false} PrepareKeeps(w: World, quoteId: Id, terms: nat, k: Readings)
    requires Inv(w) && Timely(w, k)
    ensures Inv(Apply(w, PrepareTx(w.r, quoteId, terms, k), k))
  {
    hide Charging, Refunding, Receiving, Retrying, Core;
    var tx := PrepareTx(w.r, quoteId, terms, k);
    if tx.Ok? {
      PrepareSteady(w.r, quoteId, terms, k);
      AdvancesReflexive(w.r);
      QuotesKeep(w, tx.rows, k);
    } else {
      Idles(w, w.(now := k.last));
    }
  }

  lemma ConfirmKeeps(w: World, i: Id, bound: bool, terms: nat, keyVersion: nat, k: Readings)
    requires Inv(w) && Timely(w, k)
    ensures Inv(Apply(w, ConfirmTx(w.r, i, bound, terms, keyVersion, k), k))
  {
    hide Charging, Refunding, Receiving, Retrying, Core;
    var tx := ConfirmTx(w.r, i, bound, terms, keyVersion, k);
    if tx.Ok? {
      ConfirmSteady(w.r, i, bound, terms, keyVersion, k);
      AdvancesReflexive(w.r);
      QuotesKeep(w, tx.rows, k);
    } else {
      Idles(w, w.(now := k.last));
    }
  }

  // ----- New attempts -----

  /** A new attempt has a payment id of its own and no history. */
  lemma AttemptAdded(w: World, v: World, a: Attempt)
    requires Inv(w) && Core(v.r, v.now) && w.now <= v.now && Advances(w.r, v.r)
    requires v == w.(r := v.r, now := v.now, nextToken := w.nextToken + 1)
    requires v.r.attempts == w.r.attempts + [a] && a.paymentId == w.nextToken && a.leaseOwner.None?
        && !Settled(a.status) && a.totalAmount >= 0
    requires v.r.refunds == w.r.refunds && v.r.receipts == w.r.receipts && v.r.instruments == w.r.instruments
    ensures Inv(v)
  {
    hide Core, ReceiptOk, TicketCallOk;
    AddedCharging(w, v, a);
    AddedRetrying(w, v, a);
    AddedRefunding(w, v, a);
    ReceivingFrame(w, v, Finished);
  }

  lemma AddedCharging(w: World, v: World, a: Attempt)
    requires Charging(w) && v.r.attempts == w.r.attempts + [a] && a.paymentId == w.nextToken
    requires v == w.(r := v.r, now := v.now, nextToken := w.nextToken + 1)
    ensures Charging(v)
  {
    forall n | 0 <= n < |v.calls|
      ensures ChargeCallOk(v.calls[n], v.r, v.log)
    {
      assert ChargeCallOk(w.calls[n], w.r, w.log);
    }
    forall e | 0 <= e < |v.log.charges|
      ensures ChargeOk(v.log.charges[e], v.r)
    {
      assert ChargeOk(w.log.charges[e], w.r);
    }
    forall m | 0 <= m < |v.log.markers|
      ensures MarkerOk(v.log.markers[m], v.r)
    {
      assert MarkerOk(w.log.markers[m], w.r);
    }
  }

  lemma AddedRetrying(w: World, v: World, a: Attempt)
    requires Retrying(w) && v.r.attempts == w.r.attempts + [a] && v.log == w.log && a.leaseOwner.None? && !Settled(a.status)
    ensures Retrying(v)
  {
    forall i | 0 <= i < |v.r.attempts|
      ensures RetryOk(v.r.attempts[i], Inconclusive(v.log, i))
    {
      if i < |w.r.attempts| {
        assert RetryOk(w.r.attempts[i], Inconclusive(w.log, i));
      } else {
        assert i !in w.log.inconclusive;
      }
    }
  }

  lemma {:induction false} NothingReserved(refunds: seq<Refund>, attemptId: Id)
    requires forall j :: 0 <= j < |refunds| ==> refunds[j].attemptId != attemptId
    ensures ReservedSum(refunds, attemptId) == 0
  {
    if refunds != [] {
      NothingReserved(refunds[..|refunds| - 1], attemptId);
    }
  }

  lemma AddedRefunding(w: World, v: World, a: Attempt)
    requires Refunding(w) && Core(w.r, w.now) && Advances(w.r, v.r) && v.r.attempts == w.r.attempts + [a]
        && a.totalAmount >= 0
    requires v == w.(r := v.r, now := v.now, nextToken := w.nextToken + 1) && v.r.refunds == w.r.refunds
    ensures Refunding(v)
  {
    hide ReservedSum;
    QuietRefunds(w, v);
    forall i | 0 <= i < |v.r.attempts|
      ensures ReservedSum(v.r.refunds, i) <= v.r.attempts[i].totalAmount
    {
      if i == |w.r.attempts| {
        forall j | 0 <= j < |w.r.refunds|
          ensures w.r.refunds[j].attemptId != i
        {
          assert RefundOk(w.r.refunds[j], w.r);
        }
        NothingReserved(w.r.refunds, i);
      }
    }
    RefundCallsFrame(w, v, Finished);
  }

  lemma ChargeKeeps(w: World, input: ChargeInput, terms: nat, k: Readings)
    requires Inv(w) && Timely(w, k)
    ensures Inv(Apply(w, ChargeTx(w.r, input, terms, w.nextToken, k), k))
  {
    hide Charging, Refunding, Receiving, Retrying, Core, Revoking, Advances;
    var tx := ChargeTx(w.r, input, terms, w.nextToken, k);
    if tx.Fail? {
      Idles(w, w.(now := k.last));
    } else {
      var v := Apply(w, tx, k);
      ChargeKeepsCore(w.r, input, terms, w.nextToken, k, w.now);
      ChargeAdvances(w.r, input, terms, w.nextToken, k);
      if |v.r.attempts| == |w.r.attempts| {
        RetryingSame(w, v);
        RevokingSame(w, v);
        Quiet(w, v, Finished);
      } else {
        QuotedAmount(w.r, w.now, input.quoteId);
        AttemptAdded(w, v, v.r.attempts[|w.r.attempts|]);
      }
    }
  }

  lemma QuotedAmount(r: Rows, now: Time, quoteId: Id)
    requires Core(r, now) && quoteId < |r.quotes|
    ensures r.quotes[quoteId].totalAmount > 0
  {
    assert CatalogQuote(r.quotes[quoteId]);
  }

  lemma {:induction false} RenewKeeps(w: World, terms: nat, k: Readings)
    requires Inv(w) && Timely(w, k)
    ensures Inv(DoRenew(w, terms, k))
  {
    hide Charging, Refunding, Receiving, Core, Revoking, Advances, Boundary, LatestPaid, FindPeriod, FindCycle,
      FindKey, CurrentQuote, RetryOk;
    if DoRenew(w, terms, k) == w {
    } else {
      var tx := RenewTx(w.r, terms, w.nextToken, k);
      if tx.Fail? {
        Idles(w, w.(now := k.last));
      } else {
        var v := Apply(w, tx, k);
        RenewKeepsCore(w.r, terms, w.nextToken, k, w.now);
        RenewAdvances(w.r, terms, w.nextToken, k);
        RenewShape(w, terms, k);
        if |v.r.attempts| == |w.r.attempts| {
          RevokingSame(w, v);
          Quiet(w, v, Finished);
        } else {
          AttemptAdded(w, v, v.r.attempts[|w.r.attempts|]);
        }
      }
    }
  }

  /** A renewal adds one fresh attempt, or cancels one that was still undispatched, or leaves the attempts alone. */
  lemma {:induction false} RenewShape(w: World, terms: nat, k: Readings)
    requires Retrying(w) && (forall i :: 0 <= i < |w.r.attempts| ==> w.r.attempts[i].quoteId < |w.r.quotes| && w.r.attempts[i].instrumentId < |w.r.instruments|)
    ensures var tx := RenewTx(w.r, terms, w.nextToken, k);
      tx.Ok? ==>
        && tx.rows.refunds == w.r.refunds && tx.rows.receipts == w.r.receipts && tx.rows.instruments == w.r.instruments
        && (|tx.rows.attempts| == |w.r.attempts| ==> Retrying(w.(r := tx.rows, nextToken := w.nextToken + 1, now := k.last)))
        && (|tx.rows.attempts| != |w.r.attempts| ==>
              && |tx.rows.attempts| == |w.r.attempts| + 1
              && var a := tx.rows.attempts[|w.r.attempts|];
                 tx.rows.attempts == w.r.attempts + [a] && a.paymentId == w.nextToken && a.leaseOwner.None?
                     && a.status == Created && a.totalAmount > 0)
  {
    hide Boundary, LatestPaid, FindPeriod, CurrentQuote;
    var tx := RenewTx(w.r, terms, w.nextToken, k);
    if tx.Ok? && |tx.rows.attempts| == |w.r.attempts| {
      var v := w.(r := tx.rows, nextToken := w.nextToken + 1, now := k.last);
      forall i | 0 <= i < |v.r.attempts|
        ensures RetryOk(v.r.attempts[i], Inconclusive(v.log, i))
      {
        assert RetryOk(w.r.attempts[i], Inconclusive(w.log, i));
      }
    }
  }

  // ----- Dispatch -----

  lemma DispatchKeeps(w: World, id: Id, terms: nat, keyVersion: nat, decryptable: bool, k: Readings)
    requires Inv(w) && Timely(w, k)
    ensures Inv(DoDispatch(w, id, terms, keyVersion, decryptable, k))
  {
    hide Charging, Refunding, Receiving, Core, Revoking, Advances, Boundary, CurrentQuote, RetryOk;
    if id < |w.r.attempts| && w.r.attempts[id].quoteId < |w.r.quotes| && w.r.attempts[id].instrumentId < |w.r.instruments| {
      var tx := DispatchTx(w.r, id, terms, keyVersion, decryptable, k);
      var v := DoDispatch(w, id, terms, keyVersion, decryptable, k);
      if tx.Fail? {
        Idles(w, v);
      } else {
        DispatchKeepsCore(w.r, id, terms, keyVersion, decryptable, k, w.now);
        DispatchAdvances(w.r, id, terms, keyVersion, decryptable, k);
        DispatchRetrying(w, id, terms, keyVersion, decryptable, k);
        RevokingSame(w, v);
        if tx.out.Send? {
          DispatchMarks(w, v, id, k);
        } else {
          Quiet(w, v, Finished);
        }
      }
    }
  }

  lemma DispatchRetrying(w: World, id: Id, terms: nat, keyVersion: nat, decryptable: bool, k: Readings)
    requires Retrying(w) && Timely(w, k)
    requires id < |w.r.attempts| && w.r.attempts[id].quoteId < |w.r.quotes|
        && w.r.attempts[id].instrumentId < |w.r.instruments|
    ensures Retrying(DoDispatch(w, id, terms, keyVersion, decryptable, k))
  {
    hide Boundary, CurrentQuote;
    var v := DoDispatch(w, id, terms, keyVersion, decryptable, k);
    forall i | 0 <= i < |v.r.attempts|
      ensures RetryOk(v.r.attempts[i], Inconclusive(v.log, i))
    {
      assert RetryOk(w.r.attempts[i], Inconclusive(w.log, i));
    }
  }

  /** The marker is the attempt's first, so no charge of it is in flight or sent yet. */
  lemma {:induction false} DispatchMarks(w: World, v: World, id: Id, k: Readings)
    requires Inv(w) && Core(v.r, v.now) && Advances(w.r, v.r) && Retrying(v) && Revoking(v) && w.now <= k.first <= k.last
    requires id < |w.r.attempts| && w.r.attempts[id].dispatchAt.None?
    requires |v.r.attempts| == |w.r.attempts| && v.r.attempts[id].dispatchAt == Some(k.first)
    requires v == w.(r := v.r, now := k.last, calls := w.calls + [ChargeCall(id, w.r.attempts[id].paymentId, w.r.attempts[id].totalAmount)],
                     log := w.log.(markers := w.log.markers + [Marker(id, k.first)]))
    requires v.r.refunds == w.r.refunds && v.r.receipts == w.r.receipts
    ensures Inv(v)
  {
    hide Core, Retrying, Revoking, RefundOk, ReceiptOk, ReservedSum;
    MarkedCharging(w, v, id, k);
    QuietRefunds(w, v);
    RefundingFrame(w, v, v.calls[|w.calls|]);
    ReceivingFrame(w, v, v.calls[|w.calls|]);
  }

  lemma MarkedCharging(w: World, v: World, id: Id, k: Readings)
    requires Charging(w) && Advances(w.r, v.r)
    requires id < |w.r.attempts| && w.r.attempts[id].dispatchAt.None?
    requires |v.r.attempts| == |w.r.attempts| && v.r.attempts[id].dispatchAt == Some(k.first)
    requires v == w.(r := v.r, now := k.last, calls := w.calls + [ChargeCall(id, w.r.attempts[id].paymentId, w.r.attempts[id].totalAmount)],
                     log := w.log.(markers := w.log.markers + [Marker(id, k.first)]))
    ensures Charging(v)
  {
    forall i | 0 <= i < |v.r.attempts|
      ensures v.r.attempts[i].paymentId == w.r.attempts[i].paymentId
    {
      assert AttemptAdvances(w.r.attempts[i], v.r.attempts[i]);
    }
    forall e | 0 <= e < |v.log.charges|
      ensures ChargeOk(v.log.charges[e], v.r) && v.log.charges[e].attempt != id
    {
      assert ChargeOk(w.log.charges[e], w.r);
      assert AttemptAdvances(w.r.attempts[w.log.charges[e].attempt], v.r.attempts[w.log.charges[e].attempt]);
    }
    forall n | 0 <= n < |v.calls|
      ensures ChargeCallOk(v.calls[n], v.r, v.log)
      ensures n < |w.calls| && v.calls[n].ChargeCall? ==> v.calls[n].attempt != id
    {
      if n < |w.calls| {
        assert ChargeCallOk(w.calls[n], w.r, w.log);
        if w.calls[n].ChargeCall? {
          assert AttemptAdvances(w.r.attempts[w.calls[n].attempt], v.r.attempts[w.calls[n].attempt]);
        }
      }
    }
    forall m | 0 <= m < |v.log.markers|
      ensures MarkerOk(v.log.markers[m], v.r)
      ensures m < |w.log.markers| ==> v.log.markers[m].attempt != id
    {
      if m < |w.log.markers| {
        assert MarkerOk(w.log.markers[m], w.r);
        assert AttemptAdvances(w.r.attempts[w.log.markers[m].attempt], v.r.attempts[w.log.markers[m].attempt]);
      }
    }
  }

  lemma SendChargeKeeps(w: World, n: nat, k: Readings)
    requires Inv(w) && Timely(w, k)
    ensures Inv(DoSendCharge(w, n, k))
  {
    hide Core, RefundOk, ReceiptOk, ReservedSum, Revoking;
    if n < |w.calls| && w.calls[n].ChargeCall? {
      var v := DoSendCharge(w, n, k);
      SteadySame(w.r);
      SteadyKeepsCore(w.r, w.r, w.now, v.now);
      AdvancesReflexive(w.r);
      RetryingSame(w, v);
      RevokingSame(w, v);
      SentCharging(w, n, k);
      QuietRefunds(w, v);
      RefundingFrame(w, v, v.calls[n]);
      ReceivingFrame(w, v, v.calls[n]);
    }
  }

  lemma SentCharging(w: World, n: nat, k: Readings)
    requires Charging(w) && Core(w.r, w.now) && Timely(w, k) && n < |w.calls| && w.calls[n].ChargeCall?
    ensures Charging(DoSendCharge(w, n, k))
  {
    hide Core;
    var v := DoSendCharge(w, n, k);
    var x := w.calls[n];
    assert ChargeCallOk(x, w.r, w.log);
    MarkerInThePast(w.r, w.now, x.attempt);
    forall m | 0 <= m < |v.calls|
      ensures ChargeCallOk(v.calls[m], v.r, v.log)
    {
      assert ChargeCallOk(w.calls[m], w.r, w.log);
      if m != n && w.calls[m].ChargeCall? {
        assert w.calls[m].attempt != x.attempt;
      }
    }
    forall e | 0 <= e < |v.log.charges|
      ensures ChargeOk(v.log.charges[e], v.r)
    {
      if e < |w.log.charges| {
        assert ChargeOk(w.log.charges[e], w.r);
      }
    }
  }

  lemma MarkerInThePast(r: Rows, now: Time, id: Id)
    requires Core(r, now) && id < |r.attempts| && r.attempts[id].dispatchAt.Some?
    ensures r.attempts[id].dispatchAt.value <= now
  {
    hide Boundary;
    assert DispatchOk(r, id, now);
  }

  lemma ReturnChargeKeeps(w: World, n: nat, k: Readings)
    requires Inv(w) && Timely(w, k)
    ensures Inv(DoReturnCharge(w, n, k))
  {
    hide Core, Charging, Refunding, Receiving, Revoking, Steady, RetryOk;
    if n < |w.calls| && w.calls[n].ChargeReturn? && w.calls[n].attempt < |w.r.attempts| {
      var v := DoReturnCharge(w, n, k);
      ReleaseDispatchSteady(w.r, w.calls[n].attempt, k.first);
      SteadyKeepsCore(w.r, v.r, w.now, v.now);
      RetryingReleased(w, w.calls[n].attempt, k.first);
      RetryingSame(w.(r := v.r), v);
      RevokingSame(w, v);
      Quiet(w, v, Finished);
    }
  }

  lemma RetryingReleased(w: World, id: Id, now: Time)
    requires Retrying(w) && id < |w.r.attempts|
    ensures Retrying(w.(r := ReleaseDispatchTx(w.r, id, now)))
  {
    var v := w.(r := ReleaseDispatchTx(w.r, id, now));
    forall i | 0 <= i < |v.r.attempts|
      ensures RetryOk(v.r.attempts[i], Inconclusive(v.log, i))
    {
      assert RetryOk(w.r.attempts[i], Inconclusive(w.log, i));
    }
  }
}
