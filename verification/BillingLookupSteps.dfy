/** The lookups of the billing protocol keep its invariant: claims, the calls in between, and commits. */
module BillingLookupSteps {
  import opened Prelude
  import opened BillingCalendar
  import opened BillingRows
  import opened BillingCore
  import opened BillingProgress
  import opened BillingWorld
  import opened BillingInvariant
  import opened BillingSteps

  lemma ClaimRetrying(w: World, id: Id, force: bool, token: nat, now: Time)
    requires Retrying(w) && id < |w.r.attempts| && Core(w.r, w.now)
    ensures Retrying(w.(r := ReconcileClaimTx(w.r, id, force, token, now).0))
  {
    var v := w.(r := ReconcileClaimTx(w.r, id, force, token, now).0);
    ClaimedIsDispatched(w.r, w.now, id);
    forall i | 0 <= i < |v.r.attempts|
      ensures RetryOk(v.r.attempts[i], Inconclusive(v.log, i))
    {
      assert RetryOk(w.r.attempts[i], Inconclusive(w.log, i));
    }
  }

  lemma ClaimedIsDispatched(r: Rows, now: Time, id: Id)
    requires Core(r, now) && id < |r.attempts|
    ensures Undispatched(r.attempts[id].status) <==> r.attempts[id].dispatchAt.None?
    ensures Settled(r.attempts[id].status) <==> id < r.c.nextCycle
    ensures r.attempts[id].cycle == id && r.attempts[id].quoteId < |r.quotes|
    ensures !Settled(r.attempts[id].status) ==> id == r.c.nextCycle
  {
    hide Boundary;
    assert AttemptOk(r, id);
  }

  lemma ClaimKeeps(w: World, v: World, id: Id, force: bool, x: Call, k: Readings)
    requires Inv(w) && Timely(w, k) && id < |w.r.attempts|
    requires v == w.(r := ReconcileClaimTx(w.r, id, force, w.nextToken, k.first).0, now := k.last, nextToken := w.nextToken + 1, calls := v.calls)
    requires OnlyNewCall(w, v, x) && x.LookupClaimed? && TicketCallOk(x, v.r, v.log.commits)
    ensures Inv(v)
  {
    hide Charging, Refunding, Receiving, Core, Steady, Revoking, Retrying, OnlyNewCall, TicketCallOk;
    ReconcileClaimSteady(w.r, id, force, w.nextToken, k.first);
    SteadyKeepsCore(w.r, v.r, w.now, v.now);
    ClaimRetrying(w, id, force, w.nextToken, k.first);
    RetryingSame(w.(r := v.r), v);
    RevokingSame(w, v);
    ClaimAdvances(w.r, id, force, w.nextToken, k.first);
    Quiet(w, v, x);
  }

  lemma ClaimAdvances(r: Rows, id: Id, force: bool, token: nat, now: Time)
    requires id < |r.attempts|
    ensures var s := ReconcileClaimTx(r, id, force, token, now).0;
      Advances(r, s) && |s.attempts| == |r.attempts| && s.refunds == r.refunds && s.receipts == r.receipts
          && s.instruments == r.instruments
  {
  }

  lemma ClaimLookupKeeps(w: World, id: Id, force: bool, k: Readings)
    requires Inv(w) && Timely(w, k)
    ensures Inv(DoClaimLookup(w, id, force, k))
  {
    hide Charging, Refunding, Receiving, Core, Revoking, Retrying;
    var v := DoClaimLookup(w, id, force, k);
    if id < |w.r.attempts| {
      if ReconcileClaimTx(w.r, id, force, w.nextToken, k.first).1.None? {
        Idles(w, v);
      } else {
        ClaimKeeps(w, v, id, force, v.calls[|w.calls|], k);
      }
    }
  }

  lemma LookupForEventKeeps(w: World, n: nat, k: Readings)
    requires Inv(w) && Timely(w, k)
    ensures Inv(DoLookupForEvent(w, n, k))
  {
    hide Charging, Refunding, Core, Revoking, Retrying, ReceiptOk;
    if n < |w.calls| && w.calls[n].EventLookup? {
      var v := DoLookupForEvent(w, n, k);
      var t := w.calls[n].eventTicket;
      assert TicketCallOk(w.calls[n], w.r, w.log.commits);
      if t.attemptId.None? || t.attemptId.value >= |w.r.attempts|
          || ReconcileClaimTx(w.r, t.attemptId.value, true, w.nextToken, k.first).1.None? {
        CallChanges(w, v, v.calls[n]);
      } else {
        ClaimKeeps(w, v, t.attemptId.value, true, v.calls[n], k);
      }
    }
  }

  /** One call becomes another and time passes; no row changes. */
  lemma CallChanges(w: World, v: World, x: Call)
    requires Inv(w) && w.now <= v.now && v == w.(now := v.now, calls := v.calls)
    requires OnlyNewCall(w, v, x) && !x.ChargeCall? && !x.RefundCall? && RefundCallOk(x, v.r, v.log)
        && TicketCallOk(x, v.r, v.log.commits)
    ensures Inv(v)
  {
    hide Charging, Refunding, Receiving, Core, Revoking, Retrying, OnlyNewCall, TicketCallOk, RefundCallOk;
    assert Steady(w.r, v.r) by {
      SteadySame(w.r);
    }
    SteadyKeepsCore(w.r, v.r, w.now, v.now);
    AdvancesReflexive(w.r);
    RetryingSame(w, v);
    RevokingSame(w, v);
    Quiet(w, v, x);
  }

  lemma StartLookupKeeps(w: World, n: nat, k: Readings)
    requires Inv(w) && Timely(w, k)
    ensures Inv(DoStartLookup(w, n, k))
  {
    hide Charging, Refunding, Core, Revoking, Retrying;
    if n < |w.calls| && w.calls[n].LookupClaimed? {
      var v := DoStartLookup(w, n, k);
      var x := w.calls[n];
      assert TicketCallOk(x, w.r, w.log.commits);
      if x.ticket.Some? {
        assert ReceiptOk(w.r.receipts[x.ticket.value.receipt], w.log.commits, w.now);
      }
      CallChanges(w, v, v.calls[n]);
    }
  }

  // ----- Commits -----

  lemma {:induction false} ApplyKeepsRefunds(refunds: seq<Refund>, attemptId: Id, mock: bool, xs: seq<Cancellation>, now: Time, r: Rows)
    requires forall j :: 0 <= j < |refunds| ==> RefundOk(refunds[j], r)
    ensures var out := ApplyCancellations(refunds, attemptId, mock, xs, now);
      out.Applied? ==> |out.refunds| == |refunds| && forall j :: 0 <= j < |refunds| ==> RefundOk(out.refunds[j], r)
    decreases |xs|
  {
    hide CancelIdTaken, FindRefund;
    if xs != [] {
      ApplyKeepsRefunds(refunds, attemptId, mock, xs[1..], now, r);
      var j := FindRefund(refunds, attemptId, xs[0]);
      if j.Some? && refunds[j.value].requestAmount == xs[0].amount {
        ApplyKeepsRefunds(refunds[j.value := VerifyRefund(refunds[j.value], xs[0].cancelId, xs[0].amount, now)], attemptId, mock, xs[1..], now, r);
      }
    }
  }

  /** What a commit leaves of the refund rows, receipts and instruments, and of the attempts' retry counts. */
  lemma {:induction false} CommitShape(w: World, id: Id, token: nat, fence: nat, result: LookupResult, k: Readings)
    requires Inv(w) && Timely(w, k) && id < |w.r.attempts| && w.r.attempts[id].quoteId < |w.r.quotes|
    ensures var tx := ReconcileCommitTx(w.r, w.mock, id, token, fence, result, k);
      tx.Ok? ==>
        && Core(tx.rows, k.last) && Advances(w.r, tx.rows)
        && |tx.rows.attempts| == |w.r.attempts| && |tx.rows.refunds| == |w.r.refunds|
        && tx.rows.receipts == w.r.receipts && tx.rows.instruments == w.r.instruments
        && (forall j :: 0 <= j < |tx.rows.refunds| ==> RefundOk(tx.rows.refunds[j], tx.rows))
  {
    hide Charging, Receiving, Core, Revoking, Retrying, Advances, ReconcileCommitTx, ReservedSum, RefundOk;
    ClaimedIsDispatched(w.r, w.now, id);
    assert RetryOk(w.r.attempts[id], Inconclusive(w.log, id)) by {
      RetryOf(w, id);
    }
    ReconcileCommitAdvances(w.r, w.mock, id, token, fence, result, k);
    CommitCore(w.r, w.mock, id, token, fence, result, k, w.now);
    CommitRefundRows(w, id, token, fence, result, k);
  }

  lemma CommitRefundRows(w: World, id: Id, token: nat, fence: nat, result: LookupResult, k: Readings)
    requires Refunding(w) && id < |w.r.attempts| && w.r.attempts[id].quoteId < |w.r.quotes|
    requires Settled(w.r.attempts[id].status) || w.r.attempts[id].cycle >= w.r.c.nextCycle
    ensures var tx := ReconcileCommitTx(w.r, w.mock, id, token, fence, result, k);
      tx.Ok? ==>
        && |tx.rows.attempts| == |w.r.attempts| && |tx.rows.refunds| == |w.r.refunds|
        && tx.rows.receipts == w.r.receipts && tx.rows.instruments == w.r.instruments
        && (forall j :: 0 <= j < |tx.rows.refunds| ==> RefundOk(tx.rows.refunds[j], tx.rows))
  {
    hide Matches, Boundary, ApplyCancellations, LatestPeriod, FindPeriod, Pow2, ReservedSum, RefundCallOk, RefundSentOk;
    var tx := ReconcileCommitTx(w.r, w.mock, id, token, fence, result, k);
    if result.Evidence? {
      ApplyKeepsRefunds(w.r.refunds, id, w.mock, result.payment.cancellations, k.first, w.r);
    }
    if tx.Ok? {
      forall j | 0 <= j < |tx.rows.refunds|
        ensures RefundOk(tx.rows.refunds[j], tx.rows)
      {
        assert RefundOk(tx.rows.refunds[j], w.r);
      }
    }
  }

  lemma RetryOf(w: World, id: Id)
    requires Retrying(w) && id < |w.r.attempts|
    ensures RetryOk(w.r.attempts[id], Inconclusive(w.log, id))
  {
  }

  lemma {:induction false} CommitCore(r: Rows, mock: bool, id: Id, token: nat, fence: nat, result: LookupResult, k: Readings, now: Time)
    requires Core(r, now) && now <= k.first <= k.last && id < |r.attempts| && r.attempts[id].quoteId < |r.quotes|
    requires !Settled(r.attempts[id].status) && r.attempts[id].status != DispatchUnknown ==> r.attempts[id].leaseOwner.None?
    ensures var tx := ReconcileCommitTx(r, mock, id, token, fence, result, k); tx.Ok? ==> Core(tx.rows, k.last)
    ensures ReconcileCommitTx(r, mock, id, token, fence, result, k) != Fail(PeriodInconsistency)
    ensures !Settled(r.attempts[id].status) ==> ReconcileCommitTx(r, mock, id, token, fence, result, k).Ok?
  {
    hide Core, Boundary, ReconcileSettledTx, SettleTx, Matches, Pow2, Steady;
    var tx := ReconcileCommitTx(r, mock, id, token, fence, result, k);
    var a := r.attempts[id];
    ClaimedIsDispatched(r, now, id);
    if a.leaseOwner != Some(Worker(token)) || a.fence != fence {
      SteadySame(r);
      SteadyKeepsCore(r, r, now, k.last);
    } else if Settled(a.status) {
      ReconcileSettledSteady(r, mock, id, result, k);
      SettledNeverInconsistent(r, mock, id, result, k);
      CommitSettledSteady(r, mock, id, token, fence, result, k);
      if tx.Ok? {
        SteadyKeepsCore(r, tx.rows, now, k.last);
      }
    } else if Settling(r, id, result, k) {
      SettleKeepsCore(r, id, result.payment.paidAt.value, result.payment.cancelledAmount, k, now);
    } else {
      CommitUnsettledSteady(r, mock, id, token, fence, result, k);
      SteadyKeepsCore(r, tx.rows, now, k.last);
    }
  }

  lemma SettledNeverInconsistent(r: Rows, mock: bool, id: Id, result: LookupResult, k: Readings)
    requires id < |r.attempts|
    ensures ReconcileSettledTx(r, mock, id, result, k) != Fail(PeriodInconsistency)
  {
    hide ApplyCancellations, Matches, FindPeriod;
  }

  lemma {:induction false} CommitSettledSteady(r: Rows, mock: bool, id: Id, token: nat, fence: nat, result: LookupResult, k: Readings)
    requires id < |r.attempts| && r.attempts[id].quoteId < |r.quotes| && Settled(r.attempts[id].status)
    ensures var tx := ReconcileCommitTx(r, mock, id, token, fence, result, k); tx.Ok? ==> Steady(r, tx.rows)
    ensures ReconcileCommitTx(r, mock, id, token, fence, result, k).Fail? ==> ReconcileCommitTx(r, mock, id, token, fence, result, k) == ReconcileSettledTx(r, mock, id, result, k)
  {
    hide ReconcileSettledTx, SettleTx, Matches;
    ReconcileSettledSteady(r, mock, id, result, k);
  }

  /** The commits of an unsettled attempt that do not settle it. */
  predicate Settling(r: Rows, id: Id, result: LookupResult, k: Readings)
    requires id < |r.attempts|
  {
    && result.Evidence? && Matches(result.payment, r.attempts[id], r.c) && result.payment.cancelledAmount <= 0
    && result.payment.status == ObservedPaid && result.payment.paidAt.Some? && result.payment.paidAt.value <= k.first
  }

  lemma CommitUnsettledSteady(r: Rows, mock: bool, id: Id, token: nat, fence: nat, result: LookupResult, k: Readings)
    requires id < |r.attempts| && r.attempts[id].quoteId < |r.quotes| && !Settled(r.attempts[id].status)
        && !Undispatched(r.attempts[id].status)
    requires !Settling(r, id, result, k)
    ensures var tx := ReconcileCommitTx(r, mock, id, token, fence, result, k); tx.Ok? && Steady(r, tx.rows) && tx.rows.refunds == r.refunds
  {
    hide SettleTx, Matches, Pow2;
  }

  /** A committed inconclusive lookup uses up its own claim's count, so the limit is reached after eight of them. */
  lemma CommitRetry(a: Attempt, r: Rows, mock: bool, id: Id, token: nat, fence: nat, result: LookupResult, k: Readings, n: nat)
    requires id < |r.attempts| && a == r.attempts[id] && a.quoteId < |r.quotes| && RetryOk(a, n)
    ensures var tx := ReconcileCommitTx(r, mock, id, token, fence, result, k);
      tx.Ok? && |tx.rows.attempts| == |r.attempts| ==>
        && (tx.out == Retry && !Settled(a.status) ==> RetryOk(tx.rows.attempts[id], n + 1))
        && (!(tx.out == Retry && !Settled(a.status)) ==> RetryOk(tx.rows.attempts[id], n))
        && (forall i :: 0 <= i < |r.attempts| && i != id ==> tx.rows.attempts[i] == r.attempts[i])
  {
    hide Matches, Boundary, ApplyCancellations, LatestPeriod, FindPeriod, Pow2;
  }

  lemma {:induction false} CommitRetrying(w: World, n: nat, lookup: LookupResult, k: Readings)
    requires Inv(w) && Timely(w, k) && n < |w.calls| && w.calls[n].LookupSent?
    ensures Retrying(DoCommitLookup(w, n, lookup, k))
  {
    hide Core, Charging, Refunding, Receiving, Revoking, ReconcileCommitTx, RetryOk, Advances;
    var x := w.calls[n];
    var v := DoCommitLookup(w, n, lookup, k);
    if x.attempt < |w.r.attempts| && w.r.attempts[x.attempt].quoteId < |w.r.quotes| {
      CommitShape(w, x.attempt, x.token, x.fence, lookup, k);
      CommitRetry(w.r.attempts[x.attempt], w.r, w.mock, x.attempt, x.token, x.fence, lookup, k, Inconclusive(w.log, x.attempt));
      forall i | 0 <= i < |v.r.attempts|
        ensures RetryOk(v.r.attempts[i], Inconclusive(v.log, i))
      {
        assert RetryOk(w.r.attempts[i], Inconclusive(w.log, i));
      }
    }
  }

  lemma {:induction false} CommitLookupKeeps(w: World, n: nat, lookup: LookupResult, k: Readings)
    requires Inv(w) && Timely(w, k)
    ensures Inv(DoCommitLookup(w, n, lookup, k))
  {
    hide Core, Charging, Refunding, Revoking, Retrying, ReconcileCommitTx, Advances, RefundOk, ReceiptOk;
    if n < |w.calls| && w.calls[n].LookupSent? {
      var x := w.calls[n];
      var v := DoCommitLookup(w, n, lookup, k);
      if x.attempt < |w.r.attempts| && w.r.attempts[x.attempt].quoteId < |w.r.quotes| {
        assert TicketCallOk(x, w.r, w.log.commits);
        var tx := ReconcileCommitTx(w.r, w.mock, x.attempt, x.token, x.fence, lookup, k);
        if tx.Fail? || tx.out == Skipped {
          CallChanges(w, v, v.calls[n]);
        } else {
          CommitShape(w, x.attempt, x.token, x.fence, lookup, k);
          CommitRetrying(w, n, lookup, k);
          RevokingSame(w, v);
          Keeps(w, v, v.calls[n]);
        }
      }
    }
  }

  // ----- Cancellation and revocation -----

  lemma CancelKeeps(w: World, k: Readings)
    requires Inv(w) && Timely(w, k)
    ensures Inv(DoCancel(w, k))
  {
    hide Core, Charging, Refunding, Receiving, Revoking, Retrying, Steady, CancellationComplete;
    var v := DoCancel(w, k);
    var tx := CancelTx(w.r);
    if tx.Fail? || tx.out.Replay? {
      Idles(w, v);
    } else {
      CancelSteady(w.r);
      SteadyKeepsCore(w.r, v.r, w.now, v.now);
      CancelRetrying(w);
      RetryingSame(w.(r := v.r), v);
      RevokingSame(w, v);
      Quiet(w, v, v.calls[|w.calls|]);
    }
  }

  lemma CancelRetrying(w: World)
    requires Retrying(w) && CancelTx(w.r).Ok?
    ensures Retrying(w.(r := CancelTx(w.r).rows))
  {
    hide CancellationComplete;
    var v := w.(r := CancelTx(w.r).rows);
    forall i | 0 <= i < |v.r.attempts|
      ensures RetryOk(v.r.attempts[i], Inconclusive(v.log, i))
    {
      assert RetryOk(w.r.attempts[i], Inconclusive(w.log, i));
    }
  }

  lemma VerifyCancelKeeps(w: World, n: nat, k: Readings)
    requires Inv(w) && Timely(w, k)
    ensures Inv(DoVerifyCancel(w, n, k))
  {
    hide Core, Charging, Refunding, Receiving, Retrying, Steady;
    if n < |w.calls| && w.calls[n].CancelCall? {
      var v := DoVerifyCancel(w, n, k);
      CancelVerifySteady(w.r, w.mock, w.calls[n].version, k.first);
      SteadyKeepsCore(w.r, v.r, w.now, v.now);
      RetryingSame(w, v);
      forall i | 0 <= i < |v.r.instruments|
        ensures InstrumentOk(v.r.instruments[i], v.mock)
      {
        assert InstrumentOk(w.r.instruments[i], w.mock);
      }
      Quiet(w, v, Finished);
    }
  }

  lemma InstrumentRowsKeep(w: World, v: World, x: Call)
    requires Inv(w) && w.now <= v.now && w.nextToken <= v.nextToken && Revoking(v)
    requires v == w.(r := w.r.(instruments := v.r.instruments), now := v.now, nextToken := v.nextToken, calls := v.calls)
    requires |v.r.instruments| == |w.r.instruments|
    requires OnlyNewCall(w, v, x) && (x.RevokeCall? || x.Finished?)
    ensures Inv(v)
  {
    hide Core, Charging, Refunding, Receiving, Retrying, Steady, Revoking, OnlyNewCall;
    assert Steady(w.r, v.r) by {
      InstrumentsSteady(w.r, v.r.instruments);
    }
    SteadyKeepsCore(w.r, v.r, w.now, v.now);
    RetryingSame(w, v);
    Quiet(w, v, x);
  }

  lemma InstrumentsSteady(r: Rows, instruments: seq<Instrument>)
    requires |instruments| == |r.instruments|
    ensures Steady(r, r.(instruments := instruments))
  {
  }

  lemma ClaimRevokeKeeps(w: World, i: Id, k: Readings)
    requires Inv(w) && Timely(w, k)
    ensures Inv(DoClaimRevoke(w, i, k))
  {
    hide Core, Charging, Refunding, Receiving, Retrying;
    var v := DoClaimRevoke(w, i, k);
    var tx := RevokeClaimTx(w.r, i, w.nextToken, k);
    if tx.Fail? || tx.out.None? {
      Idles(w, v);
    } else {
      InstrumentRowsKeep(w, v, v.calls[|w.calls|]);
    }
  }

  lemma CommitRevokeKeeps(w: World, n: nat, deleted: bool, k: Readings)
    requires Inv(w) && Timely(w, k)
    ensures Inv(DoCommitRevoke(w, n, deleted, k))
  {
    hide Core, Charging, Refunding, Receiving, Retrying;
    if n < |w.calls| && w.calls[n].RevokeCall? && w.calls[n].instrument < |w.r.instruments| {
      InstrumentRowsKeep(w, DoCommitRevoke(w, n, deleted, k), Finished);
    }
  }

  lemma DeleteAccountKeeps(w: World, shared: bool, k: Readings)
    requires Inv(w) && Timely(w, k)
    ensures Inv(Apply(w, DeleteAccountTx(w.r, shared), k))
  {
    hide Core, Charging, Refunding, Receiving, Retrying, Revoking, DeletionGate, Steady;
    var v := Apply(w, DeleteAccountTx(w.r, shared), k);
    if DeleteAccountTx(w.r, shared).Fail? {
      Idles(w, v);
    } else {
      assert Steady(w.r, v.r) by {
        DetachedSteady(w.r);
      }
      SteadyKeepsCore(w.r, v.r, w.now, v.now);
      RetryingSame(w, v);
      RevokingSame(w, v);
      Quiet(w, v, Finished);
    }
  }

  lemma DetachedSteady(r: Rows)
    ensures Steady(r, r.(c := r.c.(hasUser := false)))
  {
  }
}
