/**
  The billing service as an object: its store of rows, the provider calls it has in flight and the log of what it sent.
  Each step is proved to be a step of the protocol, so serving any actions in any order is a run of it, and what is
  proved of runs holds of this object.
*/
module BillingService {
  import opened Prelude
  import opened BillingCalendar
  import opened BillingRows
  import opened BillingWorld
  import opened BillingStore
  import opened BillingTheorems
  import opened BillingMoney

  ghost predicate ChargesOncePerCycle(w: World) {
    forall d, e :: 0 <= d < e < |w.log.charges| ==>
      && w.log.charges[d].paymentId != w.log.charges[e].paymentId
      && w.log.charges[d].attempt < |w.r.attempts| && w.log.charges[e].attempt < |w.r.attempts|
      && w.r.attempts[w.log.charges[d].attempt].cycle != w.r.attempts[w.log.charges[e].attempt].cycle
  }

  ghost predicate PeriodsFollowTheAnchor(r: Rows) {
    && |r.periods| == r.c.nextCycle
    && (r.c.nextCycle > 0 ==> r.c.originalAnchor.Some? && r.c.planId.Some?)
    && (forall i :: 0 <= i < |r.periods| ==> PeriodFollows(r, i))
  }

  ghost predicate RefundsWithinCharges(w: World) {
    forall id :: 0 <= id < |w.r.attempts| ==> SentSum(w.log.refunds, id) <= w.r.attempts[id].totalAmount
  }

  class ServiceBilling {
    const store: ServiceBillingStore
    var now: Time
    var nextToken: nat
    var calls: seq<Call>
    var log: Log

    constructor (mock: bool, scope: nat, now: Time, nextToken: nat)
      ensures fresh(store) && Initial(World())
    {
      store := new ServiceBillingStore(mock, scope);
      this.now, this.nextToken, calls, log := now, nextToken, [], Log([], [], [], [], map[]);
    }

    function World(): World
      reads this, store
    {
      BillingWorld.World(store.mock, now, nextToken, store.Current(), calls, log)
    }

    // ----- Steps that keep nothing in flight -----

    method Took(committed: bool, k: Readings)
      modifies this`now, this`nextToken
      ensures now == k.last && nextToken == old(nextToken) + if committed then 1 else 0
    {
      now := k.last;
      if committed {
        nextToken := nextToken + 1;
      }
    }

    method CreateQuote(plan: Plan, terms: nat, k: Readings)
      modifies this, store
      ensures World() == Apply(old(World()), CreateQuoteTx(old(World()).r, plan, terms, k), k)
    {
      hide CreateQuoteTx;
      var result := store.CreateQuote(plan, terms, k);
      Took(result.Done?, k);
    }

    method Prepare(quoteId: Id, terms: nat, k: Readings)
      modifies this, store
      ensures World() == Apply(old(World()), PrepareTx(old(World()).r, quoteId, terms, k), k)
    {
      hide PrepareTx;
      var result := store.Prepare(quoteId, terms, k);
      Took(result.Done?, k);
    }

    method Confirm(i: Id, bound: bool, terms: nat, keyVersion: nat, k: Readings)
      modifies this, store
      ensures World() == Apply(old(World()), ConfirmTx(old(World()).r, i, bound, terms, keyVersion, k), k)
    {
      hide ConfirmTx;
      var result := store.Confirm(i, bound, terms, keyVersion, k);
      Took(result.Done?, k);
    }

    method Charge(input: ChargeInput, terms: nat, k: Readings)
      modifies this, store
      ensures World() == Apply(old(World()), ChargeTx(old(World()).r, input, terms, old(World()).nextToken, k), k)
    {
      hide ChargeTx;
      var result := store.Charge(input, terms, nextToken, k);
      Took(result.Done?, k);
    }

    method Renew(terms: nat, k: Readings)
      modifies this, store
      ensures World() == DoRenew(old(World()), terms, k)
    {
      hide RenewTx;
      if exists i :: 0 <= i < |store.attempts| && !(store.attempts[i].quoteId < |store.quotes|
          && store.attempts[i].instrumentId < |store.instruments|) {
        return;
      }
      var result := store.Renew(terms, nextToken, k);
      Took(result.Done?, k);
    }

    method RequestRefund(id: Id, key: nat, reason: nat, k: Readings)
      modifies this, store
      ensures World() == Apply(old(World()), RequestRefundTx(old(World()).r, id, key, reason), k)
    {
      hide RequestRefundTx;
      var result := store.RequestRefund(id, key, reason);
      Took(result.Done?, k);
    }

    method ApproveRefund(id: Id, operation: nat, k: Readings)
      modifies this, store
      ensures var w := old(World());
        World() == if w.mock || id >= |w.r.refunds| then w else Apply(w, ApproveRefundTx(w.r, id, operation), k)
    {
      hide ApproveRefundTx;
      if store.mock || id >= |store.refunds| {
        return;
      }
      var result := store.ApproveRefund(id, operation);
      Took(result.Done?, k);
    }

    method RecordEvent(eventId: nat, paymentId: nat, expectation: Expectation, k: Readings)
      modifies this, store
      ensures var w := old(World());
        World() == Apply(w, RecordEventTx(w.r, w.mock, eventId, paymentId, expectation, k.first), k)
    {
      hide RecordEventTx;
      var result := store.RecordVerifiedEvent(eventId, paymentId, expectation, k.first);
      Took(result.Done?, k);
    }

    // ----- Charging -----

    method Dispatch(id: Id, terms: nat, keyVersion: nat, decryptable: bool, k: Readings)
      modifies this, store
      ensures World() == DoDispatch(old(World()), id, terms, keyVersion, decryptable, k)
    {
      hide DispatchTx;
      if id >= |store.attempts| || store.attempts[id].quoteId >= |store.quotes|
          || store.attempts[id].instrumentId >= |store.instruments| {
        return;
      }
      var result := store.Dispatch(id, terms, keyVersion, decryptable, k);
      now := k.last;
      if result.Done? && result.value.Send? {
        calls := calls + [ChargeCall(id, result.value.paymentId, result.value.amount)];
        log := log.(markers := log.markers + [Marker(id, k.first)]);
      }
    }

    method SendCharge(n: nat, k: Readings)
      modifies this
      ensures World() == DoSendCharge(old(World()), n, k)
    {
      if n < |calls| && calls[n].ChargeCall? {
        var x := calls[n];
        now := k.last;
        calls := calls[n := ChargeReturn(x.attempt)];
        log := log.(charges := log.charges + [ChargeSent(x.attempt, x.paymentId, x.amount, k.first)]);
      }
    }

    method ReturnCharge(n: nat, k: Readings)
      modifies this, store
      ensures World() == DoReturnCharge(old(World()), n, k)
    {
      if n < |calls| && calls[n].ChargeReturn? && calls[n].attempt < |store.attempts| {
        store.ReleaseDispatch(calls[n].attempt, k.first);
        now := k.last;
        calls := calls[n := Finished];
      }
    }

    // ----- Reconciling -----

    method ClaimLookup(id: Id, force: bool, k: Readings)
      modifies this, store
      ensures World() == DoClaimLookup(old(World()), id, force, k)
    {
      if id < |store.attempts| {
        var fence := store.ClaimReconcile(id, force, nextToken, k.first);
        now := k.last;
        if fence.Some? {
          calls := calls + [LookupClaimed(id, nextToken, fence.value, None)];
          nextToken := nextToken + 1;
        }
      }
    }

    method LookupForEvent(n: nat, k: Readings)
      modifies this, store
      ensures World() == DoLookupForEvent(old(World()), n, k)
    {
      if n >= |calls| || !calls[n].EventLookup? {
        return;
      }
      var t := calls[n].eventTicket;
      now := k.last;
      calls := calls[n := EventDone(t, NoFreshCommit(false))];
      if t.attemptId.Some? && t.attemptId.value < |store.attempts| {
        var fence := store.ClaimReconcile(t.attemptId.value, true, nextToken, k.first);
        if fence.Some? {
          calls := calls[n := LookupClaimed(t.attemptId.value, nextToken, fence.value, Some(t))];
          nextToken := nextToken + 1;
        }
      }
    }

    method StartLookup(n: nat, k: Readings)
      modifies this
      ensures World() == DoStartLookup(old(World()), n, k)
    {
      if n < |calls| && calls[n].LookupClaimed? {
        var x := calls[n];
        now := k.last;
        calls := calls[n := LookupSent(x.attempt, x.token, x.fence, k.first, x.ticket)];
      }
    }

    method CommitLookup(n: nat, lookup: LookupResult, k: Readings)
      modifies this, store
      ensures World() == DoCommitLookup(old(World()), n, lookup, k)
    {
      hide Matches, Boundary, ApplyCancellations, FindPeriod, LatestPeriod, Pow2, Clip, Release;
      if n >= |calls| || !calls[n].LookupSent? || calls[n].attempt >= |store.attempts|
          || store.attempts[calls[n].attempt].quoteId >= |store.quotes| {
        return;
      }
      var x := calls[n];
      var settled := Settled(store.attempts[x.attempt].status);
      var result := store.CommitReconcile(x.attempt, x.token, x.fence, lookup, k);
      now := k.last;
      calls := calls[n := AfterLookup(x.ticket, NoFreshCommit(result.Done? && result.value.Review?))];
      if result.Done? && result.value.Retry? && !settled {
        log := CountInconclusive(log, x.attempt);
      }
      if result.Done? && result.value.Fresh? {
        var cancelled, total := result.value.cancelledAmount, result.value.totalAmount;
        calls := calls[n := AfterLookup(x.ticket, FreshCommit(x.fence, x.initiatedAt, cancelled, total))];
        log := log.(commits := log.commits + [Commit(x.attempt, x.fence, x.initiatedAt, cancelled, total)]);
      }
    }

    // ----- Cancelling and revoking -----

    method Cancel(k: Readings)
      modifies this, store
      ensures World() == DoCancel(old(World()), k)
    {
      hide CancellationComplete, CancelCreated;
      var result := store.Cancel();
      now := k.last;
      if result.Done? && result.value.Stopping? {
        calls := calls + [CancelCall(result.value.version)];
      }
    }

    method VerifyCancel(n: nat, k: Readings)
      modifies this, store
      ensures World() == DoVerifyCancel(old(World()), n, k)
    {
      hide CancelVerifyTx;
      if n < |calls| && calls[n].CancelCall? {
        store.VerifyCancel(calls[n].version, k.first);
        now := k.last;
        calls := calls[n := Finished];
      }
    }

    method ClaimRevoke(i: Id, k: Readings)
      modifies this, store
      ensures World() == DoClaimRevoke(old(World()), i, k)
    {
      var result := store.ClaimRevoke(i, nextToken, k);
      now := k.last;
      if result.Done? && result.value.Some? {
        calls := calls + [RevokeCall(i, result.value.value, nextToken)];
        nextToken := nextToken + 1;
      }
    }

    method CommitRevoke(n: nat, deleted: bool, k: Readings)
      modifies this, store
      ensures World() == DoCommitRevoke(old(World()), n, deleted, k)
    {
      hide RevokeCommitTx;
      if n < |calls| && calls[n].RevokeCall? && calls[n].instrument < |store.instruments| {
        store.CommitRevoke(calls[n].instrument, calls[n].version, calls[n].token, store.mock || deleted, k.first);
        now := k.last;
        calls := calls[n := Finished];
      }
    }

    // ----- Refunding -----

    method ClaimRefund(id: Id, k: Readings)
      modifies this, store
      ensures World() == DoClaimRefund(old(World()), id, k)
    {
      if id >= |store.refunds| || store.refunds[id].attemptId >= |store.attempts| {
        return;
      }
      var f := store.refunds[id];
      var paymentId := store.attempts[f.attemptId].paymentId;
      var result := store.ClaimRefund(id, nextToken, k);
      now := k.last;
      if result.Done? && result.value.Some? {
        var claim := result.value.value;
        calls := calls + [if claim.dispatch then RefundCall(id, nextToken, claim, f.requestAmount, paymentId, f.approval)
                          else RefundLookup(id, nextToken, claim, f.requestAmount, paymentId, f.approval, false)];
        nextToken := nextToken + 1;
      }
    }

    method SendRefund(n: nat, k: Readings)
      modifies this
      ensures World() == DoSendRefund(old(World()), n, k)
    {
      if n < |calls| && calls[n].RefundCall? && calls[n].refund < |store.refunds| {
        var x := calls[n];
        now := k.last;
        calls := calls[n := RefundLookup(x.refund, x.token, x.claim, x.amount, x.paymentId, x.approval, false)];
        log := log.(refunds := log.refunds + [RefundSent(x.refund, store.refunds[x.refund].attemptId, x.amount)]);
      }
    }

    method ClaimAudit(id: Id, consistent: bool, k: Readings)
      modifies this, store
      ensures World() == DoClaimAudit(old(World()), id, consistent, k)
    {
      hide AuditClaimTx;
      if store.mock || id >= |store.refunds| || store.refunds[id].attemptId >= |store.attempts| {
        return;
      }
      var f := store.refunds[id];
      var paymentId := store.attempts[f.attemptId].paymentId;
      var claim := store.ClaimAudit(id, nextToken, consistent, k);
      now := k.last;
      if claim.Some? {
        calls := calls + [RefundLookup(id, nextToken, claim.value, f.requestAmount, paymentId, f.approval, true)];
        nextToken := nextToken + 1;
      }
    }

    method SettleRefund(n: nat, found: Option<CancellationFound>, invalid: bool, k: Readings)
      modifies this, store
      ensures World() == DoSettleRefund(old(World()), n, found, invalid, k)
    {
      hide CommitRefundTx, ReleaseRefundTx, Pow2;
      if n >= |calls| || !calls[n].RefundLookup? || calls[n].refund >= |store.refunds|
          || store.refunds[calls[n].refund].attemptId >= |store.attempts| {
        return;
      }
      var x := calls[n];
      now := k.last;
      calls := calls[n := Finished];
      var wrong := found.Some? && (found.value.paymentId != x.paymentId || found.value.amount != x.amount);
      var delay := 1000 * Pow2(x.claim.lookupCount);
      var giveUp := x.audit && (wrong || (found.None? && invalid));
      if !giveUp && found.None? {
        store.ReleaseRefund(x.refund, x.token, x.claim.fence, x.claim.lookupCount >= LOOKUP_LIMIT, delay, x.audit, k.first);
        return;
      }
      if !giveUp && !wrong {
        var result := store.CommitRefund(x.refund, x.token, x.claim.fence, x.approval, found.value, k);
        giveUp := x.audit && result.Denied?;
      }
      if giveUp {
        store.ReleaseRefund(x.refund, x.token, x.claim.fence, true, delay, true, k.first);
      }
    }

    // ----- Webhook receipts and deletion -----

    method ClaimEvent(id: Id, k: Readings)
      modifies this, store
      ensures World() == DoClaimEvent(old(World()), id, k)
    {
      hide FindPayment;
      if id < |store.receipts| {
        var ticket := store.ClaimEvent(id, nextToken, k);
        now := k.last;
        if ticket.Some? {
          calls := calls + [EventLookup(ticket.value)];
          nextToken := nextToken + 1;
        }
      }
    }

    method FinishEvent(n: nat, k: Readings)
      modifies this, store
      ensures World() == DoFinishEvent(old(World()), n, k)
    {
      hide EventFinishTx;
      if n < |calls| && calls[n].EventDone? && calls[n].eventTicket.receipt < |store.receipts| {
        store.FinishEvent(calls[n].eventTicket, calls[n].result, k);
        now := k.last;
        calls := calls[n := Finished];
      }
    }

    method DeleteAccount(shared: bool, k: Readings)
      modifies this, store
      ensures World() == Apply(old(World()), DeleteAccountTx(old(World()).r, shared), k)
    {
      hide DeletionGate;
      var deletable := store.contract.hasUser && DeletionGate(store.Current()) && !shared;
      if deletable {
        store.contract := store.contract.(hasUser := false);
      }
      Took(deletable, k);
    }

    // ----- Serving -----

    /** One action, as one step of the protocol. */
    method Step(act: Action)
      modifies this, store
      ensures World() == Do(old(World()), act)
    {
      hide Apply, DoDispatch, DoSendCharge, DoReturnCharge, DoClaimLookup, DoLookupForEvent, DoStartLookup, DoCommitLookup;
      hide DoRenew, DoCancel, DoVerifyCancel, DoClaimRevoke, DoCommitRevoke, DoClaimRefund, DoSendRefund, DoClaimAudit;
      hide DoSettleRefund, DoClaimEvent, DoFinishEvent;
      if !(now <= act.k.first <= act.k.second <= act.k.last) {
        return;
      }
      match act
      case CreateQuote(plan, terms, k) => CreateQuote(plan, terms, k);
      case Prepare(quoteId, terms, k) => Prepare(quoteId, terms, k);
      case Confirm(i, bound, terms, keyVersion, k) => Confirm(i, bound, terms, keyVersion, k);
      case Charge(input, terms, k) => Charge(input, terms, k);
      case Renew(terms, k) => Renew(terms, k);
      case Dispatch(id, terms, keyVersion, decryptable, k) => Dispatch(id, terms, keyVersion, decryptable, k);
      case SendCharge(n, k) => SendCharge(n, k);
      case ReturnCharge(n, k) => ReturnCharge(n, k);
      case ClaimLookup(id, force, k) => ClaimLookup(id, force, k);
      case StartLookup(n, k) => StartLookup(n, k);
      case CommitLookup(n, lookup, k) => CommitLookup(n, lookup, k);
      case Cancel(k) => Cancel(k);
      case VerifyCancel(n, k) => VerifyCancel(n, k);
      case ClaimRevoke(i, k) => ClaimRevoke(i, k);
      case CommitRevoke(n, deleted, k) => CommitRevoke(n, deleted, k);
      case RequestRefund(id, key, reason, k) => RequestRefund(id, key, reason, k);
      case ApproveRefund(id, operation, k) => ApproveRefund(id, operation, k);
      case ClaimRefund(id, k) => ClaimRefund(id, k);
      case SendRefund(n, k) => SendRefund(n, k);
      case SettleRefund(n, found, invalid, k) => SettleRefund(n, found, invalid, k);
      case ClaimAudit(id, consistent, k) => ClaimAudit(id, consistent, k);
      case RecordEvent(eventId, paymentId, expectation, k) => RecordEvent(eventId, paymentId, expectation, k);
      case ClaimEvent(id, k) => ClaimEvent(id, k);
      case LookupForEvent(n, k) => LookupForEvent(n, k);
      case FinishEvent(n, k) => FinishEvent(n, k);
      case DeleteAccount(shared, k) => DeleteAccount(shared, k);
    }

    /** Any actions in any order: the object is then where the protocol's run is, and a new one has charged no cycle
        twice, has paid periods along the anchor only, and has sent no more refunds than it charged. */
    method Serve(acts: seq<Action>)
      modifies this, store
      ensures World() == Run(old(World()), acts)
      ensures Initial(old(World())) ==> ChargesOncePerCycle(World()) && PeriodsFollowTheAnchor(World().r) && RefundsWithinCharges(World())
    {
      hide Do, Initial, ChargesOncePerCycle, PeriodsFollowTheAnchor, RefundsWithinCharges;
      ghost var start := World();
      var i := 0;
      while i < |acts|
        invariant 0 <= i <= |acts|
        invariant World() == Run(start, acts[..i])
      {
        Step(acts[i]);
        i := i + 1;
        assert acts[..i][..i - 1] == acts[..i - 1];
      }
      assert acts[..i] == acts;
      if Initial(start) {
        Promises(start, acts);
      }
    }
  }

  lemma {:induction false} Promises(start: World, acts: seq<Action>)
    requires Initial(start)
    ensures var w := Run(start, acts);
      ChargesOncePerCycle(w) && PeriodsFollowTheAnchor(w.r) && RefundsWithinCharges(w)
  {
    hide Run, Initial, PeriodFollows, SentSum;
    var w := Run(start, acts);
    forall d, e | 0 <= d < e < |w.log.charges|
      ensures && w.log.charges[d].paymentId != w.log.charges[e].paymentId
        && w.log.charges[d].attempt < |w.r.attempts| && w.log.charges[e].attempt < |w.r.attempts|
        && w.r.attempts[w.log.charges[d].attempt].cycle != w.r.attempts[w.log.charges[e].attempt].cycle
    {
      ChargedAtMostOncePerCycle(start, acts, d, e);
    }
    PaidPeriodsFollowTheAnchor(start, acts);
    forall id | 0 <= id < |w.r.attempts|
      ensures SentSum(w.log.refunds, id) <= w.r.attempts[id].totalAmount
    {
      RefundsWithinCharge(start, acts, id);
    }
  }
}
