/** What a whole run of the billing protocol never undoes, from any state the invariant holds of. */
module BillingHistory {
  import opened Prelude
  import opened BillingCalendar
  import opened BillingRows
  import opened BillingCore
  import opened BillingProgress
  import opened BillingWorld
  import opened BillingInvariant
  import opened BillingSteps
  import opened BillingLookupSteps
  import opened BillingRefundSteps

  // ----- Rows advance -----

  lemma SimpleAdvances(r: Rows, mock: bool, k: Readings)
    ensures forall plan, terms :: var tx := CreateQuoteTx(r, plan, terms, k); tx.Ok? ==> Advances(r, tx.rows)
    ensures forall quoteId, terms :: var tx := PrepareTx(r, quoteId, terms, k); tx.Ok? ==> Advances(r, tx.rows)
    ensures forall i, bound, terms, key :: var tx := ConfirmTx(r, i, bound, terms, key, k); tx.Ok? ==> Advances(r, tx.rows)
    ensures forall id, key, reason :: var tx := RequestRefundTx(r, id, key, reason); tx.Ok? ==> Advances(r, tx.rows)
    ensures forall eventId, paymentId, x :: var tx := RecordEventTx(r, mock, eventId, paymentId, x, k.first); tx.Ok? ==> Advances(r, tx.rows)
    ensures forall shared :: var tx := DeleteAccountTx(r, shared); tx.Ok? ==> Advances(r, tx.rows)
    ensures forall version :: Advances(r, CancelVerifyTx(r, mock, version, k.first))
    ensures var tx := CancelTx(r); tx.Ok? ==> Advances(r, tx.rows)
  {
    hide QuoteProblem, FindInstrument, FindRefundKey, FindPayment, FindEvent, ReservedSum, DeletionGate,
      CancellationComplete;
  }

  lemma RefundRowAdvances(r: Rows, id: Id, token: nat, k: Readings)
    requires id < |r.refunds|
    ensures forall op :: var tx := ApproveRefundTx(r, id, op); tx.Ok? ==> Advances(r, tx.rows)
    ensures forall fence, exhausted, delay, unknownOnly :: Advances(r, ReleaseRefundTx(r, id, token, fence, exhausted, delay, unknownOnly, k.first))
  {
  }

  lemma RowAdvances(r: Rows, id: Id, token: nat, k: Readings)
    ensures id < |r.attempts| ==> Advances(r, ReleaseDispatchTx(r, id, k.first))
    ensures var tx := RevokeClaimTx(r, id, token, k); tx.Ok? ==> Advances(r, tx.rows)
    ensures id < |r.instruments| ==> forall version, verified :: Advances(r, RevokeCommitTx(r, id, version, token, verified, k.first))
    ensures id < |r.receipts| ==> Advances(r, EventClaimTx(r, id, token, k).0)
  {
    hide FindPayment;
  }

  lemma FinishAdvances(r: Rows, t: Ticket, result: EventResult, k: Readings)
    requires t.receipt < |r.receipts|
    ensures Advances(r, EventFinishTx(r, t, result, k))
  {
    hide Pow2, ExpectationMet;
  }

  lemma {:induction false} CommitLookupAdvances(w: World, n: nat, lookup: LookupResult, k: Readings)
    requires Inv(w) && Timely(w, k)
    ensures Advances(w.r, DoCommitLookup(w, n, lookup, k).r)
  {
    hide Core, Charging, Refunding, Receiving, Revoking, Retrying, ReconcileCommitTx, Advances;
    AdvancesReflexive(w.r);
    if n < |w.calls| && w.calls[n].LookupSent? {
      var x := w.calls[n];
      if x.attempt < |w.r.attempts| && w.r.attempts[x.attempt].quoteId < |w.r.quotes| {
        CommitShape(w, x.attempt, x.token, x.fence, lookup, k);
      }
    }
  }

  lemma {:induction false} SettleRefundAdvances(w: World, n: nat, found: Option<CancellationFound>, invalid: bool, k: Readings)
    ensures Advances(w.r, DoSettleRefund(w, n, found, invalid, k).r)
  {
    hide Advances, ReleaseRefundTx, CommitRefundTx, Pow2;
    AdvancesReflexive(w.r);
    if n < |w.calls| && w.calls[n].RefundLookup? {
      var x := w.calls[n];
      if x.refund < |w.r.refunds| && w.r.refunds[x.refund].attemptId < |w.r.attempts| {
        RefundRowAdvances(w.r, x.refund, x.token, k);
        if found.Some? {
          CommitRefundAdvances(w.r, x.refund, x.token, x.claim.fence, x.approval, found.value, k);
        }
      }
    }
  }

  lemma {:induction false} StepAdvances(w: World, act: Action)
    requires Inv(w)
    ensures Advances(w.r, Do(w, act).r)
  {
    hide Inv, Advances, DoCommitLookup, DoSettleRefund, ChargeTx, RenewTx, DispatchTx, CreateQuoteTx, PrepareTx,
      ConfirmTx, RequestRefundTx, ApproveRefundTx, RefundClaimTx, AuditClaimTx, RecordEventTx, EventClaimTx,
      EventFinishTx, DeleteAccountTx, CancelTx, CancelVerifyTx, RevokeClaimTx, RevokeCommitTx, ReleaseDispatchTx,
      ReconcileClaimTx;
    AdvancesReflexive(w.r);
    if Timely(w, act.k) {
      match act
      case CreateQuote(plan, terms, k) => SimpleAdvances(w.r, w.mock, k);
      case Prepare(quoteId, terms, k) => SimpleAdvances(w.r, w.mock, k);
      case Confirm(i, bound, terms, keyVersion, k) => SimpleAdvances(w.r, w.mock, k);
      case Charge(input, terms, k) => ChargeAdvances(w.r, input, terms, w.nextToken, k);
      case Renew(terms, k) =>
        if forall i :: 0 <= i < |w.r.attempts| ==> w.r.attempts[i].quoteId < |w.r.quotes| && w.r.attempts[i].instrumentId < |w.r.instruments| {
          RenewAdvances(w.r, terms, w.nextToken, k);
        }
      case Dispatch(id, terms, keyVersion, decryptable, k) =>
        if id < |w.r.attempts| && w.r.attempts[id].quoteId < |w.r.quotes|
            && w.r.attempts[id].instrumentId < |w.r.instruments| {
          DispatchAdvances(w.r, id, terms, keyVersion, decryptable, k);
        }
      case SendCharge(n, k) =>
      case ReturnCharge(n, k) =>
        if n < |w.calls| && w.calls[n].ChargeReturn? {
          RowAdvances(w.r, w.calls[n].attempt, 0, k);
        }
      case ClaimLookup(id, force, k) =>
        if id < |w.r.attempts| {
          ClaimAdvances(w.r, id, force, w.nextToken, k.first);
        }
      case StartLookup(n, k) =>
      case CommitLookup(n, lookup, k) => CommitLookupAdvances(w, n, lookup, k);
      case Cancel(k) => SimpleAdvances(w.r, w.mock, k);
      case VerifyCancel(n, k) => SimpleAdvances(w.r, w.mock, k);
      case ClaimRevoke(i, k) => RowAdvances(w.r, i, w.nextToken, k);
      case CommitRevoke(n, deleted, k) =>
        if n < |w.calls| && w.calls[n].RevokeCall? {
          RowAdvances(w.r, w.calls[n].instrument, w.calls[n].token, k);
        }
      case RequestRefund(id, key, reason, k) => SimpleAdvances(w.r, w.mock, k);
      case ApproveRefund(id, operation, k) =>
        if id < |w.r.refunds| {
          RefundRowAdvances(w.r, id, 0, k);
        }
      case ClaimRefund(id, k) =>
        if id < |w.r.refunds| && w.r.refunds[id].attemptId < |w.r.attempts| {
          RefundRowsAdvance(w.r, id, w.nextToken, k);
        }
      case SendRefund(n, k) =>
      case SettleRefund(n, found, invalid, k) => SettleRefundAdvances(w, n, found, invalid, k);
      case ClaimAudit(id, consistent, k) =>
        if id < |w.r.refunds| && w.r.refunds[id].attemptId < |w.r.attempts| {
          RefundRowsAdvance(w.r, id, w.nextToken, k);
        }
      case RecordEvent(eventId, paymentId, expectation, k) => SimpleAdvances(w.r, w.mock, k);
      case ClaimEvent(id, k) => RowAdvances(w.r, id, w.nextToken, k);
      case LookupForEvent(n, k) =>
        if n < |w.calls| && w.calls[n].EventLookup? && w.calls[n].eventTicket.attemptId.Some?
            && w.calls[n].eventTicket.attemptId.value < |w.r.attempts| {
          ClaimAdvances(w.r, w.calls[n].eventTicket.attemptId.value, true, w.nextToken, k.first);
        }
      case FinishEvent(n, k) =>
        if n < |w.calls| && w.calls[n].EventDone? && w.calls[n].eventTicket.receipt < |w.r.receipts| {
          FinishAdvances(w.r, w.calls[n].eventTicket, w.calls[n].result, k);
        }
      case DeleteAccount(shared, k) => SimpleAdvances(w.r, w.mock, k);
    }
  }

  /** Along every run, identities and markers stay, settled attempts stay settled, stop flags stay set, fences grow. */
  lemma {:induction false} RunAdvances(w: World, acts: seq<Action>)
    requires Inv(w)
    ensures Inv(Run(w, acts)) && Advances(w.r, Run(w, acts).r)
    decreases |acts|
  {
    hide Inv, Do, Advances;
    AdvancesReflexive(w.r);
    if acts != [] {
      var before := Run(w, acts[..|acts| - 1]);
      RunAdvances(w, acts[..|acts| - 1]);
      StepKeepsInv(before, acts[|acts| - 1]);
      StepAdvances(before, acts[|acts| - 1]);
      AdvancesTransitive(w.r, before.r, Run(w, acts).r);
    }
  }

  // ----- What most steps leave alone -----

  predicate WritesAttempts(act: Action) {
    act.Charge? || act.Renew? || act.Dispatch? || act.ReturnCharge? || act.ClaimLookup? || act.LookupForEvent?
        || act.CommitLookup?
    || act.Cancel? || act.SettleRefund?
  }

  /** Attempts and periods are written by few kinds of step, and periods only by commits. */
  lemma {:induction false} OtherStepsKeepAttempts(w: World, act: Action)
    ensures !WritesAttempts(act) ==> Do(w, act).r.attempts == w.r.attempts
    ensures !act.CommitLookup? && !act.SettleRefund? ==> Do(w, act).r.periods == w.r.periods
  {
    hide ReconcileCommitTx, CommitRefundTx, ReleaseRefundTx, Boundary, LatestPaid, FindPeriod, FindCycle, FindKey,
      CurrentQuote, QuoteProblem, CancellationComplete, DeletionGate, ReservedSum, FindRefundKey, FindEvent,
      FindPayment, Pow2, ExpectationMet, FindInstrument;
  }

  predicate WritesRefunds(act: Action) {
    act.RequestRefund? || act.ApproveRefund? || act.ClaimRefund? || act.ClaimAudit? || act.CommitLookup? || act.SettleRefund?
  }

  lemma RefundWriters(w: World, act: Action)
    ensures !WritesRefunds(act) ==> Do(w, act).r.refunds == w.r.refunds
    ensures !act.SendRefund? && !act.CommitLookup? && !act.SettleRefund? ==> Do(w, act).log.refunds == w.log.refunds
  {
    hide LatestPaid, FindPeriod, FindCycle, FindKey, CurrentQuote, QuoteProblem, Boundary, CancellationComplete,
      DeletionGate, FindEvent, FindPayment, Pow2, ExpectationMet, FindInstrument, RequestRefundTx, ApproveRefundTx,
      RefundClaimTx, AuditClaimTx, DoCommitLookup, DoSettleRefund;
  }
}
