/** What deleting an account leaves of its contract, with a provider that may say anything and with an honest one. */
module BillingDeletion {
  import opened Prelude
  import opened BillingCalendar
  import opened BillingRows
  import opened BillingCore
  import opened BillingProgress
  import opened BillingWorld
  import opened BillingInvariant
  import opened BillingSteps
  import opened BillingLookupSteps
  import opened BillingRefundSteps
  import opened BillingHistory
  import opened BillingTheorems
  import opened BillingLeases
  import opened BillingStops

  // ----- A detached contract -----

  predicate NoRefundCall(calls: seq<Call>) {
    forall n :: 0 <= n < |calls| ==> !calls[n].RefundCall?
  }

  /** What the deletion gate leaves behind: no user, nothing reserved, nothing requested. */
  predicate Detached(r: Rows) {
    && !r.c.hasUser
    && (forall i :: 0 <= i < |r.attempts| ==> r.attempts[i].status != Created)
    && (forall j :: 0 <= j < |r.refunds| ==> r.refunds[j].status != Requested)
  }

  lemma DeletionDetaches(w: World, shared: bool, k: Readings)
    requires Timely(w, k) && w.r.c.hasUser && !Do(w, DeleteAccount(shared, k)).r.c.hasUser
    ensures Detached(Do(w, DeleteAccount(shared, k)).r) && DeletionGate(w.r)
  {
  }

  lemma {:induction false} StepStaysDetached(w: World, act: Action)
    requires Inv(w) && Detached(w.r)
    ensures var v := Do(w, act);
      Detached(v.r) && |v.r.attempts| == |w.r.attempts| && |v.r.refunds| == |w.r.refunds| && v.log.markers == w.log.markers
      && (NoRefundCall(w.calls) ==> NoRefundCall(v.calls) && v.log.refunds == w.log.refunds)
  {
    hide Inv, Advances, Do, Detached;
    var v := Do(w, act);
    StepAdvances(w, act);
    DetachedRows(w, act);
    DetachedAdvances(w.r, v.r);
    MarkerStep(w, act);
    DetachedCreates(w, act);
    StepCalls(w, act);
    DetachedCalls(w, act);
  }

  lemma DetachedCreates(w: World, act: Action)
    requires Detached(w.r)
    ensures act.Dispatch? && act.attempt < |w.r.attempts| ==> w.r.attempts[act.attempt].status != Created
  {
  }

  lemma DetachedAdvances(r: Rows, s: Rows)
    requires Advances(r, s) && Detached(r) && |s.attempts| == |r.attempts| && |s.refunds| == |r.refunds|
    ensures Detached(s)
  {
    forall i | 0 <= i < |s.attempts|
      ensures s.attempts[i].status != Created
    {
      assert AttemptAdvances(r.attempts[i], s.attempts[i]);
    }
    forall j | 0 <= j < |s.refunds|
      ensures s.refunds[j].status != Requested
    {
      assert RefundAdvances(r.refunds[j], s.refunds[j]);
    }
  }

  /** Without a user, nothing adds an attempt or a refund record. */
  lemma {:induction false} DetachedRows(w: World, act: Action)
    requires Inv(w) && Detached(w.r)
    ensures |Do(w, act).r.attempts| == |w.r.attempts| && |Do(w, act).r.refunds| == |w.r.refunds|
  {
    hide Inv, DoCommitLookup, LatestPaid, FindPeriod, FindCycle, FindKey, CurrentQuote, QuoteProblem, Boundary,
      CancellationComplete, DeletionGate, ReservedSum, FindRefundKey, FindEvent, FindPayment, Pow2, ExpectationMet,
      CancelIdTaken, Matches;
    if act.CommitLookup? && Timely(w, act.k) {
      CommitLengths(w, act.call, act.lookup, act.k);
    }
  }

  lemma CommitLengths(w: World, n: nat, lookup: LookupResult, k: Readings)
    requires Inv(w) && Timely(w, k)
    ensures |DoCommitLookup(w, n, lookup, k).r.attempts| == |w.r.attempts|
        && |DoCommitLookup(w, n, lookup, k).r.refunds| == |w.r.refunds|
  {
    hide Inv, ReconcileCommitTx, Core, Advances, RefundOk;
    if n < |w.calls| && w.calls[n].LookupSent? {
      var x := w.calls[n];
      if x.attempt < |w.r.attempts| && w.r.attempts[x.attempt].quoteId < |w.r.quotes| {
        CommitShape(w, x.attempt, x.token, x.fence, lookup, k);
      }
    }
  }

  lemma DetachedCalls(w: World, act: Action)
    requires Detached(w.r)
    ensures NoRefundCall(w.calls) ==> NoRefundCall(Do(w, act).calls) && Do(w, act).log.refunds == w.log.refunds
  {
    hide ReconcileCommitTx, CommitRefundTx, ReleaseRefundTx, RenewTx, ChargeTx, CreateQuoteTx, PrepareTx, ConfirmTx,
      RequestRefundTx, ApproveRefundTx, AuditClaimTx, RecordEventTx, EventClaimTx, EventFinishTx, DeleteAccountTx,
      CancelTx, CancelVerifyTx, RevokeClaimTx, RevokeCommitTx, ReleaseDispatchTx, ReconcileClaimTx, Pow2, DispatchTx;
  }

  /** After deletion no run of any continuation adds an attempt or writes a marker, and none sends a refund unless a
      refund call was already in flight. */
  lemma {:induction false} DetachedRun(w: World, acts: seq<Action>)
    requires Inv(w) && Detached(w.r)
    ensures var v := Run(w, acts);
      Inv(v) && Detached(v.r) && |v.r.attempts| == |w.r.attempts| && v.log.markers == w.log.markers
      && (NoRefundCall(w.calls) ==> NoRefundCall(v.calls) && v.log.refunds == w.log.refunds)
    decreases |acts|
  {
    hide Inv, Do, Detached, NoRefundCall;
    if acts != [] {
      var before := Run(w, acts[..|acts| - 1]);
      DetachedRun(w, acts[..|acts| - 1]);
      StepKeepsInv(before, acts[|acts| - 1]);
      StepStaysDetached(before, acts[|acts| - 1]);
    }
  }

  /** With a provider that may say anything, a deleted contract still sends a refund in some run exactly when a
      refund call was in flight at the deletion. */
  lemma DeletedContractRefundsExactlyWhen(w: World)
    requires Inv(w) && Detached(w.r)
    ensures (exists acts :: Run(w, acts).log.refunds != w.log.refunds) <==> !NoRefundCall(w.calls)
  {
    hide Inv, Run, Do, Detached;
    if NoRefundCall(w.calls) {
      forall acts
        ensures Run(w, acts).log.refunds == w.log.refunds
      {
        DetachedRun(w, acts);
      }
    } else {
      var n :| 0 <= n < |w.calls| && w.calls[n].RefundCall?;
      PendingRefundSends(w, n);
    }
  }

  lemma PendingRefundSends(w: World, n: nat)
    requires Inv(w) && n < |w.calls| && w.calls[n].RefundCall?
    ensures Run(w, [SendRefund(n, Readings(w.now, w.now, w.now))]).log.refunds != w.log.refunds
  {
    hide Core, Charging, Receiving, Retrying, Revoking, ReservedSum, RefundOk;
    assert RefundCallOk(w.calls[n], w.r, w.log);
    var acts := [SendRefund(n, Readings(w.now, w.now, w.now))];
    assert acts[..0] == [];
    assert Run(w, acts) == Do(w, acts[0]);
  }

  // ----- A provider that reports only what it was asked for -----

  predicate WasSent(log: Log, refund: Id) {
    exists e :: 0 <= e < |log.refunds| && log.refunds[e].refund == refund
  }

  predicate WasCharged(log: Log, attempt: Id) {
    exists e :: 0 <= e < |log.charges| && log.charges[e].attempt == attempt
  }

  /** The attempt a lookup about to commit is for, when its evidence is about that attempt's payment. */
  predicate Observes(w: World, act: Action, id: Id) {
    && act.CommitLookup? && act.lookup.Evidence? && act.call < |w.calls| && w.calls[act.call].LookupSent?
    && w.calls[act.call].attempt == id < |w.r.attempts| && act.lookup.payment.paymentId == w.r.attempts[id].paymentId
  }

  /** The provider knows a payment only if its charge was sent before, and a cancellation names a refund record only if
      that record's refund was. */
  predicate HonestAction(w: World, act: Action) {
    && (forall id :: 0 <= id < |w.r.attempts| && Observes(w, act, id) ==> WasCharged(w.log, id))
    && (act.CommitLookup? && act.lookup.Evidence? ==>
          forall x :: x in act.lookup.payment.cancellations && x.names.Some? ==> WasSent(w.log, x.names.value))
    && (act.SettleRefund? && act.found.Some? && act.call < |w.calls| && w.calls[act.call].RefundLookup? ==> WasSent(w.log, w.calls[act.call].refund))
  }

  predicate HonestRun(w: World, acts: seq<Action>)
    decreases |acts|
  {
    acts != [] ==> HonestRun(w, acts[..|acts| - 1]) && HonestAction(Run(w, acts[..|acts| - 1]), acts[|acts| - 1])
  }

  predicate VerifiedWasSent(refunds: seq<Refund>, log: Log) {
    forall j :: 0 <= j < |refunds| && (refunds[j].status == RefundVerified || refunds[j].providerCancelId.Some?) ==> WasSent(log, j)
  }

  lemma {:induction false} ApplyHonest(refunds: seq<Refund>, attemptId: Id, mock: bool, xs: seq<Cancellation>, now: Time, log: Log)
    requires VerifiedWasSent(refunds, log)
    requires forall x :: x in xs && x.names.Some? ==> WasSent(log, x.names.value)
    ensures var out := ApplyCancellations(refunds, attemptId, mock, xs, now); out.Applied? ==> VerifiedWasSent(out.refunds, log)
    decreases |xs|
  {
    hide CancelIdTaken, FindRefundFrom, WasSent;
    if xs != [] {
      assert forall x :: x in xs[1..] ==> x in xs;
      ApplyHonest(refunds, attemptId, mock, xs[1..], now, log);
      var j := FindRefund(refunds, attemptId, xs[0]);
      if j.Some? {
        assert xs[0] in xs;
        assert WasSent(log, j.value);
        ApplyHonest(refunds[j.value := VerifyRefund(refunds[j.value], xs[0].cancelId, xs[0].amount, now)], attemptId, mock, xs[1..], now, log);
      }
    }
  }

  lemma {:induction false} CommitHonest(w: World, n: nat, lookup: LookupResult, k: Readings)
    requires VerifiedWasSent(w.r.refunds, w.log) && HonestAction(w, CommitLookup(n, lookup, k))
    ensures VerifiedWasSent(DoCommitLookup(w, n, lookup, k).r.refunds, w.log)
    ensures DoCommitLookup(w, n, lookup, k).log.refunds == w.log.refunds
  {
    hide Boundary, Matches, Pow2, LatestPeriod, FindPeriod, ApplyCancellations, VerifiedWasSent, WasSent;
    if n < |w.calls| && w.calls[n].LookupSent? && lookup.Evidence? {
      ApplyHonest(w.r.refunds, w.calls[n].attempt, w.mock, lookup.payment.cancellations, k.first, w.log);
    }
  }

  lemma SettleHonest(w: World, n: nat, found: Option<CancellationFound>, invalid: bool, k: Readings)
    requires VerifiedWasSent(w.r.refunds, w.log) && HonestAction(w, SettleRefund(n, found, invalid, k))
    ensures VerifiedWasSent(DoSettleRefund(w, n, found, invalid, k).r.refunds, w.log)
    ensures DoSettleRefund(w, n, found, invalid, k).log == w.log
  {
    hide Pow2, FindPeriod, CancelIdTaken, WasSent;
  }

  lemma StepHonest(w: World, act: Action)
    requires Inv(w) && VerifiedWasSent(w.r.refunds, w.log) && HonestAction(w, act)
    ensures VerifiedWasSent(Do(w, act).r.refunds, Do(w, act).log)
  {
    hide Inv, DoCommitLookup, DoSettleRefund, VerifiedWasSent, RenewTx, ChargeTx, CreateQuoteTx, PrepareTx, ConfirmTx,
      CancelTx, DispatchTx, HonestAction, RequestRefundTx, ApproveRefundTx, RefundClaimTx, AuditClaimTx,
      DeleteAccountTx, RecordEventTx;
    if Timely(w, act.k) {
      match act
      case CommitLookup(n, lookup, k) => CommitHonest(w, n, lookup, k); SameSent(w.r.refunds, DoCommitLookup(w, n, lookup, k).r.refunds, w.log, Do(w, act).log);
      case SettleRefund(n, found, invalid, k) => SettleHonest(w, n, found, invalid, k);
      case SendRefund(n, k) => MoreSent(w, act);
      case _ => OtherRefundRows(w, act);
    }
  }

  lemma SameSent(xs: seq<Refund>, ys: seq<Refund>, log: Log, next: Log)
    requires next.refunds == log.refunds
    ensures VerifiedWasSent(ys, log) ==> VerifiedWasSent(ys, next)
  {
    forall j: nat
      ensures WasSent(log, j) ==> WasSent(next, j)
    {
    }
  }

  lemma MoreSent(w: World, act: Action)
    requires act.SendRefund? && VerifiedWasSent(w.r.refunds, w.log)
    ensures VerifiedWasSent(Do(w, act).r.refunds, Do(w, act).log)
  {
    var v := Do(w, act);
    forall j: nat | WasSent(w.log, j)
      ensures WasSent(v.log, j)
    {
      var e :| 0 <= e < |w.log.refunds| && w.log.refunds[e].refund == j;
      assert v.log.refunds[e].refund == j;
    }
  }

  /** The remaining steps verify nothing. */
  lemma {:induction false} OtherRefundRows(w: World, act: Action)
    requires !act.CommitLookup? && !act.SettleRefund? && !act.SendRefund? && VerifiedWasSent(w.r.refunds, w.log)
    ensures VerifiedWasSent(Do(w, act).r.refunds, Do(w, act).log)
  {
    var v := Do(w, act);
    OtherRefunds(w, act);
    forall j: nat
      ensures WasSent(w.log, j) ==> WasSent(v.log, j)
    {
    }
  }

  lemma {:induction false} OtherRefunds(w: World, act: Action)
    requires !act.CommitLookup? && !act.SettleRefund? && !act.SendRefund?
    ensures var v := Do(w, act);
      && v.log.refunds == w.log.refunds
      && forall j :: 0 <= j < |v.r.refunds| && (v.r.refunds[j].status == RefundVerified || v.r.refunds[j].providerCancelId.Some?) ==>
           j < |w.r.refunds| && (w.r.refunds[j].status == RefundVerified || w.r.refunds[j].providerCancelId.Some?)
  {
    RefundWriters(w, act);
    hide DoDispatch, DoSendCharge, DoReturnCharge, DoClaimLookup, DoLookupForEvent, DoStartLookup, DoCommitLookup,
      DoRenew, DoCancel, DoVerifyCancel, DoClaimRevoke, DoCommitRevoke, DoSendRefund, DoSettleRefund, DoClaimEvent,
      DoFinishEvent, CreateQuoteTx, PrepareTx, ConfirmTx, ChargeTx, RecordEventTx, DeleteAccountTx, ReservedSum,
      FindRefundKey;
  }

  lemma {:induction false} RunHonest(start: World, acts: seq<Action>)
    requires Initial(start) && HonestRun(start, acts)
    ensures Inv(Run(start, acts)) && VerifiedWasSent(Run(start, acts).r.refunds, Run(start, acts).log)
    decreases |acts|
  {
    hide Inv, Do, HonestAction;
    InitialInv(start);
    if acts != [] {
      var before := Run(start, acts[..|acts| - 1]);
      RunHonest(start, acts[..|acts| - 1]);
      StepKeepsInv(before, acts[|acts| - 1]);
      StepHonest(before, acts[|acts| - 1]);
    }
  }

  // ----- Charges of an honest provider -----

  /** The statuses only the provider's evidence leads to. */
  predicate Evidenced(s: AttemptStatus) {
    s == Paid || s == Refunded || s == Failed
  }

  predicate EvidencedWasCharged(attempts: seq<Attempt>, log: Log) {
    forall i :: 0 <= i < |attempts| && Evidenced(attempts[i].status) ==> WasCharged(log, i)
  }

  /** Every evidenced attempt after a step was evidenced before it, or is the one whose payment the step observed. */
  predicate Traced(w: World, act: Action, v: World) {
    forall i :: 0 <= i < |v.r.attempts| && Evidenced(v.r.attempts[i].status) ==>
      i < |w.r.attempts| && (Evidenced(w.r.attempts[i].status) || Observes(w, act, i))
  }

  /** The same of one transaction that observes nothing. */
  predicate NoneEvidenced(before: seq<Attempt>, after': seq<Attempt>) {
    forall i :: 0 <= i < |after'| && Evidenced(after'[i].status) ==> i < |before| && Evidenced(before[i].status)
  }

  lemma ChargeEvidencesNone(r: Rows, input: ChargeInput, terms: nat, paymentId: nat, k: Readings)
    ensures var tx := ChargeTx(r, input, terms, paymentId, k); tx.Ok? ==> NoneEvidenced(r.attempts, tx.rows.attempts)
  {
    hide FindKey, FindCycle, QuoteProblem;
  }

  lemma RenewEvidencesNone(r: Rows, terms: nat, paymentId: nat, k: Readings)
    requires forall i :: 0 <= i < |r.attempts| ==> r.attempts[i].quoteId < |r.quotes| && r.attempts[i].instrumentId < |r.instruments|
    ensures var tx := RenewTx(r, terms, paymentId, k); tx.Ok? ==> NoneEvidenced(r.attempts, tx.rows.attempts)
  {
    hide Boundary, LatestPaid, FindPeriod, CurrentQuote, FindKey, FindCycle;
  }

  lemma DispatchEvidencesNone(r: Rows, id: Id, terms: nat, keyVersion: nat, decryptable: bool, k: Readings)
    requires id < |r.attempts| && r.attempts[id].quoteId < |r.quotes| && r.attempts[id].instrumentId < |r.instruments|
    ensures var tx := DispatchTx(r, id, terms, keyVersion, decryptable, k); tx.Ok? ==> NoneEvidenced(r.attempts, tx.rows.attempts)
  {
    hide Boundary, CurrentQuote;
  }

  lemma CancelEvidencesNone(r: Rows)
    ensures CancelTx(r).Ok? ==> NoneEvidenced(r.attempts, CancelTx(r).rows.attempts)
  {
    hide CancellationComplete;
  }

  lemma ReservingEvidencesNone(w: World, act: Action)
    requires act.Charge? || act.Renew? || act.Dispatch? || act.Cancel?
    ensures NoneEvidenced(w.r.attempts, Do(w, act).r.attempts)
  {
    hide ChargeTx, RenewTx, DispatchTx, CancelTx;
    match act
    case Charge(input, terms, k) => ChargeEvidencesNone(w.r, input, terms, w.nextToken, k);
    case Renew(terms, k) =>
      if forall i :: 0 <= i < |w.r.attempts| ==> w.r.attempts[i].quoteId < |w.r.quotes| && w.r.attempts[i].instrumentId < |w.r.instruments| {
        RenewEvidencesNone(w.r, terms, w.nextToken, k);
      }
    case Dispatch(a, terms, keyVersion, decryptable, k) =>
      if a < |w.r.attempts| && w.r.attempts[a].quoteId < |w.r.quotes| && w.r.attempts[a].instrumentId < |w.r.instruments| {
        DispatchEvidencesNone(w.r, a, terms, keyVersion, decryptable, k);
      }
    case Cancel(k) => CancelEvidencesNone(w.r);
  }

  lemma LeasingEvidencesNone(w: World, act: Action)
    requires act.ReturnCharge? || act.ClaimLookup? || act.LookupForEvent?
    ensures NoneEvidenced(w.r.attempts, Do(w, act).r.attempts)
  {
    hide Live;
  }

  /** A commit changes its own attempt's status to an evidenced one only on evidence about that attempt's payment. */
  lemma CommitTraced(w: World, n: nat, lookup: LookupResult, k: Readings)
    ensures Traced(w, CommitLookup(n, lookup, k), DoCommitLookup(w, n, lookup, k))
  {
    hide ReconcileCommitTx;
    if n < |w.calls| && w.calls[n].LookupSent? {
      var x := w.calls[n];
      if x.attempt < |w.r.attempts| && w.r.attempts[x.attempt].quoteId < |w.r.quotes| {
        CommitTouchesOne(w.r, w.mock, x.attempt, x.token, x.fence, lookup, k);
        CommitEvidences(w.r, w.mock, x.attempt, x.token, x.fence, lookup, k);
      }
    }
  }

  lemma CommitEvidences(r: Rows, mock: bool, id: Id, token: nat, fence: nat, result: LookupResult, k: Readings)
    requires id < |r.attempts| && r.attempts[id].quoteId < |r.quotes|
    ensures var tx := ReconcileCommitTx(r, mock, id, token, fence, result, k);
      tx.Ok? && id < |tx.rows.attempts| && Evidenced(tx.rows.attempts[id].status) ==>
        Evidenced(r.attempts[id].status) || (result.Evidence? && result.payment.paymentId == r.attempts[id].paymentId)
  {
    hide Boundary, ApplyCancellations, Pow2, LatestPeriod, FindPeriod;
  }

  lemma RefundTraced(w: World, n: nat, found: Option<CancellationFound>, invalid: bool, k: Readings)
    requires Inv(w)
    ensures NoneEvidenced(w.r.attempts, DoSettleRefund(w, n, found, invalid, k).r.attempts)
  {
    hide Core, Charging, Refunding, Receiving, Revoking, Retrying, FindPeriod, Pow2, CancelIdTaken;
    if n < |w.calls| && w.calls[n].RefundLookup? && w.calls[n].refund < |w.r.refunds| {
      RefundedAttempt(w, w.calls[n].refund);
    }
  }

  lemma StepTraced(w: World, act: Action)
    requires Inv(w)
    ensures Traced(w, act, Do(w, act))
  {
    hide Inv, Do, Observes, Evidenced;
    OtherStepsKeepAttempts(w, act);
    if act.Charge? || act.Renew? || act.Dispatch? || act.Cancel? {
      ReservingEvidencesNone(w, act);
    } else if act.ReturnCharge? || act.ClaimLookup? || act.LookupForEvent? {
      LeasingEvidencesNone(w, act);
    } else if act.CommitLookup? {
      ClosedSettled(w, act, 0);
      CommitTraced(w, act.call, act.lookup, act.k);
    } else if act.SettleRefund? {
      ClosedSettled(w, act, 0);
      RefundTraced(w, act.call, act.found, act.invalid, act.k);
    }
  }

  lemma ChargesKept(w: World, act: Action)
    ensures forall id :: WasCharged(w.log, id) ==> WasCharged(Do(w, act).log, id)
  {
    var before, after' := w.log.charges, Do(w, act).log.charges;
    assert before == after'[..|before|] && |before| <= |after'| by {
      ChargesGrow(w, act);
    }
    forall id | WasCharged(w.log, id)
      ensures WasCharged(Do(w, act).log, id)
    {
      var e :| 0 <= e < |before| && before[e].attempt == id;
      assert after'[e].attempt == id;
    }
  }

  lemma ChargesGrow(w: World, act: Action)
    ensures |w.log.charges| <= |Do(w, act).log.charges| && w.log.charges == Do(w, act).log.charges[..|w.log.charges|]
    ensures !act.SendCharge? ==> Do(w, act).log.charges == w.log.charges
  {
    hide ReconcileCommitTx, CommitRefundTx, ReleaseRefundTx, DispatchTx, RenewTx, ChargeTx, CreateQuoteTx, PrepareTx,
      ConfirmTx, RequestRefundTx, ApproveRefundTx, RefundClaimTx, AuditClaimTx, RecordEventTx, EventClaimTx,
      EventFinishTx, DeleteAccountTx, CancelTx, CancelVerifyTx, RevokeClaimTx, RevokeCommitTx, ReleaseDispatchTx,
      ReconcileClaimTx, Pow2;
  }

  lemma StepKeepsCharged(w: World, act: Action)
    requires Inv(w) && EvidencedWasCharged(w.r.attempts, w.log) && HonestAction(w, act)
    ensures EvidencedWasCharged(Do(w, act).r.attempts, Do(w, act).log)
  {
    hide Inv, Do, Observes, Evidenced, WasCharged;
    StepTraced(w, act);
    ChargesKept(w, act);
  }

  lemma {:induction false} RunCharged(start: World, acts: seq<Action>)
    requires Initial(start) && HonestRun(start, acts)
    ensures Inv(Run(start, acts)) && EvidencedWasCharged(Run(start, acts).r.attempts, Run(start, acts).log)
    decreases |acts|
  {
    hide Inv, Do, HonestAction, WasCharged;
    InitialInv(start);
    if acts != [] {
      var before := Run(start, acts[..|acts| - 1]);
      RunCharged(start, acts[..|acts| - 1]);
      StepKeepsInv(before, acts[|acts| - 1]);
      StepKeepsCharged(before, acts[|acts| - 1]);
    }
  }

  predicate NoChargeCall(calls: seq<Call>) {
    forall n :: 0 <= n < |calls| ==> !calls[n].ChargeCall?
  }

  /** Behind the gate every sent marker's charge was sent, so none is waiting to be. */
  lemma GateHasNoChargeCall(w: World)
    requires Inv(w) && DeletionGate(w.r) && EvidencedWasCharged(w.r.attempts, w.log)
    ensures NoChargeCall(w.calls)
  {
    hide Refunding, Receiving, Retrying, Revoking, Core, DeletionGate;
    forall i | 0 <= i < |w.r.attempts| && w.r.attempts[i].dispatchAt.Some?
      ensures WasCharged(w.log, i)
    {
      GatedEvidenced(w.r, w.now, i);
    }
    forall n | 0 <= n < |w.calls|
      ensures !w.calls[n].ChargeCall?
    {
      assert ChargeCallOk(w.calls[n], w.r, w.log);
    }
  }

  lemma GatedEvidenced(r: Rows, now: Time, id: Id)
    requires Core(r, now) && DeletionGate(r) && id < |r.attempts| && r.attempts[id].dispatchAt.Some?
    ensures Evidenced(r.attempts[id].status)
  {
    hide EndOf;
    assert AttemptOk(r, id);
  }

  lemma DetachedChargeCalls(w: World, act: Action)
    requires Detached(w.r) && NoChargeCall(w.calls)
    ensures NoChargeCall(Do(w, act).calls) && Do(w, act).log.charges == w.log.charges
  {
    hide ReconcileCommitTx, CommitRefundTx, ReleaseRefundTx, RenewTx, ChargeTx, CreateQuoteTx, PrepareTx, ConfirmTx,
      RequestRefundTx, ApproveRefundTx, RefundClaimTx, AuditClaimTx, RecordEventTx, EventClaimTx, EventFinishTx,
      DeleteAccountTx, CancelTx, CancelVerifyTx, RevokeClaimTx, RevokeCommitTx, ReleaseDispatchTx, ReconcileClaimTx, Pow2,
      Boundary, CurrentQuote;
  }

  lemma {:induction false} DetachedRunSendsNoCharge(w: World, acts: seq<Action>)
    requires Inv(w) && Detached(w.r) && NoChargeCall(w.calls)
    ensures NoChargeCall(Run(w, acts).calls) && Run(w, acts).log.charges == w.log.charges
    decreases |acts|
  {
    hide Inv, Do, Detached, NoChargeCall, NoRefundCall;
    if acts != [] {
      var before := Run(w, acts[..|acts| - 1]);
      DetachedRunSendsNoCharge(w, acts[..|acts| - 1]);
      DetachedRun(w, acts[..|acts| - 1]);
      DetachedChargeCalls(before, acts[|acts| - 1]);
    }
  }

  /** With a provider that reports only charges and refunds it was sent, an account that passes the deletion gate
      leaves a contract that moves no money again: no run of any continuation, even of calls in flight and whatever the
      provider says from then on, adds an attempt, writes a dispatch marker, sends a charge or sends a refund. */
  lemma {:induction false} DeletedContractIsDead(start: World, acts: seq<Action>, shared: bool, k: Readings, more: seq<Action>)
    requires Initial(start) && HonestRun(start, acts)
    requires Timely(Run(start, acts), k) && Run(start, acts).r.c.hasUser
    requires !Do(Run(start, acts), DeleteAccount(shared, k)).r.c.hasUser
    ensures var v := Do(Run(start, acts), DeleteAccount(shared, k));
      && |Run(v, more).r.attempts| == |v.r.attempts| && Run(v, more).log.markers == v.log.markers
      && Run(v, more).log.charges == v.log.charges && Run(v, more).log.refunds == v.log.refunds
  {
    hide Run, Inv, Do, Detached, HonestRun, DeletionGate, NoRefundCall, NoChargeCall, VerifiedWasSent,
      EvidencedWasCharged, Initial;
    RunHonest(start, acts);
    RunCharged(start, acts);
    var w := Run(start, acts);
    var v := Do(w, DeleteAccount(shared, k));
    StepKeepsInv(w, DeleteAccount(shared, k));
    DeletionDetaches(w, shared, k);
    GateHasNoRefundCall(w);
    GateHasNoChargeCall(w);
    DeletionKeepsCalls(w, shared, k);
    DetachedRun(v, more);
    DetachedRunSendsNoCharge(v, more);
  }

  lemma DeletionKeepsCalls(w: World, shared: bool, k: Readings)
    ensures Do(w, DeleteAccount(shared, k)).calls == w.calls
  {
    hide DeletionGate;
  }

  lemma GateHasNoRefundCall(w: World)
    requires Inv(w) && DeletionGate(w.r) && VerifiedWasSent(w.r.refunds, w.log)
    ensures NoRefundCall(w.calls)
  {
    hide Core, Charging, Receiving, Retrying, Revoking, ReservedSum, RefundSentOk;
    forall j | 0 <= j < |w.r.refunds|
      ensures WasSent(w.log, j)
    {
      assert RefundOk(w.r.refunds[j], w.r);
    }
    forall n | 0 <= n < |w.calls|
      ensures !w.calls[n].RefundCall?
    {
      assert RefundCallOk(w.calls[n], w.r, w.log);
    }
  }
}
