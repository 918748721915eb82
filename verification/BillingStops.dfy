/** Where the billing protocol must stand still: after a cancellation, after a stop of renewals, after deletion. */
module BillingStops {
  import opened Prelude
  import opened BillingCalendar
  import opened BillingRows
  import opened BillingCore
  import opened BillingProgress
  import opened BillingWorld
  import opened BillingInvariant
  import opened BillingSteps
  import opened BillingLookupSteps
  import opened BillingRefundSteps
  import opened BillingHistory
  import opened BillingTheorems
  import opened BillingLeases

  // ----- Cancellation -----

  /** Only a dispatch writes a marker, and it refuses once the flags say so. */
  lemma MarkerStep(w: World, act: Action)
    ensures !act.Dispatch? ==> Do(w, act).log.markers == w.log.markers
    ensures w.r.c.cancelRequested ==> Do(w, act).log.markers == w.log.markers
    ensures Do(w, act).log.markers == w.log.markers
            || (act.Dispatch? && act.attempt < |w.r.attempts| && w.r.attempts[act.attempt].status == Created
                && Do(w, act).log.markers == w.log.markers + [Marker(act.attempt, act.k.first)]
                && (w.r.attempts[act.attempt].cycle > 0 ==> !w.r.c.renewalStopped && !w.r.c.renewalReviewRequired))
  {
    hide ReconcileCommitTx, CommitRefundTx, ReleaseRefundTx, RenewTx, ChargeTx, CreateQuoteTx, PrepareTx, ConfirmTx,
      RequestRefundTx, ApproveRefundTx, RefundClaimTx, AuditClaimTx, RecordEventTx, EventClaimTx, EventFinishTx,
      DeleteAccountTx, CancelTx, CancelVerifyTx, RevokeClaimTx, RevokeCommitTx, ReleaseDispatchTx, ReconcileClaimTx,
      Pow2, Boundary, CurrentQuote;
  }

  /** After a cancellation no dispatch marker is ever written again, whatever was in flight. */
  lemma {:induction false} NoMarkerAfterCancel(w: World, acts: seq<Action>)
    requires Inv(w) && w.r.c.cancelRequested
    ensures Run(w, acts).log.markers == w.log.markers
    decreases |acts|
  {
    hide Inv, Do, Advances;
    if acts != [] {
      var before := Run(w, acts[..|acts| - 1]);
      NoMarkerAfterCancel(w, acts[..|acts| - 1]);
      RunAdvances(w, acts[..|acts| - 1]);
      assert before.r.c.cancelRequested by {
        FlagsAdvance(w.r, before.r);
      }
      MarkerStep(before, acts[|acts| - 1]);
    }
  }

  lemma FlagsAdvance(r: Rows, s: Rows)
    requires Advances(r, s)
    ensures ContractAdvances(r.c, s.c)
  {
  }

  predicate AllErased(r: Rows) {
    forall i :: 0 <= i < |r.instruments| ==> Erased(r.instruments[i])
  }

  /** The step that verifies a cancellation leaves every instrument revoked and its key material erased. */
  lemma {:induction false} VerifyingErases(w: World, n: nat, k: Readings)
    requires Timely(w, k) && n < |w.calls| && w.calls[n].CancelCall?
    requires w.r.c.cancellationVerifiedVersion != Do(w, VerifyCancel(n, k)).r.c.cancellationVerifiedVersion
    ensures Do(w, VerifyCancel(n, k)).r.c.cancelRequested && AllErased(Do(w, VerifyCancel(n, k)).r)
  {
  }

  lemma {:induction false} StepStaysErased(w: World, act: Action)
    requires Inv(w) && w.r.c.cancelRequested && AllErased(w.r)
    ensures AllErased(Do(w, act).r)
  {
    hide Core, Charging, Refunding, Receiving, Retrying, ReconcileCommitTx, CommitRefundTx, ReleaseRefundTx, RenewTx,
      ChargeTx, CreateQuoteTx, RequestRefundTx, ApproveRefundTx, RefundClaimTx, AuditClaimTx, RecordEventTx,
      EventClaimTx, EventFinishTx, DeleteAccountTx, CancelTx, ReleaseDispatchTx, ReconcileClaimTx, Pow2, Boundary,
      CurrentQuote, DispatchTx;
    InstrumentWriters(w, act);
    if act.CommitRevoke? && act.call < |w.calls| && w.calls[act.call].RevokeCall?
        && w.calls[act.call].instrument < |w.r.instruments| {
      assert InstrumentOk(w.r.instruments[w.calls[act.call].instrument], w.mock);
    }
  }

  lemma {:induction false} InstrumentWriters(w: World, act: Action)
    ensures !(act.Prepare? || act.Confirm? || act.ClaimRevoke? || act.CommitRevoke? || act.VerifyCancel?) ==> Do(w, act).r.instruments == w.r.instruments
  {
    hide LatestPaid, FindPeriod, FindCycle, FindKey, CurrentQuote, QuoteProblem, Boundary, ApplyCancellations,
      Matches, LatestPeriod, CancellationComplete, DeletionGate, ReservedSum, FindRefundKey, FindEvent, FindPayment,
      Pow2, ExpectationMet, CancelIdTaken, RevokeClaimTx, RevokeCommitTx, CancelVerifyTx, PrepareTx, ConfirmTx;
  }

  /** From then on every instrument stays so, against revocations, confirmations and preparations in flight. */
  lemma {:induction false} ErasedForever(w: World, acts: seq<Action>)
    requires Inv(w) && w.r.c.cancelRequested && AllErased(w.r)
    ensures AllErased(Run(w, acts).r)
    decreases |acts|
  {
    hide Inv, Do, Advances, AllErased;
    if acts != [] {
      var before := Run(w, acts[..|acts| - 1]);
      ErasedForever(w, acts[..|acts| - 1]);
      RunAdvances(w, acts[..|acts| - 1]);
      FlagsAdvance(w.r, before.r);
      StepStaysErased(before, acts[|acts| - 1]);
    }
  }

  /** From the step that verifies a cancellation on, every instrument is revoked with its key material erased, in
      every continuation. */
  lemma {:induction false} VerifiedErasesForever(w: World, n: nat, k: Readings, acts: seq<Action>)
    requires Inv(w) && Timely(w, k) && n < |w.calls| && w.calls[n].CancelCall?
    requires w.r.c.cancellationVerifiedVersion != Do(w, VerifyCancel(n, k)).r.c.cancellationVerifiedVersion
    ensures AllErased(Run(Do(w, VerifyCancel(n, k)), acts).r)
  {
    hide Inv, Do, AllErased, Run;
    VerifyingErases(w, n, k);
    StepKeepsInv(w, VerifyCancel(n, k));
    ErasedForever(Do(w, VerifyCancel(n, k)), acts);
  }

  // ----- Renewals -----

  /** Every renewal was dispatched at the very instant the previous period ended, which is where its own period
      starts by the calendar. */
  lemma {:induction false} RenewalsAreOnTime(start: World, acts: seq<Action>, m: nat)
    requires Initial(start) && m < |Run(start, acts).log.markers|
    ensures var w := Run(start, acts); var id := w.log.markers[m].attempt;
      && id < |w.r.attempts| && w.r.attempts[id].cycle == id
      && (id > 0 ==>
            && id - 1 < |w.r.periods| && w.r.c.originalAnchor.Some? && w.r.c.planId.Some?
            && w.log.markers[m].at == w.r.periods[id - 1].endsAt
            && w.log.markers[m].at == Boundary(w.r.c.originalAnchor.value, Months(w.r.c.planId.value) * id)
            && (id < |w.r.periods| ==> w.r.periods[id].startsAt == w.log.markers[m].at))
  {
    hide Run, Refunding, Receiving, Revoking, Retrying, Boundary, ChargeOk, ChargeCallOk, PaymentIdsUnique;
    Reached(start, acts);
    var w := Run(start, acts);
    var id := w.log.markers[m].attempt;
    assert MarkerOk(w.log.markers[m], w.r);
    assert AttemptOk(w.r, id) && DispatchOk(w.r, id, w.now);
    if id > 0 {
      assert PeriodOk(w.r, id - 1);
      if id < |w.r.periods| {
        assert PeriodOk(w.r, id);
      }
    }
  }

  predicate RenewalsBarred(c: Contract) {
    c.renewalStopped || c.renewalReviewRequired || c.cancelRequested
  }

  /** Once stopped, under review or cancelled, a contract never dispatches a renewal again. */
  lemma {:induction false} NoRenewalOnceBarred(w: World, acts: seq<Action>)
    requires Inv(w) && RenewalsBarred(w.r.c)
    ensures var markers := Run(w, acts).log.markers;
      && |w.log.markers| <= |markers| && markers[..|w.log.markers|] == w.log.markers
      && forall m :: |w.log.markers| <= m < |markers| ==> markers[m].attempt == 0
    decreases |acts|
  {
    hide Inv, Do, Advances;
    if acts != [] {
      var before := Run(w, acts[..|acts| - 1]);
      NoRenewalOnceBarred(w, acts[..|acts| - 1]);
      RunAdvances(w, acts[..|acts| - 1]);
      FlagsAdvance(w.r, before.r);
      MarkerStep(before, acts[|acts| - 1]);
      if acts[|acts| - 1].Dispatch? && acts[|acts| - 1].attempt < |before.r.attempts| {
        CycleIsIndex(before, acts[|acts| - 1].attempt);
      }
    }
  }

  lemma CycleIsIndex(w: World, id: Id)
    requires Inv(w) && id < |w.r.attempts|
    ensures w.r.attempts[id].cycle == id
  {
    hide Core, Charging, Refunding, Receiving, Retrying, Revoking;
    ClaimedIsDispatched(w.r, w.now, id);
  }
}
