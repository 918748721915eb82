/** Fencing, bounded retries and webhook receipts of the billing protocol. */
module BillingLeases {
  import opened Prelude
  import opened BillingCalendar
  import opened BillingRows
  import opened BillingCore
  import opened BillingProgress
  import opened BillingWorld
  import opened BillingInvariant
  import opened BillingSteps
  import opened BillingLookupSteps
  import opened BillingRefundSteps
  import opened BillingHistory
  import opened BillingTheorems

  // ----- Fencing -----

  /** A lookup in flight holds a fence its attempt has reached. */
  predicate LookupFenced(x: Call, attempts: seq<Attempt>) {
    x.LookupClaimed? || x.LookupSent? ==> x.attempt < |attempts| && x.fence <= attempts[x.attempt].fence
  }

  predicate Fenced(w: World) {
    forall n :: 0 <= n < |w.calls| ==> LookupFenced(w.calls[n], w.r.attempts)
  }

  lemma FencedFrame(w: World, v: World, x: Call)
    requires Fenced(w) && Advances(w.r, v.r) && OnlyNewCall(w, v, x) && LookupFenced(x, v.r.attempts)
    ensures Fenced(v)
  {
    forall n | 0 <= n < |v.calls|
      ensures LookupFenced(v.calls[n], v.r.attempts)
    {
      if v.calls[n] != x {
        assert LookupFenced(w.calls[n], w.r.attempts);
        if w.calls[n].LookupClaimed? || w.calls[n].LookupSent? {
          assert AttemptAdvances(w.r.attempts[w.calls[n].attempt], v.r.attempts[w.calls[n].attempt]);
        }
      }
    }
  }

  /** The steps that carry on a call in flight. */
  predicate Continues(act: Action) {
    act.SendCharge? || act.ReturnCharge? || act.StartLookup? || act.CommitLookup? || act.VerifyCancel?
        || act.CommitRevoke? || act.SendRefund?
    || act.SettleRefund? || act.LookupForEvent? || act.FinishEvent?
  }

  /** The one call a step can put in flight, or the last one when it puts none. */
  function NewCall(w: World, act: Action): Call {
    var v := Do(w, act);
    if |v.calls| > |w.calls| then v.calls[|w.calls|]
    else if Continues(act) then
      (if act.call < |v.calls| then v.calls[act.call] else Finished)
    else Finished
  }

  lemma StepCalls(w: World, act: Action)
    ensures OnlyNewCall(w, Do(w, act), NewCall(w, act)) && |w.calls| <= |Do(w, act).calls|
  {
    hide ReconcileCommitTx, CommitRefundTx, ReleaseRefundTx, DispatchTx, RenewTx, ChargeTx, CreateQuoteTx, PrepareTx,
      ConfirmTx, RequestRefundTx, ApproveRefundTx, RefundClaimTx, AuditClaimTx, RecordEventTx, EventClaimTx,
      EventFinishTx, DeleteAccountTx, CancelTx, CancelVerifyTx, RevokeClaimTx, RevokeCommitTx, ReleaseDispatchTx,
      ReconcileClaimTx, Pow2;
  }

  lemma {:induction false} StepKeepsFenced(w: World, act: Action)
    requires Inv(w) && Fenced(w)
    ensures Fenced(Do(w, act))
  {
    hide Inv, Advances, Fenced, LookupFenced, OnlyNewCall;
    StepAdvances(w, act);
    StepCalls(w, act);
    NewCallFenced(w, act);
    FencedFrame(w, Do(w, act), NewCall(w, act));
  }

  lemma {:induction false} NewCallFenced(w: World, act: Action)
    requires Fenced(w)
    ensures LookupFenced(NewCall(w, act), Do(w, act).r.attempts)
  {
    hide NewCall, Do, Fenced, LookupFenced;
    if act.ClaimLookup? || act.LookupForEvent? || act.StartLookup? {
      LookupStepFenced(w, act);
    } else if Continues(act) {
      ContinuedCallFenced(w, act);
    } else {
      StartedCallFenced(w, act);
    }
  }

  lemma ContinuedCallFenced(w: World, act: Action)
    requires Fenced(w) && Continues(act) && !act.LookupForEvent? && !act.StartLookup?
    ensures LookupFenced(NewCall(w, act), Do(w, act).r.attempts)
  {
    hide ReconcileCommitTx, CommitRefundTx, ReleaseRefundTx, EventFinishTx, CancelVerifyTx, RevokeCommitTx,
      ReleaseDispatchTx, Pow2, Fenced, Apply, DoDispatch, DoClaimLookup, DoLookupForEvent, DoStartLookup, DoRenew,
      DoCancel, DoClaimRevoke, DoClaimRefund, DoClaimAudit, DoClaimEvent;
    if act.call < |w.calls| {
      FencedCall(w, act.call);
    }
  }

  lemma StartedCallFenced(w: World, act: Action)
    requires !Continues(act) && !act.ClaimLookup?
    ensures LookupFenced(NewCall(w, act), Do(w, act).r.attempts)
  {
    hide DispatchTx, RenewTx, ChargeTx, CreateQuoteTx, PrepareTx, ConfirmTx, RequestRefundTx, ApproveRefundTx,
      RefundClaimTx, AuditClaimTx, RecordEventTx, EventClaimTx, DeleteAccountTx, CancelTx, RevokeClaimTx,
      DoSendCharge, DoReturnCharge, DoStartLookup, DoCommitLookup, DoVerifyCancel, DoCommitRevoke, DoSendRefund,
      DoSettleRefund, DoLookupForEvent, DoFinishEvent, DoClaimLookup;
  }

  lemma LookupStepFenced(w: World, act: Action)
    requires Fenced(w) && (act.ClaimLookup? || act.LookupForEvent? || act.StartLookup?)
    ensures LookupFenced(NewCall(w, act), Do(w, act).r.attempts)
  {
    if !act.ClaimLookup? && act.call < |w.calls| {
      assert LookupFenced(w.calls[act.call], w.r.attempts);
    }
  }

  lemma {:induction false} RunFenced(w: World, acts: seq<Action>)
    requires Inv(w) && Fenced(w)
    ensures Inv(Run(w, acts)) && Fenced(Run(w, acts))
    decreases |acts|
  {
    hide Inv, Do, Fenced;
    if acts != [] {
      var before := Run(w, acts[..|acts| - 1]);
      RunFenced(w, acts[..|acts| - 1]);
      StepKeepsInv(before, acts[|acts| - 1]);
      StepKeepsFenced(before, acts[|acts| - 1]);
    }
  }

  /** Taking a lookup claim counts it, and moves the attempt's fence past every earlier claim. */
  lemma {:induction false} ClaimMovesFence(w: World, act: Action)
    requires Timely(w, act.k) && (act.ClaimLookup? || act.LookupForEvent?) && NewCall(w, act).LookupClaimed?
    requires act.LookupForEvent? ==> act.call < |w.calls| && w.calls[act.call].EventLookup?
    ensures var x := NewCall(w, act);
      && x.attempt < |w.r.attempts| && |Do(w, act).r.attempts| == |w.r.attempts|
      && var a, b := w.r.attempts[x.attempt], Do(w, act).r.attempts[x.attempt];
         && b.fence == a.fence + 1 == x.fence && b.lookupCount == a.lookupCount + 1 && b.leaseOwner == Some(Worker(x.token))
         && !Live(a.leaseUntil, act.k.first) && !Live(a.nextLookupAt, act.k.first) && a.dispatchAt.Some? && !a.reviewRequired
  {
  }

  /** A lookup whose attempt was claimed again in the meantime, by anyone and at any time, commits nothing. */
  lemma {:induction false} LaterClaimWins(start: World, acts: seq<Action>, n: nat, between: seq<Action>, claim: Action,
      after: seq<Action>, lookup: LookupResult, k: Readings)
    requires Initial(start)
    requires var w := Run(start, acts); n < |w.calls| && w.calls[n].LookupSent?
    requires var w := Run(start, acts); var u := Run(w, between); var id := w.calls[n].attempt;
      id < |u.r.attempts| && id < |Do(u, claim).r.attempts| && Do(u, claim).r.attempts[id].fence > u.r.attempts[id].fence
    requires var w := Run(start, acts); var v := Run(Do(Run(w, between), claim), after);
      n < |v.calls| && v.calls[n] == w.calls[n]
    ensures var w := Run(start, acts); var v := Run(Do(Run(w, between), claim), after);
      Do(v, CommitLookup(n, lookup, k)).r == v.r
  {
    hide Run, Inv, Initial, Fenced, Do, Advances, LookupFenced;
    var w := Run(start, acts);
    InitialInv(start);
    assert Fenced(start) by {
      NothingFenced(start);
    }
    RunFenced(start, acts);
    var x := w.calls[n];
    assert x.attempt < |w.r.attempts| && x.fence <= w.r.attempts[x.attempt].fence by {
      FencedLookup(w, n);
    }
    var u := Run(w, between);
    RunAdvances(w, between);
    FenceKept(w.r, u.r, x.attempt);
    var c := Do(u, claim);
    StepKeepsInv(u, claim);
    var v := Run(c, after);
    RunAdvances(c, after);
    FenceKept(c.r, v.r, x.attempt);
    StaleCommit(v, n, lookup, k);
  }

  lemma FenceKept(r: Rows, s: Rows, id: Id)
    requires Advances(r, s) && id < |r.attempts|
    ensures id < |s.attempts| && r.attempts[id].fence <= s.attempts[id].fence
  {
    assert AttemptAdvances(r.attempts[id], s.attempts[id]);
  }

  lemma StaleCommit(v: World, n: nat, lookup: LookupResult, k: Readings)
    requires n < |v.calls| && v.calls[n].LookupSent? && v.calls[n].attempt < |v.r.attempts|
    requires v.calls[n].fence < v.r.attempts[v.calls[n].attempt].fence
    ensures Do(v, CommitLookup(n, lookup, k)).r == v.r
  {
    hide ReconcileCommitTx;
    var x := v.calls[n];
    if v.r.attempts[x.attempt].quoteId < |v.r.quotes| {
      CommitTouchesOne(v.r, v.mock, x.attempt, x.token, x.fence, lookup, k);
    }
  }

  lemma NothingFenced(start: World)
    requires Initial(start)
    ensures Fenced(start)
  {
  }

  lemma FencedLookup(w: World, n: nat)
    requires Fenced(w) && n < |w.calls| && w.calls[n].LookupSent?
    ensures w.calls[n].attempt < |w.r.attempts| && w.calls[n].fence <= w.r.attempts[w.calls[n].attempt].fence
  {
    assert LookupFenced(w.calls[n], w.r.attempts);
  }

  lemma FencedCall(w: World, n: nat)
    requires Fenced(w) && n < |w.calls|
    ensures LookupFenced(w.calls[n], w.r.attempts)
  {
  }

  // ----- Bounded retries -----

  /** Every reachable attempt has had at most seven committed inconclusive lookups, however many claims were lost;
      the lookups it has left are the limit less the claims it used, and each inconclusive commit used one. */
  lemma {:induction false} InconclusiveLookupsAreBounded(start: World, acts: seq<Action>, id: Id)
    requires Initial(start) && id < |Run(start, acts).r.attempts|
    ensures var w := Run(start, acts);
      && Inconclusive(w.log, id) <= LOOKUP_LIMIT - 1
      && (w.r.attempts[id].status == DispatchUnknown ==> Inconclusive(w.log, id) <= w.r.attempts[id].lookupCount)
  {
    hide Run, Core, Charging, Refunding, Receiving, Revoking;
    Reached(start, acts);
    assert RetryOk(Run(start, acts).r.attempts[id], Inconclusive(Run(start, acts).log, id)) by {
      RetryOf(Run(start, acts), id);
    }
  }

  /** Evidence about the attempt's own payment, of which nothing was cancelled. */
  predicate Clean(result: LookupResult, a: Attempt, c: Contract) {
    result.Evidence? && Matches(result.payment, a, c) && result.payment.cancelledAmount <= 0
  }

  /** The evidence that settles: paid, on a date that is known and not in the future. */
  predicate Settles(result: LookupResult, a: Attempt, c: Contract, now: Time) {
    Clean(result, a, c) && result.payment.status == ObservedPaid && result.payment.paidAt.Some? && result.payment.paidAt.value <= now
  }

  /** A committed lookup that is not the eighth may leave the attempt unknown; once the claims are used up it moves
      the attempt on, whatever it found: paid and failed need clean evidence of just that, and all else, a payment
      without a usable date included, goes to review. */
  lemma {:induction false} EighthLookupMovesOn(w: World, id: Id, token: nat, fence: nat, result: LookupResult, k: Readings)
    requires Inv(w) && Timely(w, k) && id < |w.r.attempts| && w.r.attempts[id].quoteId < |w.r.quotes|
    requires w.r.attempts[id].status == DispatchUnknown
    requires w.r.attempts[id].leaseOwner == Some(Worker(token)) && w.r.attempts[id].fence == fence
    ensures var tx := ReconcileCommitTx(w.r, w.mock, id, token, fence, result, k); var a := w.r.attempts[id];
      && tx.Ok?
      && (tx.rows.attempts[id].status == DispatchUnknown <==> tx.out == Retry)
      && (tx.out == Retry ==> a.lookupCount < LOOKUP_LIMIT)
      && (tx.rows.attempts[id].status == Paid <==> Settles(result, a, w.r.c, k.first))
      && (tx.rows.attempts[id].status == Failed <==> Clean(result, a, w.r.c) && result.payment.status == ObservedFailed)
      && (a.lookupCount >= LOOKUP_LIMIT ==> tx.rows.attempts[id].status in {Paid, Failed, ManualReview})
  {
    hide Core, Charging, Refunding, Receiving, Revoking, Retrying, Boundary, Matches, LatestPeriod, FindPeriod, Pow2,
      ApplyCancellations;
    PeriodsNeverInconsistent(w, id, token, fence, result, k);
  }

  // ----- Webhook receipts -----

  /** A processed receipt rests on a committed lookup of its own attempt that began once the receipt was stored and
      that saw the cancellation it announced. */
  lemma {:induction false} ProcessedByFreshCommit(start: World, acts: seq<Action>, e: Id)
    requires Initial(start) && e < |Run(start, acts).r.receipts| && Run(start, acts).r.receipts[e].phase == ReceiptProcessed
    ensures var w := Run(start, acts);
      exists x :: x in w.log.commits && Answers(x, w.r.receipts[e])
  {
    hide Run, Core, Charging, Refunding, Retrying, Revoking, Answers;
    Reached(start, acts);
    var w := Run(start, acts);
    assert ReceiptOk(w.r.receipts[e], w.log.commits, w.now);
  }

  /** The log of commits is honest: each entry is a commit that passed its fence and was conclusive. */
  lemma {:induction false} CommitsAreConclusive(w: World, act: Action)
    requires Inv(w) && |Do(w, act).log.commits| > |w.log.commits|
    ensures act.CommitLookup? && act.call < |w.calls| && w.calls[act.call].LookupSent?
    ensures var x := w.calls[act.call];
      && x.attempt < |w.r.attempts| && w.r.attempts[x.attempt].fence == x.fence
          && w.r.attempts[x.attempt].leaseOwner == Some(Worker(x.token))
      && act.lookup.Evidence? && Matches(act.lookup.payment, w.r.attempts[x.attempt], w.r.c)
      && var c := Do(w, act).log.commits[|w.log.commits|];
         Do(w, act).log.commits == w.log.commits + [c] && c.attempt == x.attempt && c.initiatedAt == x.initiatedAt
             && c.cancelledAmount == act.lookup.payment.cancelledAmount
  {
    hide Inv, CommitRefundTx, ReleaseRefundTx, DispatchTx, RefundClaimTx, AuditClaimTx, ReconcileClaimTx, Boundary,
      ApplyCancellations, LatestPeriod, FindPeriod, Pow2, Matches;
  }
}
