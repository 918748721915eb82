/** The billing service's promises, over every run from a fresh contract or from any state a run can reach. */
module BillingTheorems {
  import opened Prelude
  import opened BillingCalendar
  import opened BillingRows
  import opened BillingCore
  import opened BillingProgress
  import opened BillingWorld
  import opened BillingInvariant
  import opened BillingSteps
  import opened BillingLookupSteps
  import opened BillingRefundSteps
  import opened BillingHistory

  lemma {:induction false} Reached(start: World, acts: seq<Action>)
    requires Initial(start)
    ensures Inv(Run(start, acts))
  {
    hide Inv, Run;
    InitialInv(start);
    RunKeepsInv(start, acts);
  }

  // ----- Charging -----

  predicate OnlyAttemptOfCycle(r: Rows, id: Id)
    requires id < |r.attempts|
  {
    forall i :: 0 <= i < |r.attempts| && r.attempts[i].cycle == r.attempts[id].cycle ==> i == id
  }

  /** Every charge sent carries the payment id and amount of its cycle's one attempt, whose dispatch marker was stored
      before. */
  lemma {:induction false} ChargeHasItsMarker(start: World, acts: seq<Action>, e: nat)
    requires Initial(start) && e < |Run(start, acts).log.charges|
    ensures var w := Run(start, acts); var sent := w.log.charges[e];
      && sent.attempt < |w.r.attempts| && OnlyAttemptOfCycle(w.r, sent.attempt)
      && sent.paymentId == w.r.attempts[sent.attempt].paymentId && sent.amount == w.r.attempts[sent.attempt].totalAmount
      && w.r.attempts[sent.attempt].dispatchAt.Some? && w.r.attempts[sent.attempt].dispatchAt.value <= sent.at
  {
    hide Run, Core, Refunding, Receiving, Revoking, Retrying;
    Reached(start, acts);
    var w := Run(start, acts);
    forall i | 0 <= i < |w.r.attempts|
      ensures w.r.attempts[i].cycle == i
    {
      ClaimedIsDispatched(w.r, w.now, i);
    }
    assert ChargeOk(w.log.charges[e], w.r);
  }

  /** Whatever is replayed, renewed, retried, cancelled or lost, the provider is asked to charge a cycle at most once:
      any two charges of a run are of different cycles and have different payment ids. */
  lemma {:induction false} ChargedAtMostOncePerCycle(start: World, acts: seq<Action>, d: nat, e: nat)
    requires Initial(start) && d < e < |Run(start, acts).log.charges|
    ensures var w := Run(start, acts);
      && w.log.charges[d].attempt < |w.r.attempts| && w.log.charges[e].attempt < |w.r.attempts|
      && w.r.attempts[w.log.charges[d].attempt].cycle != w.r.attempts[w.log.charges[e].attempt].cycle
      && w.log.charges[d].paymentId != w.log.charges[e].paymentId
  {
    hide Run, Initial, Core, Refunding, Receiving, Revoking, Retrying;
    Reached(start, acts);
    ChargeHasItsMarker(start, acts, d);
    ChargeHasItsMarker(start, acts, e);
    var w := Run(start, acts);
    assert w.log.charges[d].attempt != w.log.charges[e].attempt;
  }

  /** The call itself: a charge is only ever sent for an attempt whose marker is already in the row. */
  lemma {:induction false} MarkerPrecedesCharge(w: World, act: Action)
    requires Inv(w) && |Do(w, act).log.charges| > |w.log.charges|
    ensures act.SendCharge? && act.call < |w.calls| && w.calls[act.call].ChargeCall?
    ensures w.calls[act.call].attempt < |w.r.attempts| && w.r.attempts[w.calls[act.call].attempt].dispatchAt.Some?
  {
    hide Core, Refunding, Receiving, Revoking, Retrying, DispatchTx, ReconcileCommitTx, CommitRefundTx,
      ReleaseRefundTx, RefundClaimTx, AuditClaimTx, ReconcileClaimTx;
    assert ChargeCallOk(w.calls[act.call], w.r, w.log);
  }

  // ----- Paid periods -----

  /** Period `i` is cycle `i`, begins where the one before ended, and ends on the original anchor's own boundary. */
  predicate PeriodFollows(r: Rows, i: nat)
    requires i < |r.periods| && r.c.originalAnchor.Some? && r.c.planId.Some?
  {
    var p, anchor := r.periods[i], r.c.originalAnchor.value;
    && p.cycle == i && p.attemptId == i
    && p.startsAt == (if i == 0 then anchor else r.periods[i - 1].endsAt)
    && p.endsAt == Boundary(anchor, Months(r.c.planId.value) * (i + 1))
    && p.startsAt < p.endsAt && p.startsAt <= p.accessEndsAt <= p.endsAt
  }

  /** The paid periods are exactly the cycles before the next one, and each follows the one before. */
  lemma {:induction false} PaidPeriodsFollowTheAnchor(start: World, acts: seq<Action>)
    requires Initial(start)
    ensures var r := Run(start, acts).r;
      && |r.periods| == r.c.nextCycle
      && (r.c.nextCycle > 0 ==> r.c.originalAnchor.Some? && r.c.planId.Some?)
      && (forall i :: 0 <= i < |r.periods| ==> PeriodFollows(r, i))
  {
    hide Run, Charging, Refunding, Receiving, Revoking, Retrying, Boundary, PeriodFollows;
    Reached(start, acts);
    var w := Run(start, acts);
    forall i | 0 <= i < |w.r.periods|
      ensures PeriodFollows(w.r, i)
    {
      PeriodFacts(w.r, w.now, i);
    }
  }

  lemma PeriodFacts(r: Rows, now: Time, i: nat)
    requires Core(r, now) && i < |r.periods|
    ensures r.c.originalAnchor.Some? && r.c.planId.Some? && PeriodFollows(r, i)
  {
    hide Boundary;
    assert PeriodOk(r, i);
    if i > 0 {
      assert PeriodOk(r, i - 1);
      EndsIncrease(r.c, i);
    } else {
      BoundaryAfterAnchor(r.c.originalAnchor.value, Months(r.c.planId.value) * 1);
    }
  }

  lemma {:induction false} PeriodsNeverInconsistent(w: World, id: Id, token: nat, fence: nat, result: LookupResult, k: Readings)
    requires Inv(w) && Timely(w, k) && id < |w.r.attempts| && w.r.attempts[id].quoteId < |w.r.quotes|
    ensures ReconcileCommitTx(w.r, w.mock, id, token, fence, result, k) != Fail(PeriodInconsistency)
    ensures !Settled(w.r.attempts[id].status) ==> ReconcileCommitTx(w.r, w.mock, id, token, fence, result, k).Ok?
  {
    hide Core, Charging, Refunding, Receiving, Revoking, ReconcileCommitTx, RetryOk;
    assert RetryOk(w.r.attempts[id], Inconclusive(w.log, id)) by {
      RetryOf(w, id);
    }
    NotUnknownHasNoLease(w.r.attempts[id], Inconclusive(w.log, id));
    CommitCore(w.r, w.mock, id, token, fence, result, k, w.now);
  }

  lemma NotUnknownHasNoLease(a: Attempt, n: nat)
    requires RetryOk(a, n)
    ensures !Settled(a.status) && a.status != DispatchUnknown ==> a.leaseOwner.None?
  {
  }

  // ----- Settling -----

  /** An attempt is paid or refunded exactly when it has a period, in every reachable state. */
  lemma {:induction false} SettledIffPeriod(start: World, acts: seq<Action>, id: Id)
    requires Initial(start) && id < |Run(start, acts).r.attempts|
    ensures var r := Run(start, acts).r;
      Settled(r.attempts[id].status) <==> exists i :: 0 <= i < |r.periods| && r.periods[i].attemptId == id
  {
    hide Run, Core, Charging, Refunding, Receiving, Revoking, Retrying;
    Reached(start, acts);
    var w := Run(start, acts);
    ClaimedIsDispatched(w.r, w.now, id);
    PeriodsInOrder(w.r, w.now);
    AttemptsReach(w.r, w.now);
    if Settled(w.r.attempts[id].status) {
      assert w.r.periods[id].attemptId == id;
    }
  }

  /** Once settled, an attempt stays settled and keeps its place; once refunded, it stays refunded. */
  lemma {:induction false} SettledForever(w: World, acts: seq<Action>, id: Id)
    requires Inv(w) && id < |w.r.attempts|
    ensures var r := Run(w, acts).r;
      && id < |r.attempts|
      && (Settled(w.r.attempts[id].status) ==> Settled(r.attempts[id].status))
      && (w.r.attempts[id].status == Refunded ==> r.attempts[id].status == Refunded)
  {
    hide Run, Inv;
    RunAdvances(w, acts);
    assert AttemptAdvances(w.r.attempts[id], Run(w, acts).r.attempts[id]);
  }

  predicate Dead(s: AttemptStatus) {
    s == Failed || s == ManualReview || s == CanceledBeforeDispatch
  }

  /** An attempt that failed, went to review or was cancelled never moves again. */
  lemma ClosedStaysClosed(w: World, act: Action, id: Id)
    requires Inv(w) && id < |w.r.attempts| && Dead(w.r.attempts[id].status)
    ensures id < |Do(w, act).r.attempts| && Do(w, act).r.attempts[id].status == w.r.attempts[id].status
  {
    hide Core, Charging, Receiving, Revoking, RetryOk, Refunding, Do;
    assert RetryOk(w.r.attempts[id], Inconclusive(w.log, id)) by {
      RetryOf(w, id);
    }
    NotUnknownHasNoLease(w.r.attempts[id], Inconclusive(w.log, id));
    OtherStepsKeepAttempts(w, act);
    if act.Charge? || act.Renew? || act.Dispatch? || act.Cancel? {
      ClosedReserved(w, act, id);
    } else if act.ReturnCharge? || act.ClaimLookup? || act.LookupForEvent? {
      ClosedLeased(w, act, id);
    } else if act.CommitLookup? {
      ClosedCommit(w, act.call, act.lookup, act.k, id);
      ClosedSettled(w, act, id);
    } else if act.SettleRefund? {
      ClosedRefund(w, act.call, act.found, act.invalid, act.k, id);
      ClosedSettled(w, act, id);
    }
  }

  /** Nor in any continuation. */
  lemma {:induction false} ClosedForever(w: World, acts: seq<Action>, id: Id)
    requires Inv(w) && id < |w.r.attempts| && Dead(w.r.attempts[id].status)
    ensures id < |Run(w, acts).r.attempts| && Run(w, acts).r.attempts[id].status == w.r.attempts[id].status
    decreases |acts|
  {
    hide Inv, Do;
    if acts != [] {
      ClosedForever(w, acts[..|acts| - 1], id);
      RunKeepsInv(w, acts[..|acts| - 1]);
      ClosedStaysClosed(Run(w, acts[..|acts| - 1]), acts[|acts| - 1], id);
    }
  }

  lemma ClosedSettled(w: World, act: Action, id: Id)
    requires act.CommitLookup? || act.SettleRefund?
    ensures Do(w, act) == w || (act.CommitLookup? && Do(w, act) == DoCommitLookup(w, act.call, act.lookup, act.k))
            || (act.SettleRefund? && Do(w, act) == DoSettleRefund(w, act.call, act.found, act.invalid, act.k))
  {
    hide DoCommitLookup, DoSettleRefund;
  }

  lemma ClosedReserved(w: World, act: Action, id: Id)
    requires (act.Charge? || act.Renew? || act.Dispatch? || act.Cancel?) && id < |w.r.attempts|
        && Dead(w.r.attempts[id].status)
    ensures id < |Do(w, act).r.attempts| && Do(w, act).r.attempts[id].status == w.r.attempts[id].status
  {
    hide DispatchTx, RenewTx, ChargeTx, CancelTx;
    match act
    case Charge(input, terms, k) => DeadCharge(w.r, input, terms, w.nextToken, k, id);
    case Renew(terms, k) =>
      if forall i :: 0 <= i < |w.r.attempts| ==> w.r.attempts[i].quoteId < |w.r.quotes| && w.r.attempts[i].instrumentId < |w.r.instruments| {
        DeadRenew(w.r, terms, w.nextToken, k, id);
      }
    case Dispatch(a, terms, keyVersion, decryptable, k) =>
      if a < |w.r.attempts| && w.r.attempts[a].quoteId < |w.r.quotes| && w.r.attempts[a].instrumentId < |w.r.instruments| {
        DeadDispatch(w.r, a, terms, keyVersion, decryptable, k, id);
      }
    case Cancel(k) => DeadCancel(w.r, id);
  }

  lemma ClosedLeased(w: World, act: Action, id: Id)
    requires (act.ReturnCharge? || act.ClaimLookup? || act.LookupForEvent?) && id < |w.r.attempts|
    ensures id < |Do(w, act).r.attempts| && Do(w, act).r.attempts[id].status == w.r.attempts[id].status
  {
    hide ReconcileClaimTx, ReleaseDispatchTx;
    match act
    case ReturnCharge(n, k) =>
      if n < |w.calls| && w.calls[n].ChargeReturn? && w.calls[n].attempt < |w.r.attempts| {
        DeadClaim(w.r, w.calls[n].attempt, true, 0, k.first, id);
      }
    case ClaimLookup(a, force, k) =>
      if a < |w.r.attempts| {
        DeadClaim(w.r, a, force, w.nextToken, k.first, id);
      }
    case LookupForEvent(n, k) =>
      if n < |w.calls| && w.calls[n].EventLookup? && w.calls[n].eventTicket.attemptId.Some?
          && w.calls[n].eventTicket.attemptId.value < |w.r.attempts| {
        DeadClaim(w.r, w.calls[n].eventTicket.attemptId.value, true, w.nextToken, k.first, id);
      }
  }

  lemma DeadCharge(r: Rows, input: ChargeInput, terms: nat, paymentId: nat, k: Readings, id: Id)
    requires id < |r.attempts|
    ensures var tx := ChargeTx(r, input, terms, paymentId, k); tx.Ok? ==> id < |tx.rows.attempts| && tx.rows.attempts[id] == r.attempts[id]
  {
  }

  lemma DeadRenew(r: Rows, terms: nat, paymentId: nat, k: Readings, id: Id)
    requires forall i :: 0 <= i < |r.attempts| ==> r.attempts[i].quoteId < |r.quotes| && r.attempts[i].instrumentId < |r.instruments|
    requires id < |r.attempts| && Dead(r.attempts[id].status)
    ensures var tx := RenewTx(r, terms, paymentId, k); tx.Ok? ==> id < |tx.rows.attempts| && tx.rows.attempts[id] == r.attempts[id]
  {
    hide Boundary, LatestPaid, FindPeriod, CurrentQuote, FindKey;
  }

  lemma DeadDispatch(r: Rows, a: Id, terms: nat, keyVersion: nat, decryptable: bool, k: Readings, id: Id)
    requires a < |r.attempts| && r.attempts[a].quoteId < |r.quotes| && r.attempts[a].instrumentId < |r.instruments|
    requires id < |r.attempts| && Dead(r.attempts[id].status)
    ensures var tx := DispatchTx(r, a, terms, keyVersion, decryptable, k); tx.Ok? ==> |tx.rows.attempts| == |r.attempts| && tx.rows.attempts[id] == r.attempts[id]
  {
    hide Boundary, CurrentQuote;
  }

  lemma DeadClaim(r: Rows, a: Id, force: bool, token: nat, now: Time, id: Id)
    requires a < |r.attempts| && id < |r.attempts|
    ensures |ReconcileClaimTx(r, a, force, token, now).0.attempts| == |r.attempts|
        && |ReleaseDispatchTx(r, a, now).attempts| == |r.attempts|
    ensures ReconcileClaimTx(r, a, force, token, now).0.attempts[id].status == r.attempts[id].status
    ensures ReleaseDispatchTx(r, a, now).attempts[id].status == r.attempts[id].status
  {
  }

  lemma DeadCancel(r: Rows, id: Id)
    requires id < |r.attempts| && Dead(r.attempts[id].status)
    ensures CancelTx(r).Ok? ==> |CancelTx(r).rows.attempts| == |r.attempts| && CancelTx(r).rows.attempts[id] == r.attempts[id]
  {
    hide CancellationComplete;
  }

  lemma {:induction false} ClosedCommit(w: World, n: nat, lookup: LookupResult, k: Readings, id: Id)
    requires id < |w.r.attempts| && w.r.attempts[id].leaseOwner.None?
    ensures |DoCommitLookup(w, n, lookup, k).r.attempts| == |w.r.attempts|
    ensures DoCommitLookup(w, n, lookup, k).r.attempts[id] == w.r.attempts[id]
  {
    hide ReconcileCommitTx;
    if n < |w.calls| && w.calls[n].LookupSent? {
      var x := w.calls[n];
      if x.attempt < |w.r.attempts| && w.r.attempts[x.attempt].quoteId < |w.r.quotes| {
        CommitTouchesOne(w.r, w.mock, x.attempt, x.token, x.fence, lookup, k);
      }
    }
  }

  /** A commit writes its own attempt only, and only while its lease and fence stand. */
  lemma {:induction false} CommitTouchesOne(r: Rows, mock: bool, id: Id, token: nat, fence: nat, result: LookupResult, k: Readings)
    requires id < |r.attempts| && r.attempts[id].quoteId < |r.quotes|
    ensures var tx := ReconcileCommitTx(r, mock, id, token, fence, result, k);
      tx.Ok? ==>
        && |tx.rows.attempts| == |r.attempts|
        && (forall i :: 0 <= i < |r.attempts| && i != id ==> tx.rows.attempts[i] == r.attempts[i])
        && (r.attempts[id].leaseOwner != Some(Worker(token)) || r.attempts[id].fence != fence ==> tx.rows == r && tx.out == Skipped)
  {
    hide Boundary, ApplyCancellations, Matches, Pow2, LatestPeriod, FindPeriod;
  }

  lemma ClosedRefund(w: World, n: nat, found: Option<CancellationFound>, invalid: bool, k: Readings, id: Id)
    requires Inv(w) && id < |w.r.attempts| && !Settled(w.r.attempts[id].status)
    ensures |DoSettleRefund(w, n, found, invalid, k).r.attempts| == |w.r.attempts|
    ensures DoSettleRefund(w, n, found, invalid, k).r.attempts[id] == w.r.attempts[id]
  {
    hide Core, Charging, Refunding, Receiving, Revoking, Retrying, FindPeriod, Pow2, CancelIdTaken;
    if n < |w.calls| && w.calls[n].RefundLookup? && w.calls[n].refund < |w.r.refunds| {
      RefundedAttempt(w, w.calls[n].refund);
    }
  }

  // ----- Idempotent charging -----

  predicate KeysUnique(attempts: seq<Attempt>) {
    forall i, j :: 0 <= i < j < |attempts| ==> attempts[i].key != attempts[j].key
  }

  /** A reservation is made only under a key no attempt has. */
  lemma ReservesUnderFreshKey(w: World, act: Action)
    ensures act.Charge? || act.Renew? ==>
      var s := Do(w, act).r.attempts;
      |s| == |w.r.attempts| || (|s| == |w.r.attempts| + 1 && forall i :: 0 <= i < |w.r.attempts| ==> w.r.attempts[i].key != s[|w.r.attempts|].key)
  {
    hide DoCommitLookup, DoSettleRefund, DispatchTx, ReconcileClaimTx, ReleaseDispatchTx, LatestPaid, FindPeriod,
      CurrentQuote, QuoteProblem, Boundary, CancellationComplete, DeletionGate, ReservedSum, FindRefundKey, FindEvent,
      FindPayment, Pow2, ExpectationMet, FindInstrument;
  }

  lemma {:induction false} StepKeepsKeys(w: World, act: Action)
    requires Inv(w) && KeysUnique(w.r.attempts)
    ensures KeysUnique(Do(w, act).r.attempts)
  {
    hide Inv, Do;
    var v := Do(w, act);
    StepAdvances(w, act);
    ReservesUnderFreshKey(w, act);
    if !act.Charge? && !act.Renew? {
      OnlyReservationsAdd(w, act);
    }
    forall i | 0 <= i < |w.r.attempts|
      ensures v.r.attempts[i].key == w.r.attempts[i].key
    {
      assert AttemptAdvances(w.r.attempts[i], v.r.attempts[i]);
    }
  }

  lemma {:induction false} OnlyReservationsAdd(w: World, act: Action)
    requires Inv(w) && !act.Charge? && !act.Renew?
    ensures |Do(w, act).r.attempts| == |w.r.attempts|
  {
    hide Inv, DoCommitLookup, LatestPaid, FindPeriod, CurrentQuote, QuoteProblem, Boundary, CancellationComplete,
      DeletionGate, ReservedSum, FindRefundKey, FindEvent, FindPayment, Pow2, ExpectationMet, FindInstrument,
      CancelIdTaken;
    if act.CommitLookup? {
      CommitKeepsCount(w, act.call, act.lookup, act.k);
    }
  }

  lemma {:induction false} CommitKeepsCount(w: World, n: nat, lookup: LookupResult, k: Readings)
    ensures |DoCommitLookup(w, n, lookup, k).r.attempts| == |w.r.attempts|
  {
    hide ReconcileCommitTx;
    if n < |w.calls| && w.calls[n].LookupSent? {
      var x := w.calls[n];
      if x.attempt < |w.r.attempts| && w.r.attempts[x.attempt].quoteId < |w.r.quotes| {
        CommitTouchesOne(w.r, w.mock, x.attempt, x.token, x.fence, lookup, k);
      }
    }
  }

  lemma {:induction false} RunKeepsKeys(start: World, acts: seq<Action>)
    requires Inv(start) && KeysUnique(start.r.attempts)
    ensures Inv(Run(start, acts)) && KeysUnique(Run(start, acts).r.attempts)
    decreases |acts|
  {
    hide Inv, Do, KeysUnique;
    if acts != [] {
      var before := Run(start, acts[..|acts| - 1]);
      RunKeepsKeys(start, acts[..|acts| - 1]);
      StepKeepsInv(before, acts[|acts| - 1]);
      StepKeepsKeys(before, acts[|acts| - 1]);
    }
  }

  /** Replaying a charge request that once got an attempt gives the same attempt and changes nothing, however much has
      happened since, as long as the account exists. */
  lemma {:induction false} ChargeReplays(start: World, acts: seq<Action>, input: ChargeInput, terms: nat, k: Readings,
      more: seq<Action>, terms': nat, k': Readings)
    requires Initial(start) && Timely(Run(start, acts), k)
    requires ChargeTx(Run(start, acts).r, input, terms, Run(start, acts).nextToken, k).Ok?
    requires var v := Run(Do(Run(start, acts), Charge(input, terms, k)), more); v.r.c.hasUser
    ensures var id := ChargeTx(Run(start, acts).r, input, terms, Run(start, acts).nextToken, k).out;
      var v := Run(Do(Run(start, acts), Charge(input, terms, k)), more);
      ChargeTx(v.r, input, terms', v.nextToken, k') == Ok(v.r, id)
  {
    hide Run, Inv, Do, ChargeTx, KeysUnique, Initial;
    InitialInv(start);
    assert KeysUnique(start.r.attempts) by {
      NoKeys(start);
    }
    RunKeepsKeys(start, acts);
    var w := Run(start, acts);
    var id := ChargeTx(w.r, input, terms, w.nextToken, k).out;
    var u := Do(w, Charge(input, terms, k));
    Charged(w, input, terms, k);
    StepKeepsInv(w, Charge(input, terms, k));
    StepKeepsKeys(w, Charge(input, terms, k));
    RunKeepsKeys(u, more);
    RunAdvances(u, more);
    assert AttemptAdvances(u.r.attempts[id], Run(u, more).r.attempts[id]);
    Replayed(Run(u, more).r, id, input, terms', Run(u, more).nextToken, k');
  }

  lemma NoKeys(start: World)
    requires Initial(start)
    ensures KeysUnique(start.r.attempts)
  {
  }

  lemma Charged(w: World, input: ChargeInput, terms: nat, k: Readings)
    requires Timely(w, k) && ChargeTx(w.r, input, terms, w.nextToken, k).Ok?
    ensures var id := ChargeTx(w.r, input, terms, w.nextToken, k).out;
      var s := Do(w, Charge(input, terms, k)).r.attempts;
      id < |s| && s[id].key == input.key && s[id].binding == BindingOf(input)
  {
  }

  lemma Replayed(r: Rows, id: Id, input: ChargeInput, terms: nat, paymentId: nat, k: Readings)
    requires KeysUnique(r.attempts) && r.c.hasUser && id < |r.attempts| && r.attempts[id].key == input.key
        && r.attempts[id].binding == BindingOf(input)
    ensures ChargeTx(r, input, terms, paymentId, k) == Ok(r, id)
  {
    var found := FindKey(r.attempts, input.key);
    assert found.Some? && (found.value < id || id < found.value || found.value == id);
  }
}
