/** Paid coverage and refunds of the billing protocol. */
module BillingMoney {
  import opened Prelude
  import opened BillingCalendar
  import opened BillingRows
  import opened BillingCore
  import opened BillingProgress
  import opened BillingWorld
  import opened BillingInvariant
  import opened BillingSteps
  import opened BillingLookupSteps
  import opened BillingRefundSteps
  import opened BillingHistory
  import opened BillingTheorems

  // ----- Coverage -----

  /** The test that grants paid access at instant `t` on one period. */
  predicate Covered(r: Rows, i: nat, t: Time) {
    && i < |r.periods| && r.periods[i].startsAt <= t < r.periods[i].accessEndsAt
    && r.periods[i].attemptId < |r.attempts| && r.attempts[r.periods[i].attemptId].status == Paid
    && !r.attempts[r.periods[i].attemptId].reviewRequired
  }

  /** The end of access moves up only on an attempt that is refunded by then. */
  predicate NoRevival(r: Rows, s: Rows) {
    && |r.periods| <= |s.periods|
    && forall i :: 0 <= i < |r.periods| ==>
         s.periods[i].accessEndsAt <= r.periods[i].accessEndsAt
         || (s.periods[i].attemptId < |s.attempts| && s.attempts[s.periods[i].attemptId].status == Refunded)
  }

  lemma {:induction false} StepNoRevival(w: World, act: Action)
    requires Inv(w)
    ensures NoRevival(w.r, Do(w, act).r)
  {
    hide Inv, DoCommitLookup, DoSettleRefund, Do;
    OtherStepsKeepAttempts(w, act);
    if act.CommitLookup? && Timely(w, act.k) {
      CommitNoRevival(w, act.call, act.lookup, act.k);
      CommitStep(w, act);
    } else if act.SettleRefund? && Timely(w, act.k) {
      RefundNoRevival(w, act.call, act.found, act.invalid, act.k);
      RefundStep(w, act);
    } else {
      UntimelyStep(w, act);
    }
  }

  lemma CommitStep(w: World, act: Action)
    requires act.CommitLookup? && Timely(w, act.k)
    ensures Do(w, act) == DoCommitLookup(w, act.call, act.lookup, act.k)
  {
    hide DoCommitLookup;
  }

  lemma RefundStep(w: World, act: Action)
    requires act.SettleRefund? && Timely(w, act.k)
    ensures Do(w, act) == DoSettleRefund(w, act.call, act.found, act.invalid, act.k)
  {
    hide DoSettleRefund;
  }

  lemma UntimelyStep(w: World, act: Action)
    ensures !Timely(w, act.k) ==> Do(w, act) == w
  {
    hide DoCommitLookup, DoSettleRefund;
  }

  lemma {:induction false} CommitNoRevival(w: World, n: nat, lookup: LookupResult, k: Readings)
    requires Inv(w) && Timely(w, k)
    ensures NoRevival(w.r, DoCommitLookup(w, n, lookup, k).r)
  {
    hide Core, Charging, Refunding, Receiving, Revoking, Retrying, ReconcileCommitTx;
    if n < |w.calls| && w.calls[n].LookupSent? {
      var x := w.calls[n];
      if x.attempt < |w.r.attempts| && w.r.attempts[x.attempt].quoteId < |w.r.quotes| {
        CommitClipsDown(w.r, w.mock, x.attempt, x.token, x.fence, lookup, k, w.now);
      }
    }
  }

  lemma CommitClipsDown(r: Rows, mock: bool, id: Id, token: nat, fence: nat, result: LookupResult, k: Readings, now: Time)
    requires Core(r, now) && id < |r.attempts| && r.attempts[id].quoteId < |r.quotes|
    ensures var tx := ReconcileCommitTx(r, mock, id, token, fence, result, k);
      tx.Ok? ==> |r.periods| <= |tx.rows.periods| && forall i :: 0 <= i < |r.periods| ==> tx.rows.periods[i].accessEndsAt <= r.periods[i].accessEndsAt
  {
    hide Boundary, ApplyCancellations, Matches, Pow2, LatestPeriod, EndOf;
    var p := FindPeriod(r.periods, id);
    if p.Some? {
      assert PeriodOk(r, p.value);
    }
    hide FindPeriod, PeriodOk, AttemptOk, DispatchOk, CatalogQuote;
  }

  lemma RefundNoRevival(w: World, n: nat, found: Option<CancellationFound>, invalid: bool, k: Readings)
    requires Inv(w) && Timely(w, k)
    ensures NoRevival(w.r, DoSettleRefund(w, n, found, invalid, k).r)
  {
    hide Core, Charging, Refunding, Receiving, Revoking, Retrying, Pow2, CancelIdTaken;
    if n < |w.calls| && w.calls[n].RefundLookup? && w.calls[n].refund < |w.r.refunds|
        && w.r.refunds[w.calls[n].refund].attemptId < |w.r.attempts| {
      RefundedPeriod(w.r, w.calls[n].refund);
    }
  }

  lemma RefundedPeriod(r: Rows, id: Id)
    requires id < |r.refunds| && r.refunds[id].attemptId < |r.attempts|
    ensures var p := FindPeriod(r.periods, r.refunds[id].attemptId); p.Some? ==> p.value < |r.periods| && r.periods[p.value].attemptId == r.refunds[id].attemptId
  {
    hide FindPeriod;
  }

  lemma {:induction false} RunNoRevival(w: World, acts: seq<Action>)
    requires Inv(w)
    ensures NoRevival(w.r, Run(w, acts).r)
    decreases |acts|
  {
    hide Inv, Do, Advances;
    if acts != [] {
      var before := Run(w, acts[..|acts| - 1]);
      RunNoRevival(w, acts[..|acts| - 1]);
      RunAdvances(w, acts[..|acts| - 1]);
      StepNoRevival(before, acts[|acts| - 1]);
      StepAdvances(before, acts[|acts| - 1]);
      RevivalComposes(w.r, before.r, Run(w, acts).r);
    }
  }

  lemma RevivalComposes(r: Rows, s: Rows, t: Rows)
    requires NoRevival(r, s) && NoRevival(s, t) && Advances(r, s) && Advances(s, t)
    ensures NoRevival(r, t)
  {
    forall i | 0 <= i < |r.periods|
      ensures t.periods[i].accessEndsAt <= r.periods[i].accessEndsAt
              || (t.periods[i].attemptId < |t.attempts| && t.attempts[t.periods[i].attemptId].status == Refunded)
    {
      assert PeriodAdvances(r.periods[i], s.periods[i]) && PeriodAdvances(s.periods[i], t.periods[i]);
      if s.periods[i].accessEndsAt > r.periods[i].accessEndsAt {
        assert AttemptAdvances(s.attempts[s.periods[i].attemptId], t.attempts[s.periods[i].attemptId]);
      }
    }
  }

  /** Paid coverage that is gone stays gone: once the test of an existing period fails at some instant, it fails at
      that instant and every later one, in every state any run leads to. */
  lemma {:induction false} LostCoverageStaysLost(start: World, acts: seq<Action>, more: seq<Action>, i: nat, t: Time, later: Time)
    requires Initial(start) && i < |Run(start, acts).r.periods|
    requires Run(start, acts).now <= t <= later && !Covered(Run(start, acts).r, i, t)
    ensures !Covered(Run(Run(start, acts), more).r, i, later)
  {
    hide Run, Inv, Advances, NoRevival, Boundary;
    Reached(start, acts);
    var w := Run(start, acts);
    PeriodStarted(w, i);
    RunAdvances(w, more);
    RunNoRevival(w, more);
    NotCoveredAgain(w.r, Run(w, more).r, i, t, later);
  }

  lemma PeriodStarted(w: World, i: nat)
    requires Inv(w) && i < |w.r.periods|
    ensures w.r.periods[i].startsAt <= w.now && w.r.periods[i].attemptId == i && i < |w.r.attempts|
        && Settled(w.r.attempts[i].status)
  {
    hide Charging, Refunding, Receiving, Revoking, Retrying, Boundary;
    assert PeriodOk(w.r, i);
    assert AttemptOk(w.r, i) && DispatchOk(w.r, i, w.now);
  }

  lemma NotCoveredAgain(r: Rows, s: Rows, i: nat, t: Time, later: Time)
    requires Advances(r, s) && NoRevival(r, s) && i < |r.periods| && r.periods[i].startsAt <= t <= later
    requires r.periods[i].attemptId == i && i < |r.attempts| && Settled(r.attempts[i].status)
    requires !Covered(r, i, t)
    ensures !Covered(s, i, later)
  {
    assert PeriodAdvances(r.periods[i], s.periods[i]);
    assert AttemptAdvances(r.attempts[i], s.attempts[i]);
  }

  // ----- Refunds -----

  function SentSum(sent: seq<RefundSent>, attempt: Id): int {
    var n := |sent|;
    if n == 0 then 0 else SentSum(sent[..n - 1], attempt) + if sent[n - 1].attempt == attempt then sent[n - 1].amount else 0
  }

  /** The total ever verified on an attempt: a verified amount is never taken off a record again. */
  function VerifiedSum(refunds: seq<Refund>, attempt: Id): int {
    var n := |refunds|;
    if n == 0 then 0
    else VerifiedSum(refunds[..n - 1], attempt)
         + if refunds[n - 1].attemptId == attempt
             && refunds[n - 1].verifiedAmount.Some? then refunds[n - 1].verifiedAmount.value else 0
  }

  predicate Sane(refunds: seq<Refund>) {
    forall j :: 0 <= j < |refunds| ==>
      && refunds[j].requestAmount >= 0 && refunds[j].status != Rejected
      && (refunds[j].verifiedAmount.Some? ==> refunds[j].verifiedAmount.value == refunds[j].requestAmount)
  }

  lemma {:induction false} VerifiedWithinReserved(refunds: seq<Refund>, attempt: Id)
    requires Sane(refunds)
    ensures 0 <= VerifiedSum(refunds, attempt) <= ReservedSum(refunds, attempt)
  {
    if refunds != [] {
      VerifiedWithinReserved(refunds[..|refunds| - 1], attempt);
    }
  }

  predicate SentRecords(sent: seq<RefundSent>, refunds: seq<Refund>) {
    && (forall e :: 0 <= e < |sent| ==>
          && sent[e].refund < |refunds| && sent[e].attempt == refunds[sent[e].refund].attemptId
          && sent[e].amount == refunds[sent[e].refund].requestAmount)
    && (forall d, e :: 0 <= d < e < |sent| ==> sent[d].refund != sent[e].refund)
  }

  lemma {:induction false} WithoutRecord(refunds: seq<Refund>, j: nat, attempt: Id)
    requires j < |refunds| && Sane(refunds)
    ensures ReservedSum(refunds, attempt)
         == ReservedSum(refunds[j := refunds[j].(requestAmount := 0)], attempt) + if refunds[j].attemptId == attempt then refunds[j].requestAmount else 0
  {
    var n := |refunds| - 1;
    var changed := refunds[j := refunds[j].(requestAmount := 0)];
    if j < n {
      WithoutRecord(refunds[..n], j, attempt);
      assert changed[..n] == refunds[..n][j := refunds[j].(requestAmount := 0)];
    } else {
      assert changed[..n] == refunds[..n];
    }
  }

  lemma {:induction false} ReservedNotNegative(refunds: seq<Refund>, attempt: Id)
    requires Sane(refunds)
    ensures ReservedSum(refunds, attempt) >= 0
  {
    if refunds != [] {
      ReservedNotNegative(refunds[..|refunds| - 1], attempt);
    }
  }

  lemma {:induction false} SentWithinReserved(sent: seq<RefundSent>, refunds: seq<Refund>, attempt: Id)
    requires Sane(refunds) && SentRecords(sent, refunds)
    ensures SentSum(sent, attempt) <= ReservedSum(refunds, attempt)
    decreases |sent|
  {
    var n := |sent| - 1;
    if sent == [] {
      ReservedNotNegative(refunds, attempt);
    } else {
      var j := sent[n].refund;
      var rest := refunds[j := refunds[j].(requestAmount := 0, verifiedAmount := None)];
      WithoutRecord(refunds, j, attempt);
      SameSum(refunds[j := refunds[j].(requestAmount := 0)], rest, attempt);
      assert SentRecords(sent[..n], rest);
      SentWithinReserved(sent[..n], rest, attempt);
    }
  }

  /** Of every attempt, the reservations, all refunds ever sent to the provider and all refunds ever verified stay
      within what was charged, and no record is sent twice. */
  lemma {:induction false} RefundsWithinCharge(start: World, acts: seq<Action>, id: Id)
    requires Initial(start) && id < |Run(start, acts).r.attempts|
    ensures var w := Run(start, acts);
      && ReservedSum(w.r.refunds, id) <= w.r.attempts[id].totalAmount
      && SentSum(w.log.refunds, id) <= w.r.attempts[id].totalAmount
      && VerifiedSum(w.r.refunds, id) <= w.r.attempts[id].totalAmount
      && (forall d, e :: 0 <= d < e < |w.log.refunds| ==> w.log.refunds[d].refund != w.log.refunds[e].refund)
  {
    hide Run, Core, Charging, Receiving, Retrying, Revoking, ReservedSum, SentSum, VerifiedSum, RefundCallOk;
    Reached(start, acts);
    var w := Run(start, acts);
    assert Sane(w.r.refunds) by {
      forall j | 0 <= j < |w.r.refunds|
        ensures RefundOk(w.r.refunds[j], w.r)
      {
      }
    }
    assert SentRecords(w.log.refunds, w.r.refunds) by {
      forall e | 0 <= e < |w.log.refunds|
        ensures RefundSentOk(w.log.refunds[e], w.r)
      {
      }
    }
    VerifiedWithinReserved(w.r.refunds, id);
    SentWithinReserved(w.log.refunds, w.r.refunds, id);
  }

  // ----- A verified record -----

  predicate VerifiedAt(refunds: seq<Refund>, id: Id) {
    id < |refunds| && refunds[id].status == RefundVerified
  }

  lemma {:induction false} ApplyKeepsVerified(refunds: seq<Refund>, attemptId: Id, mock: bool, xs: seq<Cancellation>, now: Time, id: Id)
    requires VerifiedAt(refunds, id)
    ensures var out := ApplyCancellations(refunds, attemptId, mock, xs, now); out.Applied? ==> VerifiedAt(out.refunds, id)
    decreases |xs|
  {
    hide CancelIdTaken, FindRefundFrom;
    if xs != [] {
      ApplyKeepsVerified(refunds, attemptId, mock, xs[1..], now, id);
      var j := FindRefund(refunds, attemptId, xs[0]);
      if j.Some? {
        ApplyKeepsVerified(refunds[j.value := VerifyRefund(refunds[j.value], xs[0].cancelId, xs[0].amount, now)], attemptId, mock, xs[1..], now, id);
      }
    }
  }

  lemma CommitKeepsVerified(w: World, n: nat, lookup: LookupResult, k: Readings, id: Id)
    requires VerifiedAt(w.r.refunds, id)
    ensures VerifiedAt(DoCommitLookup(w, n, lookup, k).r.refunds, id)
  {
    hide Boundary, Matches, Pow2, LatestPeriod, FindPeriod, ApplyCancellations, VerifiedAt;
    if n < |w.calls| && w.calls[n].LookupSent? && lookup.Evidence? {
      ApplyKeepsVerified(w.r.refunds, w.calls[n].attempt, w.mock, lookup.payment.cancellations, k.first, id);
    }
  }

  lemma OtherStepsKeepVerified(w: World, act: Action, id: Id)
    requires VerifiedAt(w.r.refunds, id) && !act.SettleRefund?
    ensures VerifiedAt(Do(w, act).r.refunds, id)
  {
    hide Do;
    RefundWriters(w, act);
    if act.CommitLookup? {
      CommitKeepsVerified(w, act.call, act.lookup, act.k, id);
      ClosedSettled(w, act, id);
    } else if WritesRefunds(act) {
      ClaimsKeepVerified(w, act, id);
    }
  }

  lemma ClaimsKeepVerified(w: World, act: Action, id: Id)
    requires VerifiedAt(w.r.refunds, id) && WritesRefunds(act) && !act.CommitLookup? && !act.SettleRefund?
    ensures VerifiedAt(Do(w, act).r.refunds, id)
  {
    hide FindRefundKey, ReservedSum;
  }

  /** The step that puts a verified record back among the unknown ones: a lookup of the dispatching path comes back
      with nothing while its lease and fence still stand, and that release does not look at the status. */
  predicate Reopens(w: World, act: Action, id: Id)
    requires id < |w.r.refunds|
  {
    && act.SettleRefund? && Timely(w, act.k) && act.call < |w.calls| && w.calls[act.call].RefundLookup?
    && var x := w.calls[act.call];
       && x.refund == id && !x.audit && act.found.None?
       && w.r.refunds[id].leaseOwner == Some(x.token) && w.r.refunds[id].fence == x.claim.fence
  }

  /** Of all steps of the protocol exactly that one reopens a verified record. */
  lemma {:induction false} VerifiedReopensExactlyWhen(w: World, act: Action, id: Id)
    requires Inv(w) && VerifiedAt(w.r.refunds, id)
    ensures id < |Do(w, act).r.refunds|
    ensures !VerifiedAt(Do(w, act).r.refunds, id) <==> Reopens(w, act, id)
  {
    hide Inv, Do;
    if act.SettleRefund? && Timely(w, act.k) {
      RefundStep(w, act);
      if act.call < |w.calls| && w.calls[act.call].RefundLookup? {
        SettlingReopensExactlyWhen(w, act.call, act.found, act.invalid, act.k, id);
      }
    } else if act.SettleRefund? {
      UntimelyStep(w, act);
    } else {
      OtherStepsKeepVerified(w, act, id);
    }
  }

  lemma {:induction false} SettlingReopensExactlyWhen(w: World, n: nat, found: Option<CancellationFound>, invalid: bool, k: Readings, id: Id)
    requires Inv(w) && Timely(w, k) && id < |w.r.refunds| && w.r.refunds[id].status == RefundVerified
    requires n < |w.calls| && w.calls[n].RefundLookup?
    ensures id < |DoSettleRefund(w, n, found, invalid, k).r.refunds|
    ensures DoSettleRefund(w, n, found, invalid, k).r.refunds[id].status != RefundVerified <==>
      var x := w.calls[n];
      x.refund == id && !x.audit && found.None? && w.r.refunds[id].leaseOwner == Some(x.token)
          && w.r.refunds[id].fence == x.claim.fence
  {
    hide Core, Charging, Receiving, Retrying, Revoking, ReservedSum, RefundSentOk, Pow2, CancelIdTaken, FindPeriod;
    assert RefundCallOk(w.calls[n], w.r, w.log);
    if w.calls[n].refund == id {
      RefundedAttempt(w, id);
      AttemptsReach(w.r, w.now);
    }
    hide RefundOk, RefundCallOk, Refunding, Inv;
  }
}
