/**
  The billing service's transactions as it runs them: an object whose rows each transaction reads and updates step by
  step. Each is proved to do exactly what its transaction function says, and a failing one to leave every row as it
  was. `BillingService` puts runs of this object and runs of those functions together.
*/
module BillingStore {
  import opened Prelude
  import opened BillingCalendar
  import opened BillingRows

  datatype Result<+T> = Done(value: T) | Denied(code: Code)

  /** A transaction commits its rows and returns its outcome, or fails and rolls back. */
  predicate Follows<T(==)>(tx: Tx<T>, before: Rows, after': Rows, result: Result<T>) {
    match tx
    case Ok(rows, out) => result == Done(out) && after' == rows
    case Fail(code) => result == Denied(code) && after' == before
  }

  class ServiceBillingStore {
    const mock: bool
    var contract: Contract
    var quotes: seq<Quote>
    var instruments: seq<Instrument>
    var attempts: seq<Attempt>
    var periods: seq<Period>
    var refunds: seq<Refund>
    var receipts: seq<Receipt>

    constructor (mock: bool, scope: nat)
      ensures this.mock == mock
      ensures Current() == Rows(Contract(true, scope, None, Idle, None, 0, false, false, false, NotRequested, 0, None), [], [], [], [], [], [])
    {
      this.mock := mock;
      contract := Contract(true, scope, None, Idle, None, 0, false, false, false, NotRequested, 0, None);
      quotes, instruments, attempts, periods, refunds, receipts := [], [], [], [], [], [];
    }

    function Current(): Rows
      reads this
    {
      Rows(contract, quotes, instruments, attempts, periods, refunds, receipts)
    }

    // ----- Quotes, instruments, charging -----

    method ValidQuote(quoteId: Id, terms: nat, now: Time) returns (problem: Option<Code>)
      ensures problem == QuoteProblem(Current(), quoteId, terms, now)
    {
      hide CurrentQuote;
      if quoteId >= |quotes| {
        return Some(BillingNotFound);
      }
      var q := quotes[quoteId];
      if q.consumedAt.Some? || q.expiresAt <= now {
        return Some(QuoteExpiredOrConsumed);
      }
      problem := if CurrentQuote(q, terms) then None else Some(ReconsentRequired);
    }

    method CreateQuote(plan: Plan, terms: nat, k: Readings) returns (result: Result<Id>)
      modifies this
      ensures Follows(CreateQuoteTx(old(Current()), plan, terms, k), old(Current()), Current(), result)
    {
      if !contract.hasUser {
        return Denied(AccountNotFound);
      }
      if contract.cancelRequested {
        return Denied(RenewalStopped);
      }
      quotes := quotes + [QuoteData(plan, terms, k.first)];
      result := Done(|quotes| - 1);
    }

    method Prepare(quoteId: Id, terms: nat, k: Readings) returns (result: Result<Id>)
      modifies this
      ensures Follows(PrepareTx(old(Current()), quoteId, terms, k), old(Current()), Current(), result)
    {
      hide QuoteProblem, FindInstrument;
      if !contract.hasUser {
        return Denied(AccountNotFound);
      }
      if contract.cancelRequested {
        return Denied(RenewalStopped);
      }
      var problem := ValidQuote(quoteId, terms, k.first);
      if problem.Some? {
        return Denied(problem.value);
      }
      var existing := FindInstrument(instruments, quoteId);
      if existing.Some? {
        return Done(existing.value);
      }
      instruments := instruments + [Instrument(quoteId, Prepared, None, None, 0, None, None)];
      result := Done(|instruments| - 1);
    }

    method Confirm(i: Id, bound: bool, terms: nat, keyVersion: nat, k: Readings) returns (result: Result<()>)
      modifies this
      ensures Follows(ConfirmTx(old(Current()), i, bound, terms, keyVersion, k), old(Current()), Current(), result)
    {
      hide QuoteProblem;
      if !contract.hasUser {
        return Denied(AccountNotFound);
      }
      if i >= |instruments| || !(instruments[i].status == Prepared || instruments[i].status == InstrumentVerified)
          || contract.cancelRequested {
        return Denied(InstrumentUnavailable);
      }
      var problem := ValidQuote(instruments[i].quoteId, terms, k.first);
      if problem.Some? {
        return Denied(problem.value);
      }
      if !bound {
        return Denied(InstrumentBindingMismatch);
      }
      if instruments[i].status != InstrumentVerified {
        instruments := instruments[i := instruments[i].(status := InstrumentVerified, envelope := Some(Envelope(keyVersion)))];
      }
      result := Done(());
    }

    method Charge(input: ChargeInput, terms: nat, paymentId: nat, k: Readings) returns (result: Result<Id>)
      modifies this
      ensures Follows(ChargeTx(old(Current()), input, terms, paymentId, k), old(Current()), Current(), result)
    {
      hide FindKey, FindCycle, CurrentQuote;
      if !contract.hasUser {
        return Denied(AccountNotFound);
      }
      var prior := FindKey(attempts, input.key);
      if prior.Some? {
        return if attempts[prior.value].binding != BindingOf(input) then Denied(IdempotencyConflict) else Done(prior.value);
      }
      if contract.cancelRequested || contract.renewalStopped {
        return Denied(RenewalStopped);
      }
      if contract.nextCycle != 0 {
        return Denied(SubscriptionAlreadyPurchased);
      }
      var problem := ValidQuote(input.quoteId, terms, k.first);
      if problem.Some? {
        return Denied(problem.value);
      }
      var q := quotes[input.quoteId];
      if input.instrumentId >= |instruments| || instruments[input.instrumentId].quoteId != input.quoteId
         || instruments[input.instrumentId].status != InstrumentVerified || instruments[input.instrumentId].revokedAt.Some? {
        return Denied(InstrumentUnavailable);
      }
      if input.consent != q.terms || !input.accepted {
        return Denied(ConsentVersionMismatch);
      }
      if FindCycle(attempts, contract.nextCycle).Some? {
        return Denied(CycleAlreadyReserved);
      }
      quotes := quotes[input.quoteId := q.(consumedAt := Some(k.second))];
      attempts := attempts + [AttemptData(contract, q, input.quoteId, input.instrumentId, paymentId, input.key, BindingOf(input), k.last)];
      result := Done(|attempts| - 1);
    }

    // ----- Dispatching -----

    method Dispatch(id: Id, terms: nat, keyVersion: nat, decryptable: bool, k: Readings) returns (result: Result<DispatchOutcome>)
      requires id < |attempts| && attempts[id].quoteId < |quotes| && attempts[id].instrumentId < |instruments|
      modifies this
      ensures Follows(DispatchTx(old(Current()), id, terms, keyVersion, decryptable, k), old(Current()), Current(), result)
    {
      hide CurrentQuote, Boundary;
      var a := attempts[id];
      if a.dispatchAt.Some? || a.status != Created {
        return Done(NotClaimed);
      }
      var q := quotes[a.quoteId];
      if contract.cancelRequested {
        attempts := attempts[id := a.(status := CanceledBeforeDispatch)];
        return Done(NotClaimed);
      }
      if a.cycle > 0 && (contract.renewalStopped || contract.renewalReviewRequired) {
        attempts := attempts[id := a.(status := CanceledBeforeDispatch)];
        if !contract.renewalStopped {
          contract := contract.(renewalStopped := true, version := contract.version + 1);
        }
        return Done(Blocked(if contract.renewalReviewRequired then OverdueRenewalReview else RenewalStopped));
      }
      if !CurrentQuote(q, terms) {
        return Denied(ReconsentRequired);
      }
      var i := instruments[a.instrumentId];
      if i.status != InstrumentVerified || i.envelope.None? || i.envelope.value.keyVersion != keyVersion {
        return Denied(InstrumentUnavailable);
      }
      if !decryptable {
        return Denied(InstrumentDecryptionFailed);
      }
      var now := k.first;
      if a.cycle > 0 {
        var anchor := contract.originalAnchor;
        if anchor.None? || Boundary(anchor.value, q.periodMonths * (a.cycle + 1)) <= now
           || Boundary(anchor.value, q.periodMonths * a.cycle) != now || a.cycle != contract.nextCycle {
          attempts := attempts[id := a.(status := CanceledBeforeDispatch)];
          contract := contract.(renewalStopped := true, renewalReviewRequired := true, version := contract.version + 1);
          return Done(Blocked(OverdueRenewalReview));
        }
      }
      attempts := attempts[id := a.(dispatchAt := Some(now), status := DispatchUnknown, nextLookupAt := Some(now + LEASE_MS),
                                    leaseOwner := Some(DispatchLease), leaseUntil := Some(now + LEASE_MS), fence := a.fence + 1)];
      result := Done(Send(a.paymentId, a.totalAmount));
    }

    method ReleaseDispatch(id: Id, now: Time)
      requires id < |attempts|
      modifies this
      ensures Current() == ReleaseDispatchTx(old(Current()), id, now)
    {
      if attempts[id].leaseOwner == Some(DispatchLease) {
        attempts := attempts[id := attempts[id].(leaseOwner := None, leaseUntil := None, nextLookupAt := Some(now))];
      }
    }

    // ----- Reconciling -----

    method ClaimReconcile(id: Id, force: bool, token: nat, now: Time) returns (fence: Option<nat>)
      requires id < |attempts|
      modifies this
      ensures (Current(), fence) == ReconcileClaimTx(old(Current()), id, force, token, now)
    {
      var a := attempts[id];
      if a.dispatchAt.None? || a.reviewRequired || ((!force || !Settled(a.status)) && Closed(a.status))
         || Live(a.leaseUntil, now) || Live(a.nextLookupAt, now) {
        return None;
      }
      attempts := attempts[id := a.(leaseOwner := Some(Worker(token)), leaseUntil := Some(now + LEASE_MS),
                                    fence := a.fence + 1, lookupCount := a.lookupCount + 1)];
      fence := Some(a.fence + 1);
    }

    /** The loop over the cancellations of an observation. None is a unique key that was already taken. */
    method ApplyAll(attemptId: Id, xs: seq<Cancellation>, now: Time) returns (unknown: Option<bool>)
      modifies this`refunds
      ensures match ApplyCancellations(old(refunds), attemptId, mock, xs, now)
        case KeyConflict => unknown.None?
        case Applied(rows, some) => unknown == Some(some) && refunds == rows
    {
      hide FindRefund, CancelIdTaken;
      var found, i := false, 0;
      while i < |xs|
        invariant 0 <= i <= |xs|
        invariant ApplyCancellations(old(refunds), attemptId, mock, xs, now)
               == if found then MarkUnknown(ApplyCancellations(refunds, attemptId, mock, xs[i..], now))
                  else ApplyCancellations(refunds, attemptId, mock, xs[i..], now)
      {
        var x := xs[i];
        assert xs[i..][1..] == xs[i + 1..];
        i := i + 1;
        var r := FindRefund(refunds, attemptId, x);
        if r.None? || refunds[r.value].requestAmount != x.amount || (!mock && refunds[r.value].approval.None?) {
          found := true;
          continue;
        }
        if CancelIdTaken(refunds, x.cancelId, r.value) {
          return None;
        }
        refunds := refunds[r.value := VerifyRefund(refunds[r.value], x.cancelId, x.amount, now)];
      }
      unknown := Some(found);
    }

    /** A cancellation was seen: coverage ends now, and so do renewals. */
    method EndCoverage(id: Id, k: Readings)
      modifies this`periods, this`contract
      ensures var p := FindPeriod(old(periods), id);
        && periods == (if p.Some? then old(periods)[p.value := Clip(old(periods)[p.value], k.last, old(periods)[p.value].accessEndsAt)] else old(periods))
        && contract == old(contract).(renewalStopped := true, cancelRequested := true,
                                      providerCancellation := if old(contract).providerCancellation == Verified then Verified else Pending,
                                      version := old(contract).version + 1)
    {
      hide FindPeriod, Clip;
      var p := FindPeriod(periods, id);
      if p.Some? {
        periods := periods[p.value := Clip(periods[p.value], k.last, periods[p.value].accessEndsAt)];
      }
      contract := contract.(renewalStopped := true, cancelRequested := true,
                            providerCancellation := if contract.providerCancellation == Verified then Verified else Pending,
                            version := contract.version + 1);
    }

    method CommitSettled(id: Id, lookup: LookupResult, k: Readings) returns (result: Result<LookupOutcome>)
      requires id < |attempts|
      modifies this
      ensures Follows(ReconcileSettledTx(old(Current()), mock, id, lookup, k), old(Current()), Current(), result)
    {
      hide ApplyCancellations, FindPeriod, Matches, Clip, Release, Settled;
      var a := attempts[id];
      if lookup.Evidence? && Matches(lookup.payment, a, contract) && lookup.payment.status == ObservedPaid {
        var canceled := lookup.payment.cancelledAmount;
        var saved := refunds;
        var unknown := ApplyAll(id, lookup.payment.cancellations, k.first);
        if unknown.None? {
          refunds := saved;
          return Denied(UniqueViolation);
        }
        attempts := attempts[id := Release(a).(nextLookupAt := None, lookupCount := 0,
                                               status := if canceled == a.totalAmount then Refunded else a.status,
                                               reviewRequired := a.reviewRequired || unknown.value)];
        if canceled > 0 {
          EndCoverage(id, k);
        }
        return Done(Fresh(canceled, a.totalAmount));
      }
      var exhausted := a.lookupCount >= LOOKUP_LIMIT;
      attempts := attempts[id := Release(a).(reviewRequired := a.reviewRequired || exhausted,
                                             nextLookupAt := if exhausted then None else Some(k.last + LEASE_MS))];
      result := Done(if exhausted then Review else Retry);
    }

    method Settle(id: Id, paidAt: Time, canceled: int, k: Readings) returns (result: Result<LookupOutcome>)
      requires id < |attempts| && attempts[id].quoteId < |quotes|
      modifies this
      ensures Follows(SettleTx(old(Current()), id, paidAt, canceled, k), old(Current()), Current(), result)
    {
      hide Boundary, LatestPeriod, FindPeriod;
      var a := attempts[id];
      var q, previous := quotes[a.quoteId], LatestPeriod(periods);
      var anchor := if contract.originalAnchor.Some? then contract.originalAnchor.value else paidAt;
      var startsAt := if previous.Some? then periods[previous.value].endsAt else paidAt;
      var endsAt := Boundary(anchor, q.periodMonths * (a.cycle + 1));
      if endsAt <= startsAt || (previous.Some? && periods[previous.value].cycle + 1 != a.cycle) {
        return Denied(PeriodInconsistency);
      }
      if FindPeriod(periods, id).Some? {
        return Denied(UniqueViolation);
      }
      periods := periods + [Period(id, a.cycle, startsAt, endsAt, endsAt, k.last)];
      attempts := attempts[id := Release(a).(status := Paid, paidAt := Some(paidAt), nextLookupAt := None)];
      contract := contract.(status := if contract.cancelRequested then CancelAtPeriodEnd else Active, planId := Some(q.planId),
                            originalAnchor := Some(anchor), nextCycle := a.cycle + 1, version := contract.version + 1);
      result := Done(Fresh(canceled, a.totalAmount));
    }

    method CommitReconcile(id: Id, token: nat, fence: nat, lookup: LookupResult, k: Readings) returns (result: Result<LookupOutcome>)
      requires id < |attempts| && attempts[id].quoteId < |quotes|
      modifies this
      ensures Follows(ReconcileCommitTx(old(Current()), mock, id, token, fence, lookup, k), old(Current()), Current(), result)
    {
      hide ReconcileSettledTx, SettleTx, Matches, Pow2;
      var a := attempts[id];
      if a.leaseOwner != Some(Worker(token)) || a.fence != fence {
        return Done(Skipped);
      }
      var valid := lookup.Evidence? && Matches(lookup.payment, a, contract);
      if lookup.InvalidEvidence? || (lookup.Evidence? && !valid) {
        attempts := attempts[id := if Settled(a.status) then Release(a).(reviewRequired := true, nextLookupAt := None)
                                   else Release(a).(status := ManualReview, nextLookupAt := None)];
        return Done(Review);
      }
      if Settled(a.status) {
        result := CommitSettled(id, lookup, k);
        return;
      }
      if valid && lookup.payment.cancelledAmount > 0 {
        attempts := attempts[id := Release(a).(status := ManualReview, reviewRequired := true, nextLookupAt := None)];
        return Done(Review);
      }
      if valid && lookup.payment.status == ObservedPaid && lookup.payment.paidAt.Some?
          && lookup.payment.paidAt.value <= k.first {
        result := Settle(id, lookup.payment.paidAt.value, lookup.payment.cancelledAmount, k);
        return;
      }
      if valid && lookup.payment.status == ObservedFailed {
        attempts := attempts[id := Release(a).(status := Failed, nextLookupAt := None)];
        return Done(Fresh(lookup.payment.cancelledAmount, a.totalAmount));
      }
      var exhausted := a.lookupCount >= LOOKUP_LIMIT;
      attempts := attempts[id := Release(a).(
        status := if exhausted then ManualReview else DispatchUnknown,
        nextLookupAt := if exhausted then None else Some(k.last + Min(3_600_000, 1000 * Pow2(a.lookupCount))))];
      result := Done(if exhausted then Review else Retry);
    }

    // ----- Renewing -----

    method Renew(terms: nat, paymentId: nat, k: Readings) returns (result: Result<RenewOutcome>)
      requires forall i :: 0 <= i < |attempts| ==> attempts[i].quoteId < |quotes| && attempts[i].instrumentId < |instruments|
      modifies this
      ensures Follows(RenewTx(old(Current()), terms, paymentId, k), old(Current()), Current(), result)
    {
      hide LatestPaid, FindPeriod, FindCycle, FindKey, Boundary, CurrentQuote;
      if !contract.hasUser {
        return Denied(AccountNotFound);
      }
      if contract.renewalReviewRequired {
        return Done(Overdue);
      }
      if contract.cancelRequested || contract.renewalStopped || contract.originalAnchor.None? || contract.planId.None? {
        return Denied(RenewalStopped);
      }
      var latest := LatestPaid(attempts);
      if latest.None? {
        return Denied(RenewalNotDue);
      }
      var period := FindPeriod(periods, latest.value);
      if period.None? || periods[period.value].endsAt > k.first {
        return Denied(RenewalNotDue);
      }
      var previous := attempts[latest.value];
      var existing := FindCycle(attempts, contract.nextCycle);
      if existing.Some? && (attempts[existing.value].dispatchAt.Some? || attempts[existing.value].status != Created) {
        return Done(Reserved(existing.value));
      }
      var plan, anchor := contract.planId.value, contract.originalAnchor.value;
      if previous.totalAmount != Price(plan) || quotes[previous.quoteId].terms != terms
         || instruments[previous.instrumentId].status != InstrumentVerified {
        return Denied(RenewalReconsentRequired);
      }
      if !CurrentQuote(quotes[previous.quoteId], terms) {
        return Denied(ReconsentRequired);
      }
      var startsAt := Boundary(anchor, Months(plan) * contract.nextCycle);
      var endsAt := Boundary(anchor, Months(plan) * (contract.nextCycle + 1));
      if endsAt <= k.second || startsAt < k.last {
        if existing.Some? {
          attempts := attempts[existing.value := attempts[existing.value].(status := CanceledBeforeDispatch)];
        }
        contract := contract.(renewalReviewRequired := true, renewalStopped := true, version := contract.version + 1);
        return Done(Overdue);
      }
      if existing.Some? {
        return Done(Reserved(existing.value));
      }
      if FindKey(attempts, RenewalKey(contract.nextCycle)).Some? {
        return Denied(UniqueViolation);
      }
      var q := QuoteData(plan, terms, k.last).(consumedAt := Some(k.last));
      quotes := quotes + [q];
      attempts := attempts + [AttemptData(contract, q, |quotes| - 1, previous.instrumentId, paymentId, RenewalKey(contract.nextCycle),
                                          RenewalOf(latest.value), previous.acceptedAt)];
      result := Done(Reserved(|attempts| - 1));
    }

    // ----- Cancelling and revoking -----

    method Cancel() returns (result: Result<CancelOutcome>)
      modifies this
      ensures Follows(CancelTx(old(Current())), old(Current()), Current(), result)
    {
      hide CancellationComplete;
      if !contract.hasUser {
        return Denied(AccountNotFound);
      }
      if CancellationComplete(Current()) {
        return Done(Replay);
      }
      ghost var before := attempts;
      var i := 0;
      while i < |attempts|
        invariant 0 <= i <= |attempts| == |before|
        invariant contract == old(contract) && quotes == old(quotes) && instruments == old(instruments)
            && periods == old(periods)
        invariant refunds == old(refunds) && receipts == old(receipts)
        invariant forall j :: 0 <= j < i ==> attempts[j] == CancelCreated(before)[j]
        invariant forall j :: i <= j < |attempts| ==> attempts[j] == before[j]
      {
        if attempts[i].status == Created && attempts[i].dispatchAt.None? {
          attempts := attempts[i := attempts[i].(status := CanceledBeforeDispatch)];
        }
        i := i + 1;
      }
      assert attempts == CancelCreated(before);
      contract := contract.(cancelRequested := true, renewalStopped := true, providerCancellation := Pending,
                            status := CancelAtPeriodEnd, version := contract.version + 1);
      result := Done(Stopping(contract.version));
    }

    method VerifyCancel(version: nat, now: Time)
      modifies this
      ensures Current() == CancelVerifyTx(old(Current()), mock, version, now)
    {
      if contract.version != version || !contract.cancelRequested || !contract.renewalStopped {
        return;
      }
      if !mock && exists i :: 0 <= i < |instruments| && instruments[i].status != Revoked {
        return;
      }
      contract := contract.(providerCancellation := Verified, cancellationVerifiedVersion := Some(version));
      ghost var before := instruments;
      var i := 0;
      while i < |instruments|
        invariant 0 <= i <= |instruments| == |before|
        invariant contract == old(contract).(providerCancellation := Verified, cancellationVerifiedVersion := Some(version))
        invariant quotes == old(quotes) && attempts == old(attempts) && periods == old(periods)
            && refunds == old(refunds) && receipts == old(receipts)
        invariant forall j :: 0 <= j < i ==> instruments[j] == before[j].(status := Revoked, revokedAt := Some(now), envelope := None)
        invariant forall j :: i <= j < |instruments| ==> instruments[j] == before[j]
      {
        instruments := instruments[i := instruments[i].(status := Revoked, revokedAt := Some(now), envelope := None)];
        i := i + 1;
      }
    }

    method ClaimRevoke(i: Id, token: nat, k: Readings) returns (result: Result<Option<nat>>)
      modifies this
      ensures Follows(RevokeClaimTx(old(Current()), i, token, k), old(Current()), Current(), result)
    {
      if !contract.hasUser {
        return Denied(AccountNotFound);
      }
      if i >= |instruments| {
        return Denied(BillingNotFound);
      }
      var row := instruments[i];
      if row.status == Revoked || Live(row.leaseUntil, k.first) {
        return Done(None);
      }
      instruments := instruments[i := row.(status := RevocationPending, version := row.version + 1,
                                           leaseOwner := Some(token), leaseUntil := Some(k.last + LEASE_MS))];
      result := Done(Some(row.version + 1));
    }

    method CommitRevoke(i: Id, version: nat, token: nat, verified: bool, now: Time)
      requires i < |instruments|
      modifies this
      ensures Current() == RevokeCommitTx(old(Current()), i, version, token, verified, now)
    {
      var row := instruments[i];
      if row.version != version || row.leaseOwner != Some(token) {
        return;
      }
      if verified {
        row := row.(status := Revoked, revokedAt := Some(now), envelope := None);
      } else {
        row := row.(status := InstrumentReview);
      }
      instruments := instruments[i := row.(leaseOwner := None, leaseUntil := None)];
    }

    // ----- Refunding -----

    method RequestRefund(attemptId: Id, key: nat, reason: nat) returns (result: Result<Id>)
      modifies this
      ensures Follows(RequestRefundTx(old(Current()), attemptId, key, reason), old(Current()), Current(), result)
    {
      hide FindRefundKey;
      if !contract.hasUser {
        return Denied(AccountNotFound);
      }
      if attemptId >= |attempts| {
        return Denied(BillingNotFound);
      }
      var prior := FindRefundKey(refunds, attemptId, key);
      if prior.Some? {
        return if refunds[prior.value].reason != reason then Denied(IdempotencyConflict) else Done(prior.value);
      }
      if attempts[attemptId].status != Paid || attempts[attemptId].reviewRequired {
        return Denied(PaymentNotRefundable);
      }
      var reserved := SumReserved(attemptId);
      var amount := attempts[attemptId].totalAmount - reserved;
      if amount <= 0 {
        return Denied(RefundAlreadyReserved);
      }
      refunds := refunds + [Refund(attemptId, key, reason, amount, Requested, None, None, None, 0, 0, None, None, None, None)];
      result := Done(|refunds| - 1);
    }

    /** The aggregate over the records that were not rejected. */
    method SumReserved(attemptId: Id) returns (sum: int)
      ensures sum == ReservedSum(refunds, attemptId)
    {
      sum := 0;
      for i := 0 to |refunds|
        invariant sum == ReservedSum(refunds[..i], attemptId)
      {
        assert refunds[..i + 1][..i] == refunds[..i];
        if refunds[i].attemptId == attemptId && refunds[i].status != Rejected {
          sum := sum + refunds[i].requestAmount;
        }
      }
      assert refunds[..|refunds|] == refunds;
    }

    method ApproveRefund(id: Id, operation: nat) returns (result: Result<()>)
      requires id < |refunds|
      modifies this
      ensures Follows(ApproveRefundTx(old(Current()), id, operation), old(Current()), Current(), result)
    {
      var f := refunds[id];
      if f.approval.Some? {
        return if f.approval.value != operation then Denied(RefundApprovalConflict) else Done(());
      }
      if exists j :: 0 <= j < |refunds| && refunds[j].approval == Some(operation) {
        return Denied(UniqueViolation);
      }
      refunds := refunds[id := f.(approval := Some(operation))];
      result := Done(());
    }

    method ClaimRefund(id: Id, token: nat, k: Readings) returns (result: Result<Option<RefundClaim>>)
      requires id < |refunds| && refunds[id].attemptId < |attempts|
      modifies this
      ensures Follows(RefundClaimTx(old(Current()), mock, id, token, k), old(Current()), Current(), result)
    {
      var f := refunds[id];
      if !mock && f.approval.None? {
        return Denied(RefundApprovalRequired);
      }
      if !(f.status == Requested || f.status == RefundDispatchUnknown) || f.lookupCount >= LOOKUP_LIMIT
         || Live(f.leaseUntil, k.first) || Live(f.nextLookupAt, k.second) {
        return Done(None);
      }
      var a := attempts[f.attemptId];
      if a.reviewRequired || (f.status == Requested && a.status != Paid) {
        return Denied(PaymentNotRefundable);
      }
      refunds := refunds[id := f.(status := RefundDispatchUnknown, leaseOwner := Some(token), leaseUntil := Some(k.last + LEASE_MS),
                                  fence := f.fence + 1, lookupCount := f.lookupCount + 1)];
      result := Done(Some(RefundClaim(f.status == Requested, f.fence + 1, f.lookupCount + 1)));
    }

    method CommitRefund(id: Id, token: nat, fence: nat, approval: Option<nat>, found: CancellationFound, k: Readings) returns (result: Result<bool>)
      requires id < |refunds| && refunds[id].attemptId < |attempts|
      modifies this
      ensures Follows(CommitRefundTx(old(Current()), id, token, fence, approval, found, k), old(Current()), Current(), result)
    {
      hide FindPeriod, CancelIdTaken;
      var f := refunds[id];
      if f.status != RefundDispatchUnknown || f.leaseOwner != Some(token) || f.fence != fence {
        return Done(false);
      }
      if f.approval != approval {
        refunds := refunds[id := f.(status := RefundReview, leaseOwner := None, leaseUntil := None, nextLookupAt := None)];
        return Done(false);
      }
      if CancelIdTaken(refunds, found.cancelId, id) {
        return Denied(UniqueViolation);
      }
      refunds := refunds[id := VerifyRefund(f, found.cancelId, found.amount, k.first).(leaseOwner := None, leaseUntil := None, nextLookupAt := None)];
      attempts := attempts[f.attemptId := attempts[f.attemptId].(status := Refunded)];
      var p := FindPeriod(periods, f.attemptId);
      if p.Some? {
        periods := periods[p.value := Clip(periods[p.value], k.last, periods[p.value].endsAt)];
      }
      contract := contract.(renewalStopped := true, cancelRequested := true, providerCancellation := Pending, version := contract.version + 1);
      result := Done(true);
    }

    method ReleaseRefund(id: Id, token: nat, fence: nat, exhausted: bool, delay: int, unknownOnly: bool, now: Time)
      requires id < |refunds|
      modifies this
      ensures Current() == ReleaseRefundTx(old(Current()), id, token, fence, exhausted, delay, unknownOnly, now)
    {
      var f := refunds[id];
      if f.leaseOwner != Some(token) || f.fence != fence || (unknownOnly && f.status != RefundDispatchUnknown) {
        return;
      }
      refunds := refunds[id := f.(leaseOwner := None, leaseUntil := None, status := if exhausted then RefundReview else RefundDispatchUnknown,
                                  nextLookupAt := if exhausted then None else Some(now + delay))];
    }

    method ClaimAudit(id: Id, token: nat, consistent: bool, k: Readings) returns (claim: Option<RefundClaim>)
      requires id < |refunds| && refunds[id].attemptId < |attempts|
      modifies this
      ensures (Current(), claim) == AuditClaimTx(old(Current()), id, token, consistent, k)
    {
      var f := refunds[id];
      if f.status != RefundDispatchUnknown || Live(f.leaseUntil, k.first) || Live(f.nextLookupAt, k.second) {
        return None;
      }
      var a := attempts[f.attemptId];
      if !(f.fence > 0 && 0 < f.lookupCount < LOOKUP_LIMIT && f.approval.Some? && contract.hasUser && consistent
           && 0 < f.requestAmount <= a.totalAmount && Settled(a.status) && !a.reviewRequired) {
        refunds := refunds[id := f.(status := RefundReview, leaseOwner := None, leaseUntil := None, nextLookupAt := None)];
        return None;
      }
      refunds := refunds[id := f.(leaseOwner := Some(token), leaseUntil := Some(k.last + LEASE_MS), fence := f.fence + 1, lookupCount := f.lookupCount + 1)];
      claim := Some(RefundClaim(false, f.fence + 1, f.lookupCount + 1));
    }

    // ----- Webhook receipts -----

    method RecordVerifiedEvent(eventId: nat, paymentId: nat, expectation: Expectation, now: Time) returns (result: Result<Option<Id>>)
      modifies this
      ensures Follows(RecordEventTx(old(Current()), mock, eventId, paymentId, expectation, now), old(Current()), Current(), result)
    {
      hide FindPayment, FindEvent;
      var attempt := FindPayment(attempts, paymentId);
      if attempt.None? && !mock {
        return Done(None);
      }
      var event := FindEvent(receipts, eventId);
      if event.None? {
        receipts := receipts + [Receipt(eventId, paymentId, attempt, expectation, ReceiptPending, now, None, 0, None, None, None, 0)];
        return Done(Some(|receipts| - 1));
      }
      var e := receipts[event.value];
      result := if e.paymentId != paymentId
          || e.expectation != expectation then Denied(EventIdempotencyConflict) else Done(event);
    }

    method ClaimEvent(id: Id, token: nat, k: Readings) returns (ticket: Option<Ticket>)
      requires id < |receipts|
      modifies this
      ensures (Current(), ticket) == EventClaimTx(old(Current()), id, token, k)
    {
      hide FindPayment;
      var e := receipts[id];
      if e.phase != ReceiptPending || Live(e.leaseUntil, k.first) || Live(e.nextRetryAt, k.second) {
        return None;
      }
      e := e.(leaseOwner := Some(token), leaseUntil := Some(k.last + LEASE_MS), fence := e.fence + 1, retryCount := e.retryCount + 1);
      receipts := receipts[id := e];
      var attemptId := e.attemptId;
      if attemptId.None? {
        attemptId := FindPayment(attempts, e.paymentId);
      }
      ticket := Some(Ticket(id, token, e.fence, attemptId, e.expectation, e.retryCount, e.receivedAt));
    }

    method FinishEvent(t: Ticket, observation: EventResult, k: Readings)
      requires t.receipt < |receipts|
      modifies this
      ensures Current() == EventFinishTx(old(Current()), t, observation, k)
    {
      hide Pow2, ExpectationMet;
      var current := t.attemptId.Some? && t.attemptId.value < |attempts|;
      var recent := observation.FreshCommit? && current && attempts[t.attemptId.value].fence == observation.fence
        && attempts[t.attemptId.value].leaseOwner.None? && observation.initiatedAt >= t.receivedAt;
      var processed := recent && ExpectationMet(t.expectation, observation.cancelledAmount, observation.totalAmount);
      var exhausted := t.retryCount >= LOOKUP_LIMIT || observation == NoFreshCommit(true);
      var e := receipts[t.receipt];
      if e.leaseOwner == Some(t.token) && e.fence == t.fence {
        receipts := receipts[t.receipt := e.(
          attemptId := t.attemptId, leaseOwner := None, leaseUntil := None,
          processedAt := if processed then Some(k.first) else None,
          phase := if processed then ReceiptProcessed else if exhausted then ReceiptReview else ReceiptPending,
          nextRetryAt := if processed || exhausted then None else Some(k.last + 1000 * Pow2(t.retryCount)))];
      }
    }
  }
}
