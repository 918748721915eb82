/**
  The rows of one subscription contract and the transactions of the billing service over them.

  Every database transaction of the service takes the contract's row lock, so each is one function here: from the
  rows before it to the rows after it and its outcome, or to a failure that leaves the rows as they were. A table is
  a sequence and a row's primary key its index. What a transaction reads of the clock comes in as its first, second
  and later readings, because a slow transaction reads the clock more than once.
*/
module BillingRows {
  import opened Prelude
  import opened BillingCalendar

  type Id = nat
  type Time = int

  const LEASE_MS := 30_000
  const LOOKUP_LIMIT := 8

  datatype Readings = Readings(first: Time, second: Time, last: Time)

  /** What the service refuses with. */
  datatype Code =
    | AccountNotFound | BillingNotFound | IdempotencyConflict | RenewalStopped | SubscriptionAlreadyPurchased
    | QuoteExpiredOrConsumed | ReconsentRequired | InstrumentUnavailable | InstrumentBindingMismatch
    | ConsentVersionMismatch | CycleAlreadyReserved | UniqueViolation | InstrumentDecryptionFailed
    | OverdueRenewalReview | PeriodInconsistency | RenewalNotDue | RenewalReconsentRequired
    | PaymentNotRefundable | RefundAlreadyReserved | RefundApprovalRequired | RefundApprovalConflict
    | EventIdempotencyConflict | AccountDeleteBlocked | WorkspaceConflict

  datatype Tx<+T> = Ok(rows: Rows, out: T) | Fail(code: Code)

  // ----- Rows -----

  datatype ContractStatus = Idle | Active | CancelAtPeriodEnd
  datatype CancellationStatus = NotRequested | Pending | Verified

  /** `scope` stands for the subject, provider, store, channel, environment and currency an observation must name. */
  datatype Contract = Contract(
    hasUser: bool, scope: nat, planId: Option<Plan>, status: ContractStatus, originalAnchor: Option<Time>,
    nextCycle: nat, cancelRequested: bool, renewalStopped: bool, renewalReviewRequired: bool,
    providerCancellation: CancellationStatus, version: nat, cancellationVerifiedVersion: Option<nat>)

  /** `terms` stands for the catalog, consent, policy and material versions a quote was made under. */
  datatype Quote = Quote(
    planId: Plan, totalAmount: int, periodMonths: int, terms: nat, expiresAt: Time, consumedAt: Option<Time>)

  datatype InstrumentStatus = Prepared | InstrumentVerified | RevocationPending | Revoked | InstrumentReview

  /** The four columns of the encrypted billing key are written and erased together. */
  datatype Envelope = Envelope(keyVersion: nat)

  datatype Instrument = Instrument(
    quoteId: Id, status: InstrumentStatus, envelope: Option<Envelope>, revokedAt: Option<Time>,
    version: nat, leaseOwner: Option<nat>, leaseUntil: Option<Time>)

  datatype AttemptStatus =
    | Created | DispatchUnknown | Paid | Failed | ManualReview | CanceledBeforeDispatch | Refunded

  /** A lease belongs to the dispatching call itself or to one worker's random token. */
  datatype Owner = DispatchLease | Worker(token: nat)

  /** Client keys and the keys the renewal makes for itself share one column. */
  datatype Key = ClientKey(n: nat) | RenewalKey(cycle: nat)

  /** The hash of a charge request, taken as injective, or the renewal's own binding. */
  datatype Binding = ChargeBinding(quoteId: Id, instrumentId: Id, consent: nat, accepted: bool) | RenewalOf(attempt: Id)

  datatype Attempt = Attempt(
    cycle: nat, quoteId: Id, instrumentId: Id, paymentId: nat, key: Key, binding: Binding, totalAmount: int,
    acceptedAt: Time, status: AttemptStatus, dispatchAt: Option<Time>, leaseOwner: Option<Owner>,
    leaseUntil: Option<Time>, fence: nat, lookupCount: nat, nextLookupAt: Option<Time>, paidAt: Option<Time>,
    reviewRequired: bool)

  datatype Period = Period(
    attemptId: Id, cycle: nat, startsAt: Time, endsAt: Time, accessEndsAt: Time, verifiedAt: Time)

  datatype RefundStatus = Requested | RefundDispatchUnknown | RefundVerified | Rejected | RefundReview

  datatype Refund = Refund(
    attemptId: Id, key: nat, reason: nat, requestAmount: int, status: RefundStatus, approval: Option<nat>,
    leaseOwner: Option<nat>, leaseUntil: Option<Time>, fence: nat, lookupCount: nat, nextLookupAt: Option<Time>,
    providerCancelId: Option<nat>, verifiedAmount: Option<int>, verifiedAt: Option<Time>)

  datatype Expectation = Observation | Cancelled | PartialCancelled | CancelPending
  datatype ReceiptPhase = ReceiptPending | ReceiptProcessed | ReceiptReview

  datatype Receipt = Receipt(
    eventId: nat, paymentId: nat, attemptId: Option<Id>, expectation: Expectation, phase: ReceiptPhase,
    receivedAt: Time, processedAt: Option<Time>, retryCount: nat, nextRetryAt: Option<Time>,
    leaseOwner: Option<nat>, leaseUntil: Option<Time>, fence: nat)

  datatype Rows = Rows(
    c: Contract, quotes: seq<Quote>, instruments: seq<Instrument>, attempts: seq<Attempt>, periods: seq<Period>,
    refunds: seq<Refund>, receipts: seq<Receipt>)

  // ----- Lookups by unique key -----

  function FindCycle(attempts: seq<Attempt>, cycle: nat): (r: Option<Id>)
    ensures r.Some? ==> r.value < |attempts| && attempts[r.value].cycle == cycle
    ensures r.None? ==> forall i :: 0 <= i < |attempts| ==> attempts[i].cycle != cycle
  {
    var n := |attempts|;
    if n == 0 then None
    else if attempts[n - 1].cycle == cycle then Some(n - 1)
    else FindCycle(attempts[..n - 1], cycle)
  }

  function FindKey(attempts: seq<Attempt>, key: Key): (r: Option<Id>)
    ensures r.Some? ==> r.value < |attempts| && attempts[r.value].key == key
    ensures r.None? ==> forall i :: 0 <= i < |attempts| ==> attempts[i].key != key
  {
    var n := |attempts|;
    if n == 0 then None
    else if attempts[n - 1].key == key then Some(n - 1)
    else FindKey(attempts[..n - 1], key)
  }

  function FindPayment(attempts: seq<Attempt>, paymentId: nat): (r: Option<Id>)
    ensures r.Some? ==> r.value < |attempts| && attempts[r.value].paymentId == paymentId
    ensures r.None? ==> forall i :: 0 <= i < |attempts| ==> attempts[i].paymentId != paymentId
  {
    var n := |attempts|;
    if n == 0 then None
    else if attempts[n - 1].paymentId == paymentId then Some(n - 1)
    else FindPayment(attempts[..n - 1], paymentId)
  }

  /** `findFirst` of status paid, by descending cycle. */
  function LatestPaid(attempts: seq<Attempt>): (r: Option<Id>)
    ensures r.Some? ==> r.value < |attempts| && attempts[r.value].status == Paid
    ensures forall i :: 0 <= i < |attempts| && attempts[i].status == Paid ==> r.Some? && attempts[i].cycle <= attempts[r.value].cycle
  {
    var n := |attempts|;
    if n == 0 then None
    else
      var rest := LatestPaid(attempts[..n - 1]);
      if attempts[n - 1].status == Paid && (rest.None?
          || attempts[rest.value].cycle <= attempts[n - 1].cycle) then Some(n - 1)
      else rest
  }

  /** `findFirst` of the contract's periods, by descending cycle. */
  function LatestPeriod(periods: seq<Period>): (r: Option<Id>)
    ensures r.None? <==> periods == []
    ensures r.Some? ==> r.value < |periods|
    ensures forall i :: 0 <= i < |periods| ==> periods[i].cycle <= periods[r.value].cycle
  {
    var n := |periods|;
    if n == 0 then None
    else
      var rest := LatestPeriod(periods[..n - 1]);
      if rest.None? || periods[rest.value].cycle <= periods[n - 1].cycle then Some(n - 1) else rest
  }

  function FindPeriod(periods: seq<Period>, attemptId: Id): (r: Option<Id>)
    ensures r.Some? ==> r.value < |periods| && periods[r.value].attemptId == attemptId
    ensures r.None? ==> forall i :: 0 <= i < |periods| ==> periods[i].attemptId != attemptId
  {
    var n := |periods|;
    if n == 0 then None
    else if periods[n - 1].attemptId == attemptId then Some(n - 1)
    else FindPeriod(periods[..n - 1], attemptId)
  }

  // ----- Quotes and instruments -----

  /** A quote is still current when it carries the running configuration's terms and catalog price. */
  predicate CurrentQuote(q: Quote, terms: nat) {
    q.terms == terms && q.totalAmount == Price(q.planId) && q.periodMonths == Months(q.planId)
  }

  function QuoteData(plan: Plan, terms: nat, now: Time): Quote {
    Quote(plan, Price(plan), Months(plan), terms, now + 15 * 60_000, None)
  }

  function CreateQuoteTx(r: Rows, plan: Plan, terms: nat, k: Readings): Tx<Id> {
    if !r.c.hasUser then Fail(AccountNotFound)
    else if r.c.cancelRequested then Fail(RenewalStopped)
    else Ok(r.(quotes := r.quotes + [QuoteData(plan, terms, k.first)]), |r.quotes|)
  }

  function QuoteProblem(r: Rows, quoteId: Id, terms: nat, now: Time): Option<Code> {
    if quoteId >= |r.quotes| then Some(BillingNotFound)
    else if r.quotes[quoteId].consumedAt.Some? || r.quotes[quoteId].expiresAt <= now then Some(QuoteExpiredOrConsumed)
    else if !CurrentQuote(r.quotes[quoteId], terms) then Some(ReconsentRequired)
    else None
  }

  function FindInstrument(instruments: seq<Instrument>, quoteId: Id): (r: Option<Id>)
    ensures r.Some? ==> r.value < |instruments| && instruments[r.value].quoteId == quoteId
    ensures r.None? ==> forall i :: 0 <= i < |instruments| ==> instruments[i].quoteId != quoteId
  {
    var n := |instruments|;
    if n == 0 then None
    else if instruments[n - 1].quoteId == quoteId then Some(n - 1)
    else FindInstrument(instruments[..n - 1], quoteId)
  }

  function PrepareTx(r: Rows, quoteId: Id, terms: nat, k: Readings): Tx<Id> {
    if !r.c.hasUser then Fail(AccountNotFound)
    else if r.c.cancelRequested then Fail(RenewalStopped)
    else match QuoteProblem(r, quoteId, terms, k.first)
      case Some(code) => Fail(code)
      case None =>
        match FindInstrument(r.instruments, quoteId)
        case Some(i) => Ok(r, i)
        case None =>
          Ok(r.(instruments := r.instruments + [Instrument(quoteId, Prepared, None, None, 0, None, None)]), |r.instruments|)
  }

  /** `bound` says whether the observed instrument names this contract and issuance. */
  function ConfirmTx(r: Rows, i: Id, bound: bool, terms: nat, keyVersion: nat, k: Readings): Tx<()> {
    if !r.c.hasUser then Fail(AccountNotFound)
    else if i >= |r.instruments| then Fail(InstrumentUnavailable)
    else
      var row := r.instruments[i];
      if !(row.status == Prepared || row.status == InstrumentVerified)
          || r.c.cancelRequested then Fail(InstrumentUnavailable)
      else match QuoteProblem(r, row.quoteId, terms, k.first)
        case Some(code) => Fail(code)
        case None =>
          if !bound then Fail(InstrumentBindingMismatch)
          else if row.status == InstrumentVerified then Ok(r, ())
          else Ok(r.(instruments := r.instruments[i := row.(status := InstrumentVerified, envelope := Some(Envelope(keyVersion)))]), ())
  }

  // ----- Charging -----

  datatype ChargeInput = ChargeInput(quoteId: Id, instrumentId: Id, key: Key, consent: nat, accepted: bool)

  function BindingOf(input: ChargeInput): Binding {
    ChargeBinding(input.quoteId, input.instrumentId, input.consent, input.accepted)
  }

  function AttemptData(c: Contract, q: Quote, quoteId: Id, instrumentId: Id, paymentId: nat, key: Key, binding: Binding, acceptedAt: Time): Attempt {
    Attempt(c.nextCycle, quoteId, instrumentId, paymentId, key, binding, q.totalAmount, acceptedAt,
            Created, None, None, None, 0, 0, None, None, false)
  }

  /** The reservation of the first cycle, or the replay of an earlier one. */
  function ChargeTx(r: Rows, input: ChargeInput, terms: nat, paymentId: nat, k: Readings): Tx<Id> {
    if !r.c.hasUser then Fail(AccountNotFound)
    else match FindKey(r.attempts, input.key)
      case Some(prior) => if r.attempts[prior].binding != BindingOf(input) then Fail(IdempotencyConflict) else Ok(r, prior)
      case None =>
        if r.c.cancelRequested || r.c.renewalStopped then Fail(RenewalStopped)
        else if r.c.nextCycle != 0 then Fail(SubscriptionAlreadyPurchased)
        else match QuoteProblem(r, input.quoteId, terms, k.first)
          case Some(code) => Fail(code)
          case None =>
            var q := r.quotes[input.quoteId];
            if input.instrumentId >= |r.instruments| || r.instruments[input.instrumentId].quoteId != input.quoteId
               || r.instruments[input.instrumentId].status != InstrumentVerified
                   || r.instruments[input.instrumentId].revokedAt.Some?
            then Fail(InstrumentUnavailable)
            else if input.consent != q.terms || !input.accepted then Fail(ConsentVersionMismatch)
            else if FindCycle(r.attempts, r.c.nextCycle).Some? then Fail(CycleAlreadyReserved)
            else
              Ok(r.(quotes := r.quotes[input.quoteId := q.(consumedAt := Some(k.second))],
                    attempts := r.attempts + [AttemptData(r.c, q, input.quoteId, input.instrumentId, paymentId, input.key, BindingOf(input), k.last)]),
                 |r.attempts|)
  }

  datatype DispatchOutcome = NotClaimed | Blocked(code: Code) | Send(paymentId: nat, amount: int)

  /** The claim that writes the dispatch marker, under the lock and just before the provider call. */
  function DispatchTx(r: Rows, id: Id, terms: nat, keyVersion: nat, decryptable: bool, k: Readings): Tx<DispatchOutcome>
    requires id < |r.attempts|
    requires r.attempts[id].quoteId < |r.quotes| && r.attempts[id].instrumentId < |r.instruments|
  {
    var a, c, now := r.attempts[id], r.c, k.first;
    var q, i := r.quotes[a.quoteId], r.instruments[a.instrumentId];
    var canceled := r.attempts[id := a.(status := CanceledBeforeDispatch)];
    if a.dispatchAt.Some? || a.status != Created then Ok(r, NotClaimed)
    else if c.cancelRequested then Ok(r.(attempts := canceled), NotClaimed)
    else if a.cycle > 0 && (c.renewalStopped || c.renewalReviewRequired) then
      Ok(r.(attempts := canceled,
            c := if c.renewalStopped then c else c.(renewalStopped := true, version := c.version + 1)),
         Blocked(if c.renewalReviewRequired then OverdueRenewalReview else RenewalStopped))
    else if !CurrentQuote(q, terms) then Fail(ReconsentRequired)
    else if i.status != InstrumentVerified || i.envelope.None?
        || i.envelope.value.keyVersion != keyVersion then Fail(InstrumentUnavailable)
    else if !decryptable then Fail(InstrumentDecryptionFailed)
    else if a.cycle > 0 && (c.originalAnchor.None?
                            || Boundary(c.originalAnchor.value, q.periodMonths * (a.cycle + 1)) <= now
                            || Boundary(c.originalAnchor.value, q.periodMonths * a.cycle) != now
                            || a.cycle != c.nextCycle) then
      Ok(r.(attempts := canceled,
            c := c.(renewalStopped := true, renewalReviewRequired := true, version := c.version + 1)),
         Blocked(OverdueRenewalReview))
    else
      Ok(r.(attempts := r.attempts[id := a.(dispatchAt := Some(now), status := DispatchUnknown, nextLookupAt := Some(now + LEASE_MS),
                                            leaseOwner := Some(DispatchLease), leaseUntil := Some(now + LEASE_MS), fence := a.fence + 1)]),
         Send(a.paymentId, a.totalAmount))
  }

  /** After the provider call, whatever came of it. */
  function ReleaseDispatchTx(r: Rows, id: Id, now: Time): Rows
    requires id < |r.attempts|
  {
    var a := r.attempts[id];
    if a.leaseOwner != Some(DispatchLease) then r
    else r.(attempts := r.attempts[id := a.(leaseOwner := None, leaseUntil := None, nextLookupAt := Some(now))])
  }

  // ----- Reconciliation -----

  predicate Live(until: Option<Time>, now: Time) {
    until.Some? && until.value > now
  }

  predicate Settled(s: AttemptStatus) {
    s == Paid || s == Refunded
  }

  predicate Closed(s: AttemptStatus) {
    s == Paid || s == Failed || s == ManualReview || s == Refunded || s == CanceledBeforeDispatch
  }

  function ReconcileClaimTx(r: Rows, id: Id, force: bool, token: nat, now: Time): (Rows, Option<nat>)
    requires id < |r.attempts|
  {
    var a := r.attempts[id];
    if a.dispatchAt.None? || a.reviewRequired || ((!force || !Settled(a.status)) && Closed(a.status))
       || Live(a.leaseUntil, now) || Live(a.nextLookupAt, now)
    then (r, None)
    else
      (r.(attempts := r.attempts[id := a.(leaseOwner := Some(Worker(token)), leaseUntil := Some(now + LEASE_MS),
                                          fence := a.fence + 1, lookupCount := a.lookupCount + 1)]),
       Some(a.fence + 1))
  }

  datatype PaymentStatus = ObservedPaid | ObservedFailed | ObservedPending

  /** `names` is the refund record the cancellation's reason spells, if it spells one. */
  datatype Cancellation = Cancellation(cancelId: nat, amount: int, names: Option<Id>)

  /** `paidAt` is None when the provider gives no usable date. */
  datatype Payment = Payment(
    paymentId: nat, scope: nat, totalAmount: int, status: PaymentStatus, paidAt: Option<Time>,
    cancelledAmount: int, cancellations: seq<Cancellation>)

  /** Nothing is an absent payment or a transport error; InvalidEvidence is an answer the adapter refuses. */
  datatype LookupResult = Evidence(payment: Payment) | Nothing | InvalidEvidence

  datatype LookupOutcome = Skipped | Retry | Review | Fresh(cancelledAmount: int, totalAmount: int)

  predicate Matches(p: Payment, a: Attempt, c: Contract) {
    p.paymentId == a.paymentId && p.scope == c.scope && p.totalAmount == a.totalAmount
  }

  function FindRefund(refunds: seq<Refund>, attemptId: Id, x: Cancellation): (r: Option<Id>)
    ensures r.Some? ==> r.value < |refunds| && refunds[r.value].attemptId == attemptId
    ensures r.Some? ==> refunds[r.value].providerCancelId == Some(x.cancelId) || x.names == r
  {
    FindRefundFrom(refunds, attemptId, x, 0)
  }

  function FindRefundFrom(refunds: seq<Refund>, attemptId: Id, x: Cancellation, from: nat): (r: Option<Id>)
    requires from <= |refunds|
    ensures r.Some? ==> r.value < |refunds| && refunds[r.value].attemptId == attemptId
    ensures r.Some? ==> refunds[r.value].providerCancelId == Some(x.cancelId) || x.names == r
    decreases |refunds| - from
  {
    if from == |refunds| then None
    else if refunds[from].attemptId == attemptId && (refunds[from].providerCancelId == Some(x.cancelId)
        || x.names == Some(from)) then Some(from)
    else FindRefundFrom(refunds, attemptId, x, from + 1)
  }

  /** The unique key on the provider's cancellation id. */
  predicate CancelIdTaken(refunds: seq<Refund>, cancelId: nat, holder: Id) {
    exists j :: 0 <= j < |refunds| && j != holder && refunds[j].providerCancelId == Some(cancelId)
  }

  datatype Applied = Applied(refunds: seq<Refund>, unknown: bool) | KeyConflict

  /** Matches each observed cancellation with a refund record; an unmatched one is reported as unknown. */
  function ApplyCancellations(refunds: seq<Refund>, attemptId: Id, mock: bool, xs: seq<Cancellation>, now: Time): (out: Applied)
    ensures out.Applied? ==> |out.refunds| == |refunds|
    decreases |xs|
  {
    if xs == [] then Applied(refunds, false)
    else
      var x := xs[0];
      match FindRefund(refunds, attemptId, x)
      case None => MarkUnknown(ApplyCancellations(refunds, attemptId, mock, xs[1..], now))
      case Some(j) =>
        if refunds[j].requestAmount != x.amount || (!mock && refunds[j].approval.None?) then
          MarkUnknown(ApplyCancellations(refunds, attemptId, mock, xs[1..], now))
        else if CancelIdTaken(refunds, x.cancelId, j) then KeyConflict
        else ApplyCancellations(refunds[j := VerifyRefund(refunds[j], x.cancelId, x.amount, now)], attemptId, mock, xs[1..], now)
  }

  function MarkUnknown(x: Applied): Applied {
    if x.Applied? then x.(unknown := true) else x
  }

  function VerifyRefund(f: Refund, cancelId: nat, amount: int, now: Time): Refund {
    f.(status := RefundVerified, providerCancelId := Some(cancelId), verifiedAmount := Some(amount), verifiedAt := Some(now))
  }

  function Release(a: Attempt): Attempt {
    a.(leaseOwner := None, leaseUntil := None)
  }

  function Clip(p: Period, now: Time, limit: Time): Period {
    p.(accessEndsAt := Max(p.startsAt, Min(now, limit)))
  }

  function Pow2(n: nat): nat {
    if n == 0 then 1 else 2 * Pow2(n - 1)
  }

  /** A settled attempt: look for cancellations only. */
  function ReconcileSettledTx(r: Rows, mock: bool, id: Id, result: LookupResult, k: Readings): Tx<LookupOutcome>
    requires id < |r.attempts|
  {
    var a, c := r.attempts[id], r.c;
    if result.Evidence? && Matches(result.payment, a, c) && result.payment.status == ObservedPaid then
      var canceled := result.payment.cancelledAmount;
      match ApplyCancellations(r.refunds, id, mock, result.payment.cancellations, k.first)
      case KeyConflict => Fail(UniqueViolation)
      case Applied(refunds, unknown) =>
        var settled := Release(a).(nextLookupAt := None, lookupCount := 0,
                                   status := if canceled == a.totalAmount then Refunded else a.status,
                                   reviewRequired := a.reviewRequired || unknown);
        var rows := r.(refunds := refunds, attempts := r.attempts[id := settled]);
        if canceled <= 0 then Ok(rows, Fresh(canceled, a.totalAmount))
        else
          var p := FindPeriod(r.periods, id);
          Ok(rows.(periods := if p.Some? then r.periods[p.value := Clip(r.periods[p.value], k.last, r.periods[p.value].accessEndsAt)] else r.periods,
                   c := c.(renewalStopped := true, cancelRequested := true,
                           providerCancellation := if c.providerCancellation == Verified then Verified else Pending,
                           version := c.version + 1)),
             Fresh(canceled, a.totalAmount))
    else
      var exhausted := a.lookupCount >= LOOKUP_LIMIT;
      Ok(r.(attempts := r.attempts[id := Release(a).(reviewRequired := a.reviewRequired || exhausted,
                                                     nextLookupAt := if exhausted then None else Some(k.last + LEASE_MS))]),
         if exhausted then Review else Retry)
  }

  /** The verified payment becomes the contract's next paid period. */
  function SettleTx(r: Rows, id: Id, paidAt: Time, canceled: int, k: Readings): Tx<LookupOutcome>
    requires id < |r.attempts| && r.attempts[id].quoteId < |r.quotes|
  {
    var a, c := r.attempts[id], r.c;
    var q := r.quotes[a.quoteId];
    var previous := LatestPeriod(r.periods);
    var anchor := if c.originalAnchor.Some? then c.originalAnchor.value else paidAt;
    var startsAt := if previous.Some? then r.periods[previous.value].endsAt else paidAt;
    var endsAt := Boundary(anchor, q.periodMonths * (a.cycle + 1));
    if endsAt <= startsAt || (previous.Some?
        && r.periods[previous.value].cycle + 1 != a.cycle) then Fail(PeriodInconsistency)
    else if FindPeriod(r.periods, id).Some? then Fail(UniqueViolation)
    else
      Ok(r.(periods := r.periods + [Period(id, a.cycle, startsAt, endsAt, endsAt, k.last)],
            attempts := r.attempts[id := Release(a).(status := Paid, paidAt := Some(paidAt), nextLookupAt := None)],
            c := c.(status := if c.cancelRequested then CancelAtPeriodEnd else Active, planId := Some(q.planId),
                    originalAnchor := Some(anchor), nextCycle := a.cycle + 1, version := c.version + 1)),
         Fresh(canceled, a.totalAmount))
  }

  /** The second half of a reconcile: only the claim whose owner and fence still stand may commit. */
  function ReconcileCommitTx(r: Rows, mock: bool, id: Id, token: nat, fence: nat, result: LookupResult, k: Readings): Tx<LookupOutcome>
    requires id < |r.attempts| && r.attempts[id].quoteId < |r.quotes|
  {
    var a, c := r.attempts[id], r.c;
    var valid := result.Evidence? && Matches(result.payment, a, c);
    if a.leaseOwner != Some(Worker(token)) || a.fence != fence then Ok(r, Skipped)
    else if result.InvalidEvidence? || (result.Evidence? && !valid) then
      Ok(r.(attempts := r.attempts[id := if Settled(a.status) then Release(a).(reviewRequired := true, nextLookupAt := None)
                                         else Release(a).(status := ManualReview, nextLookupAt := None)]),
         Review)
    else if Settled(a.status) then ReconcileSettledTx(r, mock, id, result, k)
    else if valid && result.payment.cancelledAmount > 0 then
      Ok(r.(attempts := r.attempts[id := Release(a).(status := ManualReview, reviewRequired := true, nextLookupAt := None)]), Review)
    else if valid && result.payment.status == ObservedPaid && result.payment.paidAt.Some?
        && result.payment.paidAt.value <= k.first then
      SettleTx(r, id, result.payment.paidAt.value, result.payment.cancelledAmount, k)
    else if valid && result.payment.status == ObservedFailed then
      Ok(r.(attempts := r.attempts[id := Release(a).(status := Failed, nextLookupAt := None)]), Fresh(result.payment.cancelledAmount, a.totalAmount))
    else
      var exhausted := a.lookupCount >= LOOKUP_LIMIT;
      Ok(r.(attempts := r.attempts[id := Release(a).(status := if exhausted then ManualReview else DispatchUnknown,
                                                     nextLookupAt := if exhausted then None else Some(k.last + Min(3_600_000, 1000 * Pow2(a.lookupCount))))]),
         if exhausted then Review else Retry)
  }

  // ----- Renewal -----

  datatype RenewOutcome = Overdue | Reserved(attempt: Id)

  function RenewTx(r: Rows, terms: nat, paymentId: nat, k: Readings): Tx<RenewOutcome>
    requires forall i :: 0 <= i < |r.attempts| ==> r.attempts[i].quoteId < |r.quotes| && r.attempts[i].instrumentId < |r.instruments|
  {
    var c := r.c;
    if !c.hasUser then Fail(AccountNotFound)
    else if c.renewalReviewRequired then Ok(r, Overdue)
    else if c.cancelRequested || c.renewalStopped || c.originalAnchor.None? || c.planId.None? then Fail(RenewalStopped)
    else
      var latest := LatestPaid(r.attempts);
      if latest.None? || FindPeriod(r.periods, latest.value).None?
         || r.periods[FindPeriod(r.periods, latest.value).value].endsAt > k.first
      then Fail(RenewalNotDue)
      else
        var previous := r.attempts[latest.value];
        var existing := FindCycle(r.attempts, c.nextCycle);
        if existing.Some? && (r.attempts[existing.value].dispatchAt.Some?
            || r.attempts[existing.value].status != Created) then
          Ok(r, Reserved(existing.value))
        else
          var plan := c.planId.value;
          if previous.totalAmount != Price(plan) || r.quotes[previous.quoteId].terms != terms
             || r.instruments[previous.instrumentId].status != InstrumentVerified
          then Fail(RenewalReconsentRequired)
          else if !CurrentQuote(r.quotes[previous.quoteId], terms) then Fail(ReconsentRequired)
          else if Boundary(c.originalAnchor.value, Months(plan) * (c.nextCycle + 1)) <= k.second
                  || Boundary(c.originalAnchor.value, Months(plan) * c.nextCycle) < k.last then
            Ok(r.(attempts := if existing.Some? then r.attempts[existing.value := r.attempts[existing.value].(status := CanceledBeforeDispatch)] else r.attempts,
                  c := c.(renewalReviewRequired := true, renewalStopped := true, version := c.version + 1)),
               Overdue)
          else if existing.Some? then Ok(r, Reserved(existing.value))
          else if FindKey(r.attempts, RenewalKey(c.nextCycle)).Some? then Fail(UniqueViolation)
          else
            var q := QuoteData(plan, terms, k.last).(consumedAt := Some(k.last));
            Ok(r.(quotes := r.quotes + [q],
                  attempts := r.attempts + [AttemptData(c, q, |r.quotes|, previous.instrumentId, paymentId, RenewalKey(c.nextCycle),
                                                        RenewalOf(latest.value), previous.acceptedAt)]),
               Reserved(|r.attempts|))
  }

  // ----- Cancellation and revocation -----

  predicate Erased(i: Instrument) {
    i.status == Revoked && i.envelope.None?
  }

  function CancelCreated(attempts: seq<Attempt>): (out: seq<Attempt>)
    ensures |out| == |attempts|
    ensures forall i :: 0 <= i < |attempts| ==>
      out[i] == if attempts[i].status == Created
          && attempts[i].dispatchAt.None? then attempts[i].(status := CanceledBeforeDispatch) else attempts[i]
  {
    seq(|attempts|, i requires 0 <= i < |attempts| =>
      if attempts[i].status == Created
          && attempts[i].dispatchAt.None? then attempts[i].(status := CanceledBeforeDispatch) else attempts[i])
  }

  datatype CancelOutcome = Replay | Stopping(version: nat)

  predicate CancellationComplete(r: Rows) {
    && r.c.cancelRequested && r.c.renewalStopped && r.c.status == CancelAtPeriodEnd
    && r.c.providerCancellation == Verified && r.c.cancellationVerifiedVersion == Some(r.c.version)
    && (forall i :: 0 <= i < |r.instruments| ==> Erased(r.instruments[i]))
    && (forall i :: 0 <= i < |r.attempts| ==> r.attempts[i].status != Created)
  }

  function CancelTx(r: Rows): Tx<CancelOutcome> {
    if !r.c.hasUser then Fail(AccountNotFound)
    else if CancellationComplete(r) then Ok(r, Replay)
    else
      Ok(r.(attempts := CancelCreated(r.attempts),
            c := r.c.(cancelRequested := true, renewalStopped := true, providerCancellation := Pending,
                      status := CancelAtPeriodEnd, version := r.c.version + 1)),
         Stopping(r.c.version + 1))
  }

  /** After the provider reported the schedule stopped. */
  function CancelVerifyTx(r: Rows, mock: bool, version: nat, now: Time): Rows {
    if r.c.version != version || !r.c.cancelRequested || !r.c.renewalStopped then r
    else if !mock && exists i :: 0 <= i < |r.instruments| && r.instruments[i].status != Revoked then r
    else
      r.(c := r.c.(providerCancellation := Verified, cancellationVerifiedVersion := Some(version)),
         instruments := seq(|r.instruments|, i requires 0 <= i < |r.instruments| =>
           r.instruments[i].(status := Revoked, revokedAt := Some(now), envelope := None)))
  }

  function RevokeClaimTx(r: Rows, i: Id, token: nat, k: Readings): Tx<Option<nat>> {
    if !r.c.hasUser then Fail(AccountNotFound)
    else if i >= |r.instruments| then Fail(BillingNotFound)
    else
      var row := r.instruments[i];
      if row.status == Revoked || Live(row.leaseUntil, k.first) then Ok(r, None)
      else
        Ok(r.(instruments := r.instruments[i := row.(status := RevocationPending, version := row.version + 1,
                                                    leaseOwner := Some(token), leaseUntil := Some(k.last + LEASE_MS))]),
           Some(row.version + 1))
  }

  /** `verified` is the provider's proof of deletion; in mock mode there is nothing to delete. */
  function RevokeCommitTx(r: Rows, i: Id, version: nat, token: nat, verified: bool, now: Time): Rows
    requires i < |r.instruments|
  {
    var row := r.instruments[i];
    if row.version != version || row.leaseOwner != Some(token) then r
    else
      var next := if verified then row.(status := Revoked, revokedAt := Some(now), envelope := None) else row.(status := InstrumentReview);
      r.(instruments := r.instruments[i := next.(leaseOwner := None, leaseUntil := None)])
  }

  // ----- Refunds -----

  /** The amount reserved on an attempt by refund records that were not rejected. */
  function ReservedSum(refunds: seq<Refund>, attemptId: Id): int {
    var n := |refunds|;
    if n == 0 then 0
    else ReservedSum(refunds[..n - 1], attemptId)
         + if refunds[n - 1].attemptId == attemptId
             && refunds[n - 1].status != Rejected then refunds[n - 1].requestAmount else 0
  }

  function FindRefundKey(refunds: seq<Refund>, attemptId: Id, key: nat): (r: Option<Id>)
    ensures r.Some? ==> r.value < |refunds| && refunds[r.value].attemptId == attemptId && refunds[r.value].key == key
    ensures r.None? ==> forall i :: 0 <= i < |refunds| ==> refunds[i].attemptId != attemptId || refunds[i].key != key
  {
    var n := |refunds|;
    if n == 0 then None
    else if refunds[n - 1].attemptId == attemptId && refunds[n - 1].key == key then Some(n - 1)
    else FindRefundKey(refunds[..n - 1], attemptId, key)
  }

  function RequestRefundTx(r: Rows, attemptId: Id, key: nat, reason: nat): Tx<Id> {
    if !r.c.hasUser then Fail(AccountNotFound)
    else if attemptId >= |r.attempts| then Fail(BillingNotFound)
    else match FindRefundKey(r.refunds, attemptId, key)
      case Some(prior) => if r.refunds[prior].reason != reason then Fail(IdempotencyConflict) else Ok(r, prior)
      case None =>
        var a := r.attempts[attemptId];
        var amount := a.totalAmount - ReservedSum(r.refunds, attemptId);
        if a.status != Paid || a.reviewRequired then Fail(PaymentNotRefundable)
        else if amount <= 0 then Fail(RefundAlreadyReserved)
        else
          Ok(r.(refunds := r.refunds + [Refund(attemptId, key, reason, amount, Requested, None, None, None, 0, 0, None, None, None, None)]),
             |r.refunds|)
  }

  function ApproveRefundTx(r: Rows, id: Id, operation: nat): Tx<()>
    requires id < |r.refunds|
  {
    var f := r.refunds[id];
    if f.approval.Some? then (if f.approval.value != operation then Fail(RefundApprovalConflict) else Ok(r, ()))
    else if exists j :: 0 <= j < |r.refunds| && r.refunds[j].approval == Some(operation) then Fail(UniqueViolation)
    else Ok(r.(refunds := r.refunds[id := f.(approval := Some(operation))]), ())
  }

  datatype RefundClaim = RefundClaim(dispatch: bool, fence: nat, lookupCount: nat)

  function RefundClaimTx(r: Rows, mock: bool, id: Id, token: nat, k: Readings): Tx<Option<RefundClaim>>
    requires id < |r.refunds| && r.refunds[id].attemptId < |r.attempts|
  {
    var f := r.refunds[id];
    var a := r.attempts[f.attemptId];
    if !mock && f.approval.None? then Fail(RefundApprovalRequired)
    else if !(f.status == Requested || f.status == RefundDispatchUnknown) || f.lookupCount >= LOOKUP_LIMIT
            || Live(f.leaseUntil, k.first) || Live(f.nextLookupAt, k.second) then Ok(r, None)
    else if a.reviewRequired || (f.status == Requested && a.status != Paid) then Fail(PaymentNotRefundable)
    else
      Ok(r.(refunds := r.refunds[id := f.(status := RefundDispatchUnknown, leaseOwner := Some(token), leaseUntil := Some(k.last + LEASE_MS),
                                          fence := f.fence + 1, lookupCount := f.lookupCount + 1)]),
         Some(RefundClaim(f.status == Requested, f.fence + 1, f.lookupCount + 1)))
  }

  /** The read-only audit of an unknown refund; `consistent` is the check of its scope and policy columns. */
  function AuditClaimTx(r: Rows, id: Id, token: nat, consistent: bool, k: Readings): (Rows, Option<RefundClaim>)
    requires id < |r.refunds| && r.refunds[id].attemptId < |r.attempts|
  {
    var f := r.refunds[id];
    var a := r.attempts[f.attemptId];
    if f.status != RefundDispatchUnknown || Live(f.leaseUntil, k.first) || Live(f.nextLookupAt, k.second) then (r, None)
    else if !(f.fence > 0 && 0 < f.lookupCount < LOOKUP_LIMIT && f.approval.Some? && r.c.hasUser && consistent
              && 0 < f.requestAmount <= a.totalAmount && Settled(a.status) && !a.reviewRequired)
    then (r.(refunds := r.refunds[id := f.(status := RefundReview, leaseOwner := None, leaseUntil := None, nextLookupAt := None)]), None)
    else
      (r.(refunds := r.refunds[id := f.(leaseOwner := Some(token), leaseUntil := Some(k.last + LEASE_MS), fence := f.fence + 1, lookupCount := f.lookupCount + 1)]),
       Some(RefundClaim(false, f.fence + 1, f.lookupCount + 1)))
  }

  /** The provider's cancellation of one refund, as a lookup returned it. */
  datatype CancellationFound = CancellationFound(paymentId: nat, amount: int, cancelId: nat)

  function CommitRefundTx(r: Rows, id: Id, token: nat, fence: nat, approval: Option<nat>, found: CancellationFound, k: Readings): Tx<bool>
    requires id < |r.refunds| && r.refunds[id].attemptId < |r.attempts|
  {
    var f := r.refunds[id];
    var a, c := r.attempts[f.attemptId], r.c;
    if f.status != RefundDispatchUnknown || f.leaseOwner != Some(token) || f.fence != fence then Ok(r, false)
    else if f.approval != approval then
      Ok(r.(refunds := r.refunds[id := f.(status := RefundReview, leaseOwner := None, leaseUntil := None, nextLookupAt := None)]), false)
    else if CancelIdTaken(r.refunds, found.cancelId, id) then Fail(UniqueViolation)
    else
      var p := FindPeriod(r.periods, f.attemptId);
      Ok(r.(refunds := r.refunds[id := VerifyRefund(f, found.cancelId, found.amount, k.first).(leaseOwner := None, leaseUntil := None, nextLookupAt := None)],
            attempts := r.attempts[f.attemptId := a.(status := Refunded)],
            periods := if p.Some? then r.periods[p.value := Clip(r.periods[p.value], k.last, r.periods[p.value].endsAt)] else r.periods,
            c := c.(renewalStopped := true, cancelRequested := true, providerCancellation := Pending, version := c.version + 1)),
         true)
  }

  /** No cancellation found: give the lease back, or stop looking. */
  function ReleaseRefundTx(r: Rows, id: Id, token: nat, fence: nat, exhausted: bool, delay: int, unknownOnly: bool, now: Time): Rows
    requires id < |r.refunds|
  {
    var f := r.refunds[id];
    if f.leaseOwner != Some(token) || f.fence != fence || (unknownOnly && f.status != RefundDispatchUnknown) then r
    else
      r.(refunds := r.refunds[id := f.(leaseOwner := None, leaseUntil := None,
                                       status := if exhausted then RefundReview else RefundDispatchUnknown,
                                       nextLookupAt := if exhausted then None else Some(now + delay))])
  }

  // ----- Webhook receipts -----

  function FindEvent(receipts: seq<Receipt>, eventId: nat): (r: Option<Id>)
    ensures r.Some? ==> r.value < |receipts| && receipts[r.value].eventId == eventId
    ensures r.None? ==> forall i :: 0 <= i < |receipts| ==> receipts[i].eventId != eventId
  {
    var n := |receipts|;
    if n == 0 then None
    else if receipts[n - 1].eventId == eventId then Some(n - 1)
    else FindEvent(receipts[..n - 1], eventId)
  }

  /** Storing a verified webhook; outside mock mode an unknown payment is acknowledged and not stored. */
  function RecordEventTx(r: Rows, mock: bool, eventId: nat, paymentId: nat, expectation: Expectation, now: Time): Tx<Option<Id>> {
    var attempt := FindPayment(r.attempts, paymentId);
    if attempt.None? && !mock then Ok(r, None)
    else match FindEvent(r.receipts, eventId)
      case Some(e) =>
        if r.receipts[e].paymentId != paymentId
            || r.receipts[e].expectation != expectation then Fail(EventIdempotencyConflict) else Ok(r, Some(e))
      case None =>
        Ok(r.(receipts := r.receipts + [Receipt(eventId, paymentId, attempt, expectation, ReceiptPending, now, None, 0, None, None, None, 0)]),
           Some(|r.receipts|))
  }

  /** What a worker remembers of the receipt it claimed. */
  datatype Ticket = Ticket(receipt: Id, token: nat, fence: nat, attemptId: Option<Id>, expectation: Expectation, retryCount: nat, receivedAt: Time)

  function EventClaimTx(r: Rows, id: Id, token: nat, k: Readings): (Rows, Option<Ticket>)
    requires id < |r.receipts|
  {
    var e := r.receipts[id];
    if e.phase != ReceiptPending || Live(e.leaseUntil, k.first) || Live(e.nextRetryAt, k.second) then (r, None)
    else
      var next := e.(leaseOwner := Some(token), leaseUntil := Some(k.last + LEASE_MS), fence := e.fence + 1, retryCount := e.retryCount + 1);
      (r.(receipts := r.receipts[id := next]),
       Some(Ticket(id, token, next.fence, if e.attemptId.Some? then e.attemptId else FindPayment(r.attempts, e.paymentId),
                   e.expectation, next.retryCount, e.receivedAt)))
  }

  /** The result of the reconcile a receipt asked for. */
  datatype EventResult = NoFreshCommit(review: bool) | FreshCommit(fence: nat, initiatedAt: Time, cancelledAmount: int, totalAmount: int)

  predicate ExpectationMet(expectation: Expectation, cancelledAmount: int, totalAmount: int) {
    match expectation
    case Observation => true
    case Cancelled => cancelledAmount == totalAmount
    case PartialCancelled => cancelledAmount > 0
    case CancelPending => cancelledAmount > 0
  }

  function EventFinishTx(r: Rows, t: Ticket, result: EventResult, k: Readings): Rows
    requires t.receipt < |r.receipts|
  {
    var e := r.receipts[t.receipt];
    if e.leaseOwner != Some(t.token) || e.fence != t.fence then r
    else
      var current := t.attemptId.Some? && t.attemptId.value < |r.attempts|;
      var processed := result.FreshCommit? && current && r.attempts[t.attemptId.value].fence == result.fence
        && r.attempts[t.attemptId.value].leaseOwner.None? && result.initiatedAt >= t.receivedAt
        && ExpectationMet(t.expectation, result.cancelledAmount, result.totalAmount);
      var exhausted := t.retryCount >= LOOKUP_LIMIT || result == NoFreshCommit(true);
      r.(receipts := r.receipts[t.receipt := e.(attemptId := t.attemptId, leaseOwner := None, leaseUntil := None,
        processedAt := if processed then Some(k.first) else None,
        phase := if processed then ReceiptProcessed else if exhausted then ReceiptReview else ReceiptPending,
        nextRetryAt := if processed || exhausted then None else Some(k.last + 1000 * Pow2(t.retryCount)))])
  }

  // ----- Account deletion -----

  predicate DeletionGate(r: Rows) {
    && (forall i :: 0 <= i < |r.attempts| ==>
          r.attempts[i].status != Created && r.attempts[i].status != DispatchUnknown && r.attempts[i].status != ManualReview
          && !r.attempts[i].reviewRequired)
    && (forall i :: 0 <= i < |r.refunds| ==> r.refunds[i].status == RefundVerified || r.refunds[i].status == Rejected)
    && (forall i :: 0 <= i < |r.instruments| ==> Erased(r.instruments[i]))
    && (forall i :: 0 <= i < |r.receipts| ==> r.receipts[i].attemptId.Some? ==> r.receipts[i].processedAt.Some?)
    && (r.c.status == Idle
        || (r.c.cancelRequested && r.c.renewalStopped && r.c.providerCancellation == Verified
            && r.c.cancellationVerifiedVersion == Some(r.c.version)))
  }

  /** Deleting the account detaches the contract; `shared` is an owned workspace that still has other members. */
  function DeleteAccountTx(r: Rows, shared: bool): Tx<()> {
    if !r.c.hasUser then Fail(AccountNotFound)
    else if !DeletionGate(r) then Fail(AccountDeleteBlocked)
    else if shared then Fail(WorkspaceConflict)
    else Ok(r.(c := r.c.(hasUser := false)), ())
  }
}
