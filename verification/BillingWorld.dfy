/**
  The billing protocol as a state machine: the contract's rows, the provider calls in flight, a clock that does not
  go back, and a log of what happened outside the rows.

  A call in flight may go on at any later time or never, so a crash is a call that is never continued. The provider
  is not trusted here: an observation may be anything. Workers are not scheduled here either: every replay, retry,
  sweep or webhook may start at any time.
*/
module BillingWorld {
  import opened Prelude
  import opened BillingCalendar
  import opened BillingRows

  datatype Call =
    | ChargeCall(attempt: Id, paymentId: nat, amount: int)
    | ChargeReturn(attempt: Id)
    | LookupClaimed(attempt: Id, token: nat, fence: nat, ticket: Option<Ticket>)
    | LookupSent(attempt: Id, token: nat, fence: nat, initiatedAt: Time, ticket: Option<Ticket>)
    | EventLookup(eventTicket: Ticket)
    | EventDone(eventTicket: Ticket, result: EventResult)
    | RevokeCall(instrument: Id, version: nat, token: nat)
    | CancelCall(version: nat)
    | RefundCall(refund: Id, token: nat, claim: RefundClaim, amount: int, paymentId: nat, approval: Option<nat>)
    | RefundLookup(refund: Id, token: nat, claim: RefundClaim, amount: int, paymentId: nat, approval: Option<nat>, audit: bool)
    | Finished

  /** A dispatch marker that was stored, a charge or a refund that was sent, a lookup that was committed. */
  datatype Marker = Marker(attempt: Id, at: Time)
  datatype ChargeSent = ChargeSent(attempt: Id, paymentId: nat, amount: int, at: Time)
  datatype RefundSent = RefundSent(refund: Id, attempt: Id, amount: int)
  datatype Commit = Commit(attempt: Id, fence: nat, initiatedAt: Time, cancelledAmount: int, totalAmount: int)

  datatype Log = Log(
    markers: seq<Marker>, charges: seq<ChargeSent>, refunds: seq<RefundSent>, commits: seq<Commit>,
    inconclusive: map<Id, nat>)

  datatype World = World(mock: bool, now: Time, nextToken: nat, r: Rows, calls: seq<Call>, log: Log)

  function Inconclusive(log: Log, attempt: Id): nat {
    if attempt in log.inconclusive then log.inconclusive[attempt] else 0
  }

  datatype Action =
    | CreateQuote(plan: Plan, terms: nat, k: Readings)
    | Prepare(quoteId: Id, terms: nat, k: Readings)
    | Confirm(instrument: Id, bound: bool, terms: nat, keyVersion: nat, k: Readings)
    | Charge(input: ChargeInput, terms: nat, k: Readings)
    | Renew(terms: nat, k: Readings)
    | Dispatch(attempt: Id, terms: nat, keyVersion: nat, decryptable: bool, k: Readings)
    | SendCharge(call: nat, k: Readings)
    | ReturnCharge(call: nat, k: Readings)
    | ClaimLookup(attempt: Id, force: bool, k: Readings)
    | StartLookup(call: nat, k: Readings)
    | CommitLookup(call: nat, lookup: LookupResult, k: Readings)
    | Cancel(k: Readings)
    | VerifyCancel(call: nat, k: Readings)
    | ClaimRevoke(instrument: Id, k: Readings)
    | CommitRevoke(call: nat, deleted: bool, k: Readings)
    | RequestRefund(attempt: Id, key: nat, reason: nat, k: Readings)
    | ApproveRefund(refund: Id, operation: nat, k: Readings)
    | ClaimRefund(refund: Id, k: Readings)
    | SendRefund(call: nat, k: Readings)
    | SettleRefund(call: nat, found: Option<CancellationFound>, invalid: bool, k: Readings)
    | ClaimAudit(refund: Id, consistent: bool, k: Readings)
    | RecordEvent(eventId: nat, paymentId: nat, expectation: Expectation, k: Readings)
    | ClaimEvent(receipt: Id, k: Readings)
    | LookupForEvent(call: nat, k: Readings)
    | FinishEvent(call: nat, k: Readings)
    | DeleteAccount(shared: bool, k: Readings)

  predicate Timely(w: World, k: Readings) {
    w.now <= k.first <= k.second <= k.last
  }

  /** Rows after a transaction that keeps nothing in flight; a failed one only takes time. */
  function Apply<T>(w: World, tx: Tx<T>, k: Readings): World {
    match tx
    case Fail(_) => w.(now := k.last)
    case Ok(rows, _) => w.(r := rows, now := k.last, nextToken := w.nextToken + 1)
  }

  function DoDispatch(w: World, id: Id, terms: nat, keyVersion: nat, decryptable: bool, k: Readings): World {
    if id >= |w.r.attempts| || w.r.attempts[id].quoteId >= |w.r.quotes|
        || w.r.attempts[id].instrumentId >= |w.r.instruments| then w
    else match DispatchTx(w.r, id, terms, keyVersion, decryptable, k)
      case Fail(_) => w.(now := k.last)
      case Ok(rows, Send(paymentId, amount)) =>
        w.(r := rows, now := k.last, calls := w.calls + [ChargeCall(id, paymentId, amount)],
           log := w.log.(markers := w.log.markers + [Marker(id, k.first)]))
      case Ok(rows, _) => w.(r := rows, now := k.last)
  }

  function DoSendCharge(w: World, n: nat, k: Readings): World {
    if n >= |w.calls| || !w.calls[n].ChargeCall? then w
    else
      var x := w.calls[n];
      w.(now := k.last, calls := w.calls[n := ChargeReturn(x.attempt)],
         log := w.log.(charges := w.log.charges + [ChargeSent(x.attempt, x.paymentId, x.amount, k.first)]))
  }

  function DoReturnCharge(w: World, n: nat, k: Readings): World {
    if n >= |w.calls| || !w.calls[n].ChargeReturn? || w.calls[n].attempt >= |w.r.attempts| then w
    else w.(r := ReleaseDispatchTx(w.r, w.calls[n].attempt, k.first), now := k.last, calls := w.calls[n := Finished])
  }

  function DoClaimLookup(w: World, id: Id, force: bool, k: Readings): World {
    if id >= |w.r.attempts| then w
    else
      var (rows, claim) := ReconcileClaimTx(w.r, id, force, w.nextToken, k.first);
      if claim.None? then w.(now := k.last)
      else w.(r := rows, now := k.last, nextToken := w.nextToken + 1, calls := w.calls + [LookupClaimed(id, w.nextToken, claim.value, None)])
  }

  /** A receipt's reconcile always asks with force; being skipped ends it without a fresh commit. */
  function DoLookupForEvent(w: World, n: nat, k: Readings): World {
    if n >= |w.calls| || !w.calls[n].EventLookup? then w
    else
      var t := w.calls[n].eventTicket;
      if t.attemptId.None? || t.attemptId.value >= |w.r.attempts| then
        w.(now := k.last, calls := w.calls[n := EventDone(t, NoFreshCommit(false))])
      else
        var (rows, claim) := ReconcileClaimTx(w.r, t.attemptId.value, true, w.nextToken, k.first);
        if claim.None? then w.(now := k.last, calls := w.calls[n := EventDone(t, NoFreshCommit(false))])
        else w.(r := rows, now := k.last, nextToken := w.nextToken + 1, calls := w.calls[n := LookupClaimed(t.attemptId.value, w.nextToken, claim.value, Some(t))])
  }

  function DoStartLookup(w: World, n: nat, k: Readings): World {
    if n >= |w.calls| || !w.calls[n].LookupClaimed? then w
    else
      var x := w.calls[n];
      w.(now := k.last, calls := w.calls[n := LookupSent(x.attempt, x.token, x.fence, k.first, x.ticket)])
  }

  function AfterLookup(ticket: Option<Ticket>, result: EventResult): Call {
    if ticket.None? then Finished else EventDone(ticket.value, result)
  }

  function CountInconclusive(log: Log, id: Id): Log {
    log.(inconclusive := log.inconclusive[id := Inconclusive(log, id) + 1])
  }

  function DoCommitLookup(w: World, n: nat, lookup: LookupResult, k: Readings): World {
    if n >= |w.calls| || !w.calls[n].LookupSent? then w
    else
      var x := w.calls[n];
      if x.attempt >= |w.r.attempts| || w.r.attempts[x.attempt].quoteId >= |w.r.quotes| then w
      else match ReconcileCommitTx(w.r, w.mock, x.attempt, x.token, x.fence, lookup, k)
        case Fail(_) => w.(now := k.last, calls := w.calls[n := AfterLookup(x.ticket, NoFreshCommit(false))])
        case Ok(rows, Skipped) => w.(now := k.last, calls := w.calls[n := AfterLookup(x.ticket, NoFreshCommit(false))])
        case Ok(rows, Retry) =>
          w.(r := rows, now := k.last, calls := w.calls[n := AfterLookup(x.ticket, NoFreshCommit(false))],
             log := if Settled(w.r.attempts[x.attempt].status) then w.log else CountInconclusive(w.log, x.attempt))
        case Ok(rows, Review) =>
          w.(r := rows, now := k.last, calls := w.calls[n := AfterLookup(x.ticket, NoFreshCommit(true))])
        case Ok(rows, Fresh(cancelled, total)) =>
          w.(r := rows, now := k.last, calls := w.calls[n := AfterLookup(x.ticket, FreshCommit(x.fence, x.initiatedAt, cancelled, total))],
             log := w.log.(commits := w.log.commits + [Commit(x.attempt, x.fence, x.initiatedAt, cancelled, total)]))
  }

  function DoRenew(w: World, terms: nat, k: Readings): World {
    if exists i :: 0 <= i < |w.r.attempts| && !(w.r.attempts[i].quoteId < |w.r.quotes|
        && w.r.attempts[i].instrumentId < |w.r.instruments|) then w
    else Apply(w, RenewTx(w.r, terms, w.nextToken, k), k)
  }

  function DoCancel(w: World, k: Readings): World {
    match CancelTx(w.r)
    case Fail(_) => w.(now := k.last)
    case Ok(rows, Replay) => w.(now := k.last)
    case Ok(rows, Stopping(version)) => w.(r := rows, now := k.last, calls := w.calls + [CancelCall(version)])
  }

  function DoVerifyCancel(w: World, n: nat, k: Readings): World {
    if n >= |w.calls| || !w.calls[n].CancelCall? then w
    else w.(r := CancelVerifyTx(w.r, w.mock, w.calls[n].version, k.first), now := k.last, calls := w.calls[n := Finished])
  }

  function DoClaimRevoke(w: World, i: Id, k: Readings): World {
    match RevokeClaimTx(w.r, i, w.nextToken, k)
    case Fail(_) => w.(now := k.last)
    case Ok(rows, None) => w.(now := k.last)
    case Ok(rows, Some(version)) =>
      w.(r := rows, now := k.last, nextToken := w.nextToken + 1, calls := w.calls + [RevokeCall(i, version, w.nextToken)])
  }

  function DoCommitRevoke(w: World, n: nat, deleted: bool, k: Readings): World {
    if n >= |w.calls| || !w.calls[n].RevokeCall? || w.calls[n].instrument >= |w.r.instruments| then w
    else
      var x := w.calls[n];
      w.(r := RevokeCommitTx(w.r, x.instrument, x.version, x.token, w.mock
          || deleted, k.first), now := k.last, calls := w.calls[n := Finished])
  }

  function DoClaimRefund(w: World, id: Id, k: Readings): World {
    if id >= |w.r.refunds| || w.r.refunds[id].attemptId >= |w.r.attempts| then w
    else match RefundClaimTx(w.r, w.mock, id, w.nextToken, k)
      case Fail(_) => w.(now := k.last)
      case Ok(rows, None) => w.(now := k.last)
      case Ok(rows, Some(claim)) =>
        var f := w.r.refunds[id];
        var paymentId := w.r.attempts[f.attemptId].paymentId;
        w.(r := rows, now := k.last, nextToken := w.nextToken + 1,
           calls := w.calls + [if claim.dispatch then RefundCall(id, w.nextToken, claim, f.requestAmount, paymentId, f.approval)
                               else RefundLookup(id, w.nextToken, claim, f.requestAmount, paymentId, f.approval, false)])
  }

  function DoSendRefund(w: World, n: nat, k: Readings): World {
    if n >= |w.calls| || !w.calls[n].RefundCall? || w.calls[n].refund >= |w.r.refunds| then w
    else
      var x := w.calls[n];
      w.(now := k.last, calls := w.calls[n := RefundLookup(x.refund, x.token, x.claim, x.amount, x.paymentId, x.approval, false)],
         log := w.log.(refunds := w.log.refunds + [RefundSent(x.refund, w.r.refunds[x.refund].attemptId, x.amount)]))
  }

  function DoClaimAudit(w: World, id: Id, consistent: bool, k: Readings): World {
    if w.mock || id >= |w.r.refunds| || w.r.refunds[id].attemptId >= |w.r.attempts| then w
    else
      var f := w.r.refunds[id];
      var (rows, claim) := AuditClaimTx(w.r, id, w.nextToken, consistent, k);
      if claim.None? then w.(r := rows, now := k.last)
      else w.(r := rows, now := k.last, nextToken := w.nextToken + 1,
              calls := w.calls + [RefundLookup(id, w.nextToken, claim.value, f.requestAmount, w.r.attempts[f.attemptId].paymentId, f.approval, true)])
  }

  /** The lookup of a cancellation came back: nothing, a wrong one, or the one to commit. */
  function DoSettleRefund(w: World, n: nat, found: Option<CancellationFound>, invalid: bool, k: Readings): World {
    if n >= |w.calls| || !w.calls[n].RefundLookup? then w
    else
      var x := w.calls[n];
      if x.refund >= |w.r.refunds| || w.r.refunds[x.refund].attemptId >= |w.r.attempts| then w
      else
        var done := w.(now := k.last, calls := w.calls[n := Finished]);
        var wrong := found.Some? && (found.value.paymentId != x.paymentId || found.value.amount != x.amount);
        var delay := 1000 * Pow2(x.claim.lookupCount);
        var giveUp := ReleaseRefundTx(w.r, x.refund, x.token, x.claim.fence, true, delay, true, k.first);
        if x.audit && (wrong || (found.None? && invalid)) then done.(r := giveUp)
        else if wrong then done
        else if found.None? then
          done.(r := ReleaseRefundTx(w.r, x.refund, x.token, x.claim.fence, x.claim.lookupCount >= LOOKUP_LIMIT, delay, x.audit, k.first))
        else match CommitRefundTx(w.r, x.refund, x.token, x.claim.fence, x.approval, found.value, k)
          case Fail(_) => if x.audit then done.(r := giveUp) else done
          case Ok(rows, _) => done.(r := rows)
  }

  function DoClaimEvent(w: World, id: Id, k: Readings): World {
    if id >= |w.r.receipts| then w
    else
      var (rows, ticket) := EventClaimTx(w.r, id, w.nextToken, k);
      if ticket.None? then w.(now := k.last)
      else w.(r := rows, now := k.last, nextToken := w.nextToken + 1, calls := w.calls + [EventLookup(ticket.value)])
  }

  function DoFinishEvent(w: World, n: nat, k: Readings): World {
    if n >= |w.calls| || !w.calls[n].EventDone? || w.calls[n].eventTicket.receipt >= |w.r.receipts| then w
    else w.(r := EventFinishTx(w.r, w.calls[n].eventTicket, w.calls[n].result, k), now := k.last, calls := w.calls[n := Finished])
  }

  /** One atomic step; an untimely or impossible one changes nothing. */
  function Do(w: World, act: Action): World {
    if !Timely(w, act.k) then w
    else match act
      case CreateQuote(plan, terms, k) => Apply(w, CreateQuoteTx(w.r, plan, terms, k), k)
      case Prepare(quoteId, terms, k) => Apply(w, PrepareTx(w.r, quoteId, terms, k), k)
      case Confirm(i, bound, terms, keyVersion, k) => Apply(w, ConfirmTx(w.r, i, bound, terms, keyVersion, k), k)
      case Charge(input, terms, k) => Apply(w, ChargeTx(w.r, input, terms, w.nextToken, k), k)
      case Renew(terms, k) => DoRenew(w, terms, k)
      case Dispatch(id, terms, keyVersion, decryptable, k) => DoDispatch(w, id, terms, keyVersion, decryptable, k)
      case SendCharge(n, k) => DoSendCharge(w, n, k)
      case ReturnCharge(n, k) => DoReturnCharge(w, n, k)
      case ClaimLookup(id, force, k) => DoClaimLookup(w, id, force, k)
      case StartLookup(n, k) => DoStartLookup(w, n, k)
      case CommitLookup(n, lookup, k) => DoCommitLookup(w, n, lookup, k)
      case Cancel(k) => DoCancel(w, k)
      case VerifyCancel(n, k) => DoVerifyCancel(w, n, k)
      case ClaimRevoke(i, k) => DoClaimRevoke(w, i, k)
      case CommitRevoke(n, deleted, k) => DoCommitRevoke(w, n, deleted, k)
      case RequestRefund(id, key, reason, k) => Apply(w, RequestRefundTx(w.r, id, key, reason), k)
      case ApproveRefund(id, operation, k) =>
        if w.mock || id >= |w.r.refunds| then w else Apply(w, ApproveRefundTx(w.r, id, operation), k)
      case ClaimRefund(id, k) => DoClaimRefund(w, id, k)
      case SendRefund(n, k) => DoSendRefund(w, n, k)
      case SettleRefund(n, found, invalid, k) => DoSettleRefund(w, n, found, invalid, k)
      case ClaimAudit(id, consistent, k) => DoClaimAudit(w, id, consistent, k)
      case RecordEvent(eventId, paymentId, expectation, k) => Apply(w, RecordEventTx(w.r, w.mock, eventId, paymentId, expectation, k.first), k)
      case ClaimEvent(id, k) => DoClaimEvent(w, id, k)
      case LookupForEvent(n, k) => DoLookupForEvent(w, n, k)
      case FinishEvent(n, k) => DoFinishEvent(w, n, k)
      case DeleteAccount(shared, k) => Apply(w, DeleteAccountTx(w.r, shared), k)
  }

  /** A run: any actions, in any order. */
  function Run(w: World, acts: seq<Action>): World
    decreases |acts|
  {
    if acts == [] then w else Do(Run(w, acts[..|acts| - 1]), acts[|acts| - 1])
  }

  /** A contract as the database creates it. */
  predicate Initial(w: World) {
    && w.r.c == Contract(true, w.r.c.scope, None, Idle, None, 0, false, false, false, NotRequested, 0, None)
    && w.r.quotes == [] && w.r.instruments == [] && w.r.attempts == [] && w.r.periods == [] && w.r.refunds == []
        && w.r.receipts == []
    && w.calls == [] && w.log == Log([], [], [], [], map[])
  }
}
