/**
  The mock payment provider: the one concrete provider of the service. Its key for an instrument is the issuance id
  it was prepared under, and a cancellation's id is the fresh value its caller passes in.
*/
module MockProvider {
  import opened Prelude

  datatype Issued = Issued(issuanceId: nat, subjectId: nat)
  datatype Payment = Payment(paymentId: nat, subjectId: nat, totalAmount: int, paidAt: int)
  datatype Cancelled = Cancelled(paymentId: nat, amount: int, cancelId: nat)

  datatype Provider = Provider(
    instruments: map<nat, Issued>, payments: map<nat, Payment>, stopped: set<nat>, cancellations: map<nat, Cancelled>, dispatchCount: nat)

  // ----- Calls that change something -----

  datatype Call =
    | Prepare(issuanceId: nat, subjectId: nat)
    | Charge(paymentId: nat, subjectId: nat, key: nat, totalAmount: int, now: int)
    | CancelSchedule(subjectId: nat)
    | Refund(paymentId: nat, amount: int, requestId: nat, cancelId: nat)

  predicate Accepts(p: Provider, c: Call) {
    match c
    case Charge(paymentId, subjectId, key, _, _) =>
      key in p.instruments && p.instruments[key].subjectId == subjectId && paymentId !in p.payments
    case Refund(paymentId, amount, _, _) => paymentId in p.payments && amount == p.payments[paymentId].totalAmount
    case _ => true
  }

  /** A refused call changes nothing. */
  function After(p: Provider, c: Call): Provider {
    if !Accepts(p, c) then p
    else match c
      case Prepare(issuanceId, subjectId) => p.(instruments := p.instruments[issuanceId := Issued(issuanceId, subjectId)])
      case Charge(paymentId, subjectId, _, totalAmount, now) =>
        p.(dispatchCount := p.dispatchCount + 1, payments := p.payments[paymentId := Payment(paymentId, subjectId, totalAmount, now)])
      case CancelSchedule(subjectId) => p.(stopped := p.stopped + {subjectId})
      case Refund(paymentId, amount, requestId, cancelId) =>
        if requestId in p.cancellations then p
        else p.(cancellations := p.cancellations[requestId := Cancelled(paymentId, amount, cancelId)])
  }

  const EMPTY := Provider(map[], map[], {}, map[], 0)

  function AfterAll(p: Provider, calls: seq<Call>): Provider {
    if calls == [] then p else After(AfterAll(p, calls[..|calls| - 1]), calls[|calls| - 1])
  }

  // ----- The object -----

  class MockServiceBillingProvider {
    var instruments: map<nat, Issued>
    var payments: map<nat, Payment>
    var stopped: set<nat>
    var cancellations: map<nat, Cancelled>
    var dispatchCount: nat

    constructor ()
      ensures Current() == EMPTY
    {
      instruments, payments, stopped, cancellations, dispatchCount := map[], map[], {}, map[], 0;
    }

    function Current(): Provider
      reads this
    {
      Provider(instruments, payments, stopped, cancellations, dispatchCount)
    }

    method PrepareInstrument(issuanceId: nat, subjectId: nat)
      modifies this
      ensures Current() == After(old(Current()), Prepare(issuanceId, subjectId))
    {
      instruments := instruments[issuanceId := Issued(issuanceId, subjectId)];
    }

    method GetInstrument(key: nat) returns (issued: Option<Issued>)
      ensures issued == if key in instruments then Some(instruments[key]) else None
    {
      issued := if key in instruments then Some(instruments[key]) else None;
    }

    method ChargePayment(paymentId: nat, subjectId: nat, key: nat, totalAmount: int, now: int) returns (accepted: bool)
      modifies this
      ensures var c := Charge(paymentId, subjectId, key, totalAmount, now);
        accepted == Accepts(old(Current()), c) && Current() == After(old(Current()), c)
    {
      var instrument := GetInstrument(key);
      if instrument.None? || instrument.value.subjectId != subjectId || paymentId in payments {
        return false;
      }
      dispatchCount := dispatchCount + 1;
      payments := payments[paymentId := Payment(paymentId, subjectId, totalAmount, now)];
      accepted := true;
    }

    method GetPayment(paymentId: nat) returns (payment: Option<Payment>)
      ensures payment == if paymentId in payments then Some(payments[paymentId]) else None
    {
      payment := if paymentId in payments then Some(payments[paymentId]) else None;
    }

    method StopSchedule(subjectId: nat)
      modifies this
      ensures Current() == After(old(Current()), CancelSchedule(subjectId))
    {
      stopped := stopped + {subjectId};
    }

    method GetSchedule(subjectId: nat) returns (isStopped: bool)
      ensures isStopped == (subjectId in stopped)
    {
      isStopped := subjectId in stopped;
    }

    method RefundPayment(paymentId: nat, amount: int, requestId: nat, cancelId: nat) returns (accepted: bool)
      modifies this
      ensures var c := Refund(paymentId, amount, requestId, cancelId);
        accepted == Accepts(old(Current()), c) && Current() == After(old(Current()), c)
    {
      if paymentId !in payments || amount != payments[paymentId].totalAmount {
        return false;
      }
      if requestId !in cancellations {
        cancellations := cancellations[requestId := Cancelled(paymentId, amount, cancelId)];
      }
      accepted := true;
    }

    method GetCancellation(requestId: nat) returns (cancelled: Option<Cancelled>)
      ensures cancelled == if requestId in cancellations then Some(cancellations[requestId]) else None
    {
      cancelled := if requestId in cancellations then Some(cancellations[requestId]) else None;
    }
  }

  // ----- What holds over every sequence of calls -----

  /** Every counted dispatch is a stored payment, and every cancellation is the full amount of one. */
  predicate Sound(p: Provider) {
    && p.dispatchCount == |p.payments|
    && (forall id :: id in p.payments ==> p.payments[id].paymentId == id)
    && (forall r :: r in p.cancellations ==>
          p.cancellations[r].paymentId in p.payments
              && p.cancellations[r].amount == p.payments[p.cancellations[r].paymentId].totalAmount)
  }

  lemma {:induction false} SoundAlways(calls: seq<Call>)
    ensures Sound(AfterAll(EMPTY, calls))
  {
    if calls != [] {
      SoundAlways(calls[..|calls| - 1]);
      var p := AfterAll(EMPTY, calls[..|calls| - 1]);
      var c := calls[|calls| - 1];
      if c.Charge? && Accepts(p, c) {
        assert After(p, c).payments.Keys == p.payments.Keys + {c.paymentId};
      }
    }
  }

  lemma {:induction false} NothingIsUndone(p: Provider, calls: seq<Call>)
    ensures var q := AfterAll(p, calls);
      && (forall id :: id in p.payments ==> id in q.payments && q.payments[id] == p.payments[id])
      && (forall r :: r in p.cancellations ==> r in q.cancellations && q.cancellations[r] == p.cancellations[r])
      && p.stopped <= q.stopped && p.dispatchCount <= q.dispatchCount
  {
    if calls != [] {
      NothingIsUndone(p, calls[..|calls| - 1]);
    }
  }

  /** A payment is charged at most once: once accepted, every later charge of its id is refused, whatever it says. */
  lemma ChargedAtMostOnce(p: Provider, first: Call, between: seq<Call>, again: Call)
    requires first.Charge? && again.Charge? && again.paymentId == first.paymentId && Accepts(p, first)
    ensures !Accepts(AfterAll(After(p, first), between), again)
  {
    NothingIsUndone(After(p, first), between);
  }

  /** A refund is idempotent: a second one of the same request changes nothing and the first answer stands. */
  lemma {:induction false} RefundOnce(p: Provider, first: Call, between: seq<Call>, again: Call)
    requires first.Refund? && again.Refund? && again.requestId == first.requestId && Accepts(p, first)
    ensures var q := AfterAll(After(p, first), between);
      && After(q, again) == q && first.requestId in q.cancellations
      && (first.requestId !in p.cancellations ==> q.cancellations[first.requestId] == Cancelled(first.paymentId, first.amount, first.cancelId))
  {
    NothingIsUndone(After(p, first), between);
  }

  /** The mock is honest: it knows a cancellation only of a refund that was sent to it. */
  lemma {:induction false} KnowsOnlySentRefunds(calls: seq<Call>, requestId: nat)
    requires requestId in AfterAll(EMPTY, calls).cancellations
    ensures exists i :: 0 <= i < |calls| && calls[i].Refund? && calls[i].requestId == requestId
  {
    if calls != [] {
      var shorter := calls[..|calls| - 1];
      if requestId in AfterAll(EMPTY, shorter).cancellations {
        KnowsOnlySentRefunds(shorter, requestId);
        var i :| 0 <= i < |shorter| && shorter[i].Refund? && shorter[i].requestId == requestId;
        assert calls[i] == shorter[i];
      } else {
        assert calls[|calls| - 1].Refund?;
      }
    }
  }
}
