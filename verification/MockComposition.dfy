/** The billing protocol run against the mock provider. */
module MockComposition {
  import opened Prelude
  import opened BillingRows
  import opened BillingWorld
  import opened BillingTheorems
  import M = MockProvider

  /** The charges among some calls, in order. */
  function ChargesOf(calls: seq<M.Call>): (r: seq<M.Call>)
    ensures forall i :: 0 <= i < |r| ==> r[i].Charge?
  {
    if calls == [] then []
    else
      var c := calls[|calls| - 1];
      ChargesOf(calls[..|calls| - 1]) + if c.Charge? then [c] else []
  }

  /** The mock was asked for exactly the charges of the log, in that order, whatever else it was asked in between. */
  predicate Carries(calls: seq<M.Call>, charges: seq<ChargeSent>) {
    && |ChargesOf(calls)| == |charges|
    && (forall i :: 0 <= i < |charges| ==>
          ChargesOf(calls)[i].paymentId == charges[i].paymentId && ChargesOf(calls)[i].totalAmount == charges[i].amount)
  }

  /** Every charge names an instrument that was prepared before for its subject. */
  predicate PreparedFirst(p: M.Provider, calls: seq<M.Call>) {
    forall i :: 0 <= i < |calls| && calls[i].Charge? ==>
      var known := M.AfterAll(p, calls[..i]).instruments;
      calls[i].key in known && known[calls[i].key].subjectId == calls[i].subjectId
  }

  ghost predicate Fresh(p: M.Provider, charges: seq<M.Call>)
    requires forall i :: 0 <= i < |charges| ==> charges[i].Charge?
  {
    && (forall i :: 0 <= i < |charges| ==> charges[i].paymentId !in p.payments)
    && (forall i, j :: 0 <= i < j < |charges| ==> charges[i].paymentId != charges[j].paymentId)
  }

  /** The mock knows no payment but those of before and those charged. */
  lemma {:induction false} KnowsOnlyCharged(p: M.Provider, calls: seq<M.Call>, id: nat)
    requires id in M.AfterAll(p, calls).payments && id !in p.payments
    ensures exists i :: 0 <= i < |ChargesOf(calls)| && ChargesOf(calls)[i].paymentId == id
  {
    if calls != [] {
      var shorter := calls[..|calls| - 1];
      if id in M.AfterAll(p, shorter).payments {
        KnowsOnlyCharged(p, shorter, id);
        var i :| 0 <= i < |ChargesOf(shorter)| && ChargesOf(shorter)[i].paymentId == id;
        assert ChargesOf(calls)[i] == ChargesOf(shorter)[i];
      } else {
        assert ChargesOf(calls)[|ChargesOf(shorter)|].paymentId == id;
      }
    }
  }

  ghost predicate AllAccepted(p: M.Provider, calls: seq<M.Call>) {
    && (forall i :: 0 <= i < |calls| && calls[i].Charge? ==> M.Accepts(M.AfterAll(p, calls[..i]), calls[i]))
    && M.AfterAll(p, calls).dispatchCount == p.dispatchCount + |ChargesOf(calls)|
  }

  lemma {:induction false} FreshAccepted(p: M.Provider, calls: seq<M.Call>)
    requires Fresh(p, ChargesOf(calls)) && PreparedFirst(p, calls)
    ensures AllAccepted(p, calls)
  {
    if calls != [] {
      var n := |calls| - 1;
      var shorter, c := calls[..n], calls[n];
      assert forall i :: 0 <= i <= n ==> shorter[..i] == calls[..i];
      assert forall i :: 0 <= i < |ChargesOf(shorter)| ==> ChargesOf(shorter)[i] == ChargesOf(calls)[i];
      FreshAccepted(p, shorter);
      var sent, before := ChargesOf(calls), ChargesOf(shorter);
      if c.Charge? {
        assert sent == before + [c] && sent[|before|] == c;
        assert c.paymentId !in p.payments;
        if c.paymentId in M.AfterAll(p, shorter).payments {
          KnowsOnlyCharged(p, shorter, c.paymentId);
        }
      }
    }
  }

  /** Whatever the run, the mock never has to refuse a charge of the service: among any other calls, with any keys
      and subjects it prepared, it accepts each, and counts exactly one dispatch for each cycle charged. */
  lemma {:induction false} MockNeverRefusesACharge(start: World, acts: seq<Action>, p: M.Provider, calls: seq<M.Call>)
    requires Initial(start) && Carries(calls, Run(start, acts).log.charges) && PreparedFirst(p, calls)
    requires forall e :: 0 <= e < |Run(start, acts).log.charges| ==> Run(start, acts).log.charges[e].paymentId !in p.payments
    ensures AllAccepted(p, calls)
    ensures M.AfterAll(p, calls).dispatchCount == p.dispatchCount + |Run(start, acts).log.charges|
  {
    hide Run, Initial, M.AfterAll, PreparedFirst;
    var charges, sent := Run(start, acts).log.charges, ChargesOf(calls);
    forall d, e | 0 <= d < e < |charges|
      ensures sent[d].paymentId != sent[e].paymentId
    {
      ChargedAtMostOncePerCycle(start, acts, d, e);
    }
    FreshAccepted(p, calls);
  }
}
