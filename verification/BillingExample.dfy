/**
  Whole runs of the billing protocol from a new contract: to its first paid period, so that the theorems about runs are
  not about nothing, and to the two states where a promise fails.
*/
module BillingExample {
  import opened Prelude
  import opened BillingCalendar
  import opened BillingRows
  import opened BillingWorld
  import opened BillingDeletion
  import opened BillingMoney

  function At(now: Time): Readings {
    Readings(now, now, now)
  }

  function NewContract(now: Time): World {
    World(true, now, 0, Rows(Contract(true, 7, None, Idle, None, 0, false, false, false, NotRequested, 0, None), [], [], [], [], [], []), [],
          Log([], [], [], [], map[]))
  }

  function FirstQuote(now: Time): Quote {
    Quote(Monthly, 990, 1, 0, now + 15 * 60_000, None)
  }

  function FirstInstrument(): Instrument {
    Instrument(0, InstrumentVerified, Some(Envelope(0)), None, 0, None, None)
  }

  function Purchase(): ChargeInput {
    ChargeInput(0, 0, ClientKey(0), 0, true)
  }

  function FirstAttempt(now: Time, paymentId: nat): Attempt {
    Attempt(0, 0, 0, paymentId, ClientKey(0), BindingOf(Purchase()), 990, now, Created, None, None, None, 0, 0, None, None, false)
  }

  predicate Ready(w: World, now: Time) {
    && w.mock && w.now == now && w.r.c == NewContract(now).r.c && w.calls == [] && w.log == NewContract(now).log
    && w.r.quotes == [FirstQuote(now)] && w.r.instruments == [FirstInstrument()]
    && w.r.attempts == [] && w.r.periods == [] && w.r.refunds == [] && w.r.receipts == []
  }

  lemma Registers(now: Time)
    ensures Ready(Do(Do(Do(NewContract(now), CreateQuote(Monthly, 0, At(now))), Prepare(0, 0, At(now))), Confirm(0, true, 0, 0, At(now))), now)
  {
    var a := Do(NewContract(now), CreateQuote(Monthly, 0, At(now)));
    assert a.r.quotes == [FirstQuote(now)];
    var b := Do(a, Prepare(0, 0, At(now)));
    assert b.r.instruments == [Instrument(0, Prepared, None, None, 0, None, None)];
  }

  predicate Dispatched(w: World, now: Time, paymentId: nat) {
    && w.mock && w.now == now && w.r.c == NewContract(now).r.c && w.calls == [Finished]
    && |w.log.charges| == 1 && w.log.charges[0].attempt == 0 && w.log.refunds == []
    && w.r.quotes == [FirstQuote(now).(consumedAt := Some(now))]
    && w.r.attempts == [FirstAttempt(now, paymentId).(dispatchAt := Some(now), status := DispatchUnknown, nextLookupAt := Some(now), fence := 1)]
    && w.r.instruments == [FirstInstrument()] && w.r.periods == [] && w.r.refunds == [] && w.r.receipts == []
  }

  lemma Charges(w: World, now: Time)
    requires Ready(w, now)
    ensures var a := Do(Do(w, Charge(Purchase(), 0, At(now))), Dispatch(0, 0, 0, true, At(now)));
      Dispatched(Do(Do(a, SendCharge(0, At(now))), ReturnCharge(0, At(now))), now, w.nextToken)
  {
    var a := Do(w, Charge(Purchase(), 0, At(now)));
    assert a.r.attempts == [FirstAttempt(now, w.nextToken)];
    var b := Do(a, Dispatch(0, 0, 0, true, At(now)));
    assert b.calls == [ChargeCall(0, w.nextToken, 990)];
    var c := Do(b, SendCharge(0, At(now)));
    assert c.calls == [ChargeReturn(0)];
  }

  function PaidEvidence(now: Time, paymentId: nat): LookupResult {
    Evidence(Payment(paymentId, 7, 990, ObservedPaid, Some(now), 0, []))
  }

  function PaidAttempt(now: Time, paymentId: nat): Attempt {
    FirstAttempt(now, paymentId).(dispatchAt := Some(now), status := Paid, fence := 2, lookupCount := 1, paidAt := Some(now))
  }

  /** The rows of a contract whose first period was paid at `now`. */
  function PaidRows(now: Time, paymentId: nat): Rows {
    Rows(Contract(true, 7, Some(Monthly), Active, Some(now), 1, false, false, false, NotRequested, 1, None),
         [FirstQuote(now).(consumedAt := Some(now))], [FirstInstrument()], [PaidAttempt(now, paymentId)],
         [Period(0, 0, now, Boundary(now, 1), Boundary(now, 1), now)], [], [])
  }

  predicate FirstPaid(w: World, now: Time, paymentId: nat) {
    && w.mock && w.now == now && w.r == PaidRows(now, paymentId) && w.calls == [Finished, Finished]
    && |w.log.charges| == 1 && w.log.charges[0].attempt == 0 && w.log.refunds == []
  }

  lemma {:induction false} Settles(w: World, now: Time, paymentId: nat)
    requires Dispatched(w, now, paymentId)
    ensures FirstPaid(Do(Do(Do(w, ClaimLookup(0, false, At(now))), StartLookup(1, At(now))), CommitLookup(1, PaidEvidence(now, paymentId), At(now))),
                      now, paymentId)
  {
    hide Boundary;
    BoundaryAfterAnchor(now, 1);
    var a := Do(w, ClaimLookup(0, false, At(now)));
    assert a.calls == [Finished, LookupClaimed(0, w.nextToken, 2, None)];
    var b := Do(a, StartLookup(1, At(now)));
    assert b.calls == [Finished, LookupSent(0, w.nextToken, 2, now, None)];
  }

  lemma {:induction false} RunJoins(w: World, a: seq<Action>, b: seq<Action>)
    ensures Run(w, a + b) == Run(Run(w, a), b)
    decreases |b|
  {
    hide Do;
    if b == [] {
      assert a + b == a;
    } else {
      RunJoins(w, a, b[..|b| - 1]);
      assert (a + b)[..|a + b| - 1] == a + b[..|b| - 1];
    }
  }

  lemma RunOne(w: World, x: Action)
    ensures Run(w, [x]) == Do(w, x)
  {
    hide Do;
    assert [x][..0] == [];
  }

  lemma RunTwo(w: World, x: Action, y: Action)
    ensures Run(w, [x, y]) == Do(Do(w, x), y)
  {
    hide Do;
    RunOne(w, x);
    assert [x, y][..1] == [x];
  }

  lemma RunThree(w: World, x: Action, y: Action, z: Action)
    ensures Run(w, [x, y, z]) == Do(Do(Do(w, x), y), z)
  {
    hide Do;
    RunTwo(w, x, y);
    assert [x, y, z][..2] == [x, y];
  }

  /** Only commits of lookups and of refunds can be dishonest. */
  lemma Harmless(w: World, act: Action)
    requires !act.CommitLookup? && !act.SettleRefund?
    ensures HonestAction(w, act)
  {
  }

  lemma {:induction false} HarmlessRun(w: World, acts: seq<Action>)
    requires forall i :: 0 <= i < |acts| ==> !acts[i].CommitLookup? && !acts[i].SettleRefund?
    ensures HonestRun(w, acts)
    decreases |acts|
  {
    hide Run, HonestAction;
    if acts != [] {
      HarmlessRun(w, acts[..|acts| - 1]);
      Harmless(Run(w, acts[..|acts| - 1]), acts[|acts| - 1]);
    }
  }

  lemma {:induction false} HonestJoins(w: World, a: seq<Action>, b: seq<Action>)
    requires HonestRun(w, a) && HonestRun(Run(w, a), b)
    ensures HonestRun(w, a + b)
    decreases |b|
  {
    hide Run, HonestAction;
    if b == [] {
      assert a + b == a;
    } else {
      var shorter := b[..|b| - 1];
      HonestJoins(w, a, shorter);
      RunJoins(w, a, shorter);
      assert (a + b)[..|a + b| - 1] == a + shorter;
    }
  }

  /** A harmless stretch followed by one honest action. */
  lemma HonestEnd(w: World, acts: seq<Action>, act: Action)
    requires forall i :: 0 <= i < |acts| ==> !acts[i].CommitLookup? && !acts[i].SettleRefund?
    requires HonestAction(Run(w, acts), act)
    ensures HonestRun(w, acts + [act])
  {
    hide Run, HonestAction;
    HarmlessRun(w, acts);
    assert (acts + [act])[..|acts|] == acts;
  }

  function FirstActions(now: Time, paymentId: nat): seq<Action> {
    [CreateQuote(Monthly, 0, At(now)), Prepare(0, 0, At(now)), Confirm(0, true, 0, 0, At(now))]
    + [Charge(Purchase(), 0, At(now)), Dispatch(0, 0, 0, true, At(now))]
    + [SendCharge(0, At(now)), ReturnCharge(0, At(now))]
    + [ClaimLookup(0, false, At(now)), StartLookup(1, At(now)), CommitLookup(1, PaidEvidence(now, paymentId), At(now))]
  }

  /** The committed lookup is about a payment whose charge was sent. */
  lemma SettlesHonestly(w: World, now: Time, paymentId: nat)
    requires Dispatched(w, now, paymentId)
    ensures HonestAction(Do(Do(w, ClaimLookup(0, false, At(now))), StartLookup(1, At(now))), CommitLookup(1, PaidEvidence(now, paymentId), At(now)))
  {
    var a := Do(w, ClaimLookup(0, false, At(now)));
    assert a.calls == [Finished, LookupClaimed(0, w.nextToken, 2, None)];
    var b := Do(a, StartLookup(1, At(now)));
    assert b.calls == [Finished, LookupSent(0, w.nextToken, 2, now, None)];
    assert WasCharged(b.log, 0);
  }

  ghost predicate PaysFirst(now: Time, paymentId: nat) {
    && FirstPaid(Run(NewContract(now), FirstActions(now, paymentId)), now, paymentId)
    && HonestRun(NewContract(now), FirstActions(now, paymentId))
  }

  lemma FirstPays(now: Time)
    ensures exists paymentId :: PaysFirst(now, paymentId)
  {
    hide Run, Do, Boundary, FirstPaid, HonestAction, HonestRun;
    var start := NewContract(now);
    var k := At(now);
    Registers(now);
    RunThree(start, CreateQuote(Monthly, 0, k), Prepare(0, 0, k), Confirm(0, true, 0, 0, k));
    var first := [CreateQuote(Monthly, 0, k), Prepare(0, 0, k), Confirm(0, true, 0, 0, k)];
    var w := Run(start, first);
    Charges(w, now);
    var second := [Charge(Purchase(), 0, k), Dispatch(0, 0, 0, true, k)];
    var third := [SendCharge(0, k), ReturnCharge(0, k)];
    RunTwo(w, Charge(Purchase(), 0, k), Dispatch(0, 0, 0, true, k));
    RunTwo(Run(w, second), SendCharge(0, k), ReturnCharge(0, k));
    var paymentId := w.nextToken;
    var u := Run(Run(w, second), third);
    Settles(u, now, paymentId);
    RunThree(u, ClaimLookup(0, false, k), StartLookup(1, k), CommitLookup(1, PaidEvidence(now, paymentId), k));
    var fourth := [ClaimLookup(0, false, k), StartLookup(1, k), CommitLookup(1, PaidEvidence(now, paymentId), k)];
    RunJoins(start, first, second);
    RunJoins(start, first + second, third);
    RunJoins(start, first + second + third, fourth);
    assert FirstActions(now, paymentId) == first + second + third + fourth;
    HarmlessRun(start, first + second + third);
    RunTwo(u, ClaimLookup(0, false, k), StartLookup(1, k));
    SettlesHonestly(u, now, paymentId);
    HonestEnd(u, [ClaimLookup(0, false, k), StartLookup(1, k)], CommitLookup(1, PaidEvidence(now, paymentId), k));
    assert fourth == [ClaimLookup(0, false, k), StartLookup(1, k)] + [CommitLookup(1, PaidEvidence(now, paymentId), k)];
    assert Run(start, first + second + third) == u;
    HonestJoins(start, first + second + third, fourth);
    assert PaysFirst(now, paymentId);
  }

  lemma StartIsInitial(now: Time)
    ensures Initial(NewContract(now))
  {
  }

  lemma PaidFacts(w: World, now: Time, paymentId: nat)
    requires FirstPaid(w, now, paymentId)
    ensures |w.r.periods| == 1 && w.r.c.nextCycle == 1 && |w.log.charges| == 1
    ensures w.r.periods[0].startsAt == now && w.r.periods[0].endsAt == Boundary(now, 1)
  {
    hide Boundary;
  }

  /** A first charge can be reserved, dispatched, sent once and settled into the first paid period. */
  lemma FirstPeriodIsReachable(now: Time)
    ensures exists start, acts ::
      && Initial(start) && |Run(start, acts).r.periods| == 1 && Run(start, acts).r.c.nextCycle == 1
      && |Run(start, acts).log.charges| == 1
      && Run(start, acts).r.periods[0].startsAt == now && Run(start, acts).r.periods[0].endsAt == Boundary(now, 1)
  {
    hide Run, Do, Boundary, FirstPaid, HonestRun;
    FirstPays(now);
    var paymentId :| PaysFirst(now, paymentId);
    PaidFacts(Run(NewContract(now), FirstActions(now, paymentId)), now, paymentId);
    StartIsInitial(now);
  }

  // ----- A refund in flight -----

  function ClaimedRefund(now: Time, token: nat): Refund {
    Refund(0, 0, 0, 990, RefundDispatchUnknown, None, Some(token), Some(now + LEASE_MS), 1, 1, None, None, None, None)
  }

  function RefundRows(now: Time, paymentId: nat, token: nat): Rows {
    PaidRows(now, paymentId).(refunds := [ClaimedRefund(now, token)])
  }

  /** The first charge's refund was claimed; what became of the claiming call is `call`. */
  predicate RefundClaimed(w: World, now: Time, paymentId: nat, token: nat, call: Call, sent: seq<RefundSent>) {
    && w.mock && w.now == now && w.r == RefundRows(now, paymentId, token) && w.calls == [Finished, Finished, call]
    && |w.log.charges| == 1 && w.log.charges[0].attempt == 0 && w.log.refunds == sent
  }

  function PendingRefund(paymentId: nat, token: nat): Call {
    RefundCall(0, token, RefundClaim(true, 1, 1), 990, paymentId, None)
  }

  function PendingRefundLookup(paymentId: nat, token: nat): Call {
    RefundLookup(0, token, RefundClaim(true, 1, 1), 990, paymentId, None, false)
  }

  lemma ClaimsRefund(w: World, now: Time, paymentId: nat)
    requires FirstPaid(w, now, paymentId)
    ensures var v := Do(Do(w, RequestRefund(0, 0, 0, At(now))), ClaimRefund(0, At(now)));
      RefundClaimed(v, now, paymentId, w.nextToken + 1, PendingRefund(paymentId, w.nextToken + 1), [])
  {
    hide Boundary;
    var a := Do(w, RequestRefund(0, 0, 0, At(now)));
    assert a.r.refunds == [Refund(0, 0, 0, 990, Requested, None, None, None, 0, 0, None, None, None, None)];
  }

  lemma SendsRefund(w: World, now: Time, paymentId: nat, token: nat)
    requires RefundClaimed(w, now, paymentId, token, PendingRefund(paymentId, token), [])
    ensures RefundClaimed(Do(w, SendRefund(2, At(now))), now, paymentId, token, PendingRefundLookup(paymentId, token), [RefundSent(0, 0, 990)])
  {
    hide Boundary;
  }

  /** Evidence that the whole payment was cancelled, for refund record 0. */
  function CancelledEvidence(now: Time, paymentId: nat): LookupResult {
    Evidence(Payment(paymentId, 7, 990, ObservedPaid, Some(now), 990, [Cancellation(5, 990, Some(0))]))
  }

  /** The lookup matched the cancellation with the record, which keeps its lease. */
  predicate RefundObserved(w: World, now: Time, token: nat, call: Call, sent: seq<RefundSent>) {
    && w.mock && w.now == now && w.calls == [Finished, Finished, call, Finished] && w.log.refunds == sent
    && w.r.c == Contract(true, 7, Some(Monthly), Active, Some(now), 1, true, true, false, Pending, 2, None)
    && w.r.instruments == [FirstInstrument()] && w.r.receipts == []
    && w.r.refunds == [VerifyRefund(ClaimedRefund(now, token), 5, 990, now)]
    && |w.r.attempts| == 1 && w.r.attempts[0].status == Refunded && !w.r.attempts[0].reviewRequired
  }

  lemma {:induction false} ObservesRefund(w: World, now: Time, paymentId: nat, token: nat, call: Call, sent: seq<RefundSent>)
    requires RefundClaimed(w, now, paymentId, token, call, sent)
    ensures var v := Do(Do(Do(w, ClaimLookup(0, true, At(now))), StartLookup(3, At(now))), CommitLookup(3, CancelledEvidence(now, paymentId), At(now)));
      RefundObserved(v, now, token, call, sent)
  {
    hide Boundary;
    var a := Do(w, ClaimLookup(0, true, At(now)));
    assert a.calls == [Finished, Finished, call, LookupClaimed(0, w.nextToken, 3, None)];
    var b := Do(a, StartLookup(3, At(now)));
    assert b.calls == [Finished, Finished, call, LookupSent(0, w.nextToken, 3, now, None)];
    AppliesCancellation(now, token);
  }

  lemma AppliesCancellation(now: Time, token: nat)
    ensures ApplyCancellations([ClaimedRefund(now, token)], 0, true, [Cancellation(5, 990, Some(0))], now)
         == Applied([VerifyRefund(ClaimedRefund(now, token), 5, 990, now)], false)
  {
    var xs := [Cancellation(5, 990, Some(0))];
    assert xs[1..] == [];
    assert FindRefund([ClaimedRefund(now, token)], 0, xs[0]) == Some(0);
  }

  /** With an honest provider and one lookup that finds nothing, a verified record is unknown again. */
  lemma Reopened(w: World, now: Time, paymentId: nat, token: nat, sent: seq<RefundSent>)
    requires RefundObserved(w, now, token, PendingRefundLookup(paymentId, token), sent)
    ensures w.r.refunds[0].status == RefundVerified
    ensures Do(w, SettleRefund(2, None, false, At(now))).r.refunds[0].status == RefundDispatchUnknown
  {
  }

  lemma ObservesHonestly(w: World, now: Time, paymentId: nat, token: nat, call: Call)
    requires RefundClaimed(w, now, paymentId, token, call, [RefundSent(0, 0, 990)])
    ensures HonestAction(Do(Do(w, ClaimLookup(0, true, At(now))), StartLookup(3, At(now))), CommitLookup(3, CancelledEvidence(now, paymentId), At(now)))
  {
    hide Boundary;
    var a := Do(w, ClaimLookup(0, true, At(now)));
    assert a.calls == [Finished, Finished, call, LookupClaimed(0, w.nextToken, 3, None)];
    var b := Do(a, StartLookup(3, At(now)));
    assert b.calls == [Finished, Finished, call, LookupSent(0, w.nextToken, 3, now, None)];
    assert WasCharged(b.log, 0);
    assert b.log.refunds[0] == RefundSent(0, 0, 990);
    assert WasSent(b.log, 0);
  }

  lemma FindsNothingHonestly(w: World, n: nat, k: Readings)
    ensures HonestAction(w, SettleRefund(n, None, false, k))
  {
  }

  ghost predicate ReopensAtTheEnd(start: World, acts: seq<Action>, act: Action) {
    && Initial(start) && HonestRun(start, acts + [act])
    && VerifiedAt(Run(start, acts).r.refunds, 0) && !VerifiedAt(Run(start, acts + [act]).r.refunds, 0)
  }

  lemma ReopensFacts(w: World, now: Time, paymentId: nat, token: nat, sent: seq<RefundSent>)
    requires RefundObserved(w, now, token, PendingRefundLookup(paymentId, token), sent)
    ensures VerifiedAt(w.r.refunds, 0) && !VerifiedAt(Do(w, SettleRefund(2, None, false, At(now))).r.refunds, 0)
  {
    hide Do;
    Reopened(w, now, paymentId, token, sent);
  }

  /** With a provider that is honest throughout, a new contract reaches a verified refund that the next step, one lookup
      coming back with nothing, reopens. */
  lemma VerifiedRefundIsReopened(now: Time)
    ensures exists acts, act :: ReopensAtTheEnd(NewContract(now), acts, act)
  {
    hide Run, Do, Boundary, FirstPaid, RefundClaimed, RefundObserved, HonestRun, HonestAction, VerifiedAt;
    FirstPays(now);
    var p :| PaysFirst(now, p);
    var start, k, a := NewContract(now), At(now), FirstActions(now, p);
    var b := [RequestRefund(0, 0, 0, k), ClaimRefund(0, k), SendRefund(2, k)];
    var c := [ClaimLookup(0, true, k), StartLookup(3, k), CommitLookup(3, CancelledEvidence(now, p), k)];
    var d := [SettleRefund(2, None, false, k)];
    StartIsInitial(now);
    var w := Run(start, a);
    var token, sent := w.nextToken + 1, [RefundSent(0, 0, 990)];
    ClaimsRefund(w, now, p);
    SendsRefund(Do(Do(w, b[0]), b[1]), now, p, token);
    RunThree(w, b[0], b[1], b[2]);
    HarmlessRun(w, b);
    var u := Run(w, b);
    ObservesRefund(u, now, p, token, PendingRefundLookup(p, token), sent);
    ObservesHonestly(u, now, p, token, PendingRefundLookup(p, token));
    RunThree(u, c[0], c[1], c[2]);
    RunTwo(u, c[0], c[1]);
    HonestEnd(u, [c[0], c[1]], c[2]);
    assert [c[0], c[1]] + [c[2]] == c;
    var v := Run(u, c);
    ReopensFacts(v, now, p, token, sent);
    RunOne(v, d[0]);
    FindsNothingHonestly(v, 2, k);
    assert Run(v, []) == v by {
      RunNothing(v);
    }
    HonestEnd(v, [], d[0]);
    assert [] + [d[0]] == d;
    RunJoins(start, a, b);
    RunJoins(start, a + b, c);
    RunJoins(start, a + b + c, d);
    HonestJoins(start, a, b);
    HonestJoins(start, a + b, c);
    HonestJoins(start, a + b + c, d);
    assert ReopensAtTheEnd(start, a + b + c, d[0]);
  }

  lemma RunNothing(w: World)
    ensures Run(w, []) == w
  {
  }

  // ----- A refund behind the deletion gate -----

  ghost predicate PassesTheGate(w: World, v: World, n: nat, k: Readings) {
    && w.r.c.hasUser && DeletionGate(w.r) && v == Do(w, DeleteAccount(false, k)) && !v.r.c.hasUser
    && n < |v.calls| && v.calls[n].RefundCall? && |Do(v, SendRefund(n, k)).log.refunds| == |v.log.refunds| + 1
  }

  /** The cancellation was verified, and the refund's claiming call is still in flight. */
  predicate ReadyToDelete(u: World, now: Time, paymentId: nat, token: nat) {
    && u.mock && u.now == now && u.log.refunds == [] && u.r.receipts == []
    && u.calls == [Finished, Finished, PendingRefund(paymentId, token), Finished, Finished]
    && u.r.c == Contract(true, 7, Some(Monthly), CancelAtPeriodEnd, Some(now), 1, true, true, false, Verified, 3, Some(3))
    && u.r.instruments == [FirstInstrument().(status := Revoked, revokedAt := Some(now), envelope := None)]
    && u.r.refunds == [VerifyRefund(ClaimedRefund(now, token), 5, 990, now)]
    && |u.r.attempts| == 1 && u.r.attempts[0].status == Refunded && !u.r.attempts[0].reviewRequired
  }

  lemma {:induction false} CancelsWithRefundPending(w: World, now: Time, paymentId: nat, token: nat)
    requires RefundObserved(w, now, token, PendingRefund(paymentId, token), [])
    ensures ReadyToDelete(Do(Do(w, Cancel(At(now))), VerifyCancel(4, At(now))), now, paymentId, token)
  {
    var k := At(now);
    var a := Do(w, Cancel(k));
    assert a.calls == [Finished, Finished, PendingRefund(paymentId, token), Finished, CancelCall(3)];
    var u := Do(a, VerifyCancel(4, k));
    assert u.calls == [Finished, Finished, PendingRefund(paymentId, token), Finished, Finished];
    assert u.r.instruments == [FirstInstrument().(status := Revoked, revokedAt := Some(now), envelope := None)];
  }

  lemma ReadyPassesTheGate(u: World, now: Time, paymentId: nat, token: nat)
    requires ReadyToDelete(u, now, paymentId, token)
    ensures DeletionGate(u.r)
  {
  }

  lemma DeletesAt(u: World, now: Time)
    requires u.now == now && u.r.c.hasUser && DeletionGate(u.r)
    ensures Do(u, DeleteAccount(false, At(now))) == u.(r := u.r.(c := u.r.c.(hasUser := false)), nextToken := u.nextToken + 1)
  {
    hide DeletionGate;
  }

  lemma {:induction false} DeletesWithRefundPending(u: World, now: Time, paymentId: nat, token: nat)
    requires ReadyToDelete(u, now, paymentId, token)
    ensures PassesTheGate(u, Do(u, DeleteAccount(false, At(now))), 2, At(now))
  {
    ReadyPassesTheGate(u, now, paymentId, token);
    DeletesAt(u, now);
    var v := u.(r := u.r.(c := u.r.c.(hasUser := false)), nextToken := u.nextToken + 1);
    assert Do(v, SendRefund(2, At(now))) == DoSendRefund(v, 2, At(now));
    hide Do, DeletionGate;
  }

  /** With a provider that reports a refund it was never sent, a new contract reaches a state in which the account
      passes the deletion gate while a refund call is in flight, and the next step sends that refund. */
  lemma DeletionMissesARefund(now: Time)
    ensures exists acts, v, n :: Initial(NewContract(now)) && PassesTheGate(Run(NewContract(now), acts), v, n, At(now))
  {
    hide Run, Do, Boundary, FirstPaid, RefundClaimed, RefundObserved, ReadyToDelete, PassesTheGate, HonestRun;
    FirstPays(now);
    var p :| PaysFirst(now, p);
    var start, k, a := NewContract(now), At(now), FirstActions(now, p);
    var b := [RequestRefund(0, 0, 0, k), ClaimRefund(0, k)];
    var c := [ClaimLookup(0, true, k), StartLookup(3, k), CommitLookup(3, CancelledEvidence(now, p), k)];
    var d := [Cancel(k), VerifyCancel(4, k)];
    StartIsInitial(now);
    var w := Run(start, a);
    var token := w.nextToken + 1;
    ClaimsRefund(w, now, p);
    RunTwo(w, b[0], b[1]);
    var u := Run(w, b);
    ObservesRefund(u, now, p, token, PendingRefund(p, token), []);
    RunThree(u, c[0], c[1], c[2]);
    var x := Run(u, c);
    CancelsWithRefundPending(x, now, p, token);
    RunTwo(x, d[0], d[1]);
    DeletesWithRefundPending(Run(x, d), now, p, token);
    RunJoins(start, a, b);
    RunJoins(start, a + b, c);
    RunJoins(start, a + b + c, d);
    assert PassesTheGate(Run(start, a + b + c + d), Do(Run(start, a + b + c + d), DeleteAccount(false, k)), 2, k);
  }
}
