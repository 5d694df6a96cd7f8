/** The donation lifecycle. A donor picks an amount (`donate_ngo`), the
    platform records a payment and hands the donor to the payment gateway
    (`create_checkout_session`), and the gateway sends the donor back to a
    success or cancel address, where the payment is settled
    (`finalize_payment`). The gateway is an input: the session it creates
    or retrieves, or an error. */
module Donations {
  import opened Common
  import opened Forms
  import opened Database
  import opened Payments
  import opened SuccessfulPayments
  import opened FailedPayments
  import opened VerifiedNgos

  /** `session['donation_data']`: what the donor chose, kept in the
      browser session between the two routes. */
  datatype DonationIntent = DonationIntent(
    amountCents: nat,
    donorName: Option<string>,
    donorEmail: string,
    ngoId: nat,
    ngoName: string)

  /** The browser session of one donor. */
  class ClientSession {
    var donationData: Option<DonationIntent>

    constructor ()
      ensures donationData.None?
    {
      donationData := None;
    }
  }

  datatype DonateOutcome = NgoNotFound | ShowDonationForm | Proceed(intent: DonationIntent)

  /** `donate_ngo(ngo_id)`: `submission` is `None` on a GET. */
  function Donate(verified: map<nat, VerifiedNgo>, ngoId: nat, submission: Option<DonationSubmission>): (r: DonateOutcome)
    ensures r == NgoNotFound <==> ngoId !in verified || !verified[ngoId].isActive
    ensures r.Proceed? <==>
              ngoId in verified && verified[ngoId].isActive && submission.Some? && DonationFormValid(submission.value)
    ensures r.Proceed? ==>
              var form := submission.value;
              var amount := form.amount.value;
              && r.intent.ngoId == ngoId
              && r.intent.ngoName == verified[ngoId].name
              && r.intent.donorEmail == form.donorEmail.value
              && r.intent.donorName == form.donorName
              && r.intent.amountCents == AmountCents(amount)
              && r.intent.amountCents >= 100
              && (Digits(amount.units * 100) <= Precision ==>
                    r.intent.amountCents * Pow10(amount.scale) <= amount.units * 100 < (r.intent.amountCents + 1) * Pow10(amount.scale))
  {
    if ngoId !in verified || !verified[ngoId].isActive then NgoNotFound
    else if submission.None? || !DonationFormValid(submission.value) then ShowDonationForm
    else
      var form := submission.value;
      AmountCentsTruncates(form.amount.value);
      Proceed(DonationIntent(AmountCents(form.amount.value), form.donorName, form.donorEmail.value, ngoId,
                             verified[ngoId].name))
  }

  /** `donate_ngo` on the donor's session: a valid form stores the intent. */
  method DonateNgo(cs: ClientSession, db: Db, ngoId: nat, submission: Option<DonationSubmission>) returns (r: DonateOutcome)
    modifies cs
    ensures r == Donate(db.verified, ngoId, submission)
    ensures cs.donationData == if r.Proceed? then Some(r.intent) else old(cs.donationData)
  {
    r := Donate(db.verified, ngoId, submission);
    if r.Proceed? {
      cs.donationData := Some(r.intent);
    }
  }

  /** What `stripe.checkout.Session.create` gives back. */
  datatype Gateway = Created(sessionId: string, url: string) | GatewayError

  datatype CheckoutOutcome =
    | SessionExpired                  // no donation data: home page
    | ToGateway(paymentId: nat, url: string)
    | GatewayFailed(ngoId: nat)       // back to the donation page
    | InternalError                   // home page

  /** The row flushed before the gateway is called. */
  function Initiated(data: DonationIntent, now: nat): (p: Payment)
    ensures p.status == PendingInitiation && p.status.Name() == "PENDING_INITIATION"
    ensures p.kind == BasePayment && p.sessionId.None? && p.currency == "USD"
    ensures p.amountCents == data.amountCents && p.ngoId == data.ngoId
    ensures p.donorName == data.donorName && p.donorEmail == data.donorEmail
  {
    NewPayment(data.ngoId, data.donorName, data.donorEmail, data.amountCents, Some(PendingInitiation), BasePayment, now)
  }

  /** `create_checkout_session`, on the tables. `commitFails` stands for a
      commit that raises for a reason other than the session id's UNIQUE
      constraint. */
  function Checkout(t: Tables, data: Option<DonationIntent>, gateway: Gateway, now: nat, commitFails: bool): (s: Step<CheckoutOutcome>)
    ensures data.None? ==> s == Step(t, SessionExpired)
    ensures data.Some? && gateway.GatewayError? ==> s == Step(t, GatewayFailed(data.value.ngoId))
    ensures s.outcome.ToGateway? <==>
              && data.Some? && gateway.Created? && !commitFails
              && forall k :: k in t.payments ==> t.payments[k].sessionId != Some(gateway.sessionId)
    ensures !s.outcome.ToGateway? ==> s.tables == t
    ensures s.outcome.ToGateway? ==>
              && s.outcome.url == gateway.url
              && s.outcome.paymentId !in t.payments
              && s.tables == t.(payments := t.payments[s.outcome.paymentId :=
                   Initiated(data.value, now).(sessionId := Some(gateway.sessionId), status := Pending)])
  {
    if data.None? then Step(t, SessionExpired)
    else
      var id := NextRowId(t.payments.Keys);
      var flushed := Initiated(data.value, now);
      match gateway
      case GatewayError => Step(t, GatewayFailed(data.value.ngoId))
      case Created(sid, url) =>
        if commitFails || exists k | k in t.payments :: t.payments[k].sessionId == Some(sid) then Step(t, InternalError)
        else
          var p := flushed.(sessionId := Some(sid), status := Pending);
          Step(t.(payments := t.payments[id := p]), ToGateway(id, url))
  }

  /** A new payment keeps the store's constraints: its session id is fresh,
      and a PENDING payment has no settlement record. */
  lemma CheckoutKeepsValid(t: Tables, data: Option<DonationIntent>, gateway: Gateway, now: nat, commitFails: bool)
    requires Valid(t)
    ensures Valid(Checkout(t, data, gateway, now, commitFails).tables)
  {
    var s := Checkout(t, data, gateway, now, commitFails);
    if s.outcome.ToGateway? {
      var id := s.outcome.paymentId;
      AddPaymentKeepsValid(t, id, s.tables.payments[id]);
    }
  }

  /** Adding an unsettled payment under a fresh id and a fresh session id
      keeps the store's constraints. */
  lemma AddPaymentKeepsValid(t: Tables, id: nat, p: Payment)
    requires Valid(t) && id !in t.payments
    requires p.status != Success && p.status != Failed
    requires forall k :: k in t.payments ==> t.payments[k].sessionId != p.sessionId
    ensures Valid(t.(payments := t.payments[id := p]))
  {
    var u := t.(payments := t.payments[id := p]);
    assert id !in t.successes && id !in t.failures;
    assert SettlementConsistent(u);
  }

  /** `create_checkout_session` on the database and the donor's session: the
      donation data is cleared only when the donor is sent to the gateway. */
  method CreateCheckoutSession(cs: ClientSession, db: Db, gateway: Gateway, now: nat, commitFails: bool)
    returns (r: CheckoutOutcome)
    modifies cs, db
    ensures Step(db.Snapshot(), r) == Checkout(old(db.Snapshot()), old(cs.donationData), gateway, now, commitFails)
    ensures cs.donationData == if r.ToGateway? then None else old(cs.donationData)
  {
    var data := cs.donationData;
    if data.None? {
      return SessionExpired;
    }
    var id := NextRowId(db.payments.Keys);
    var payment := Initiated(data.value, now);
    if gateway.GatewayError? {
      return GatewayFailed(data.value.ngoId);
    }
    payment := payment.(sessionId := Some(gateway.sessionId));
    payment := payment.(status := Pending);
    if commitFails || exists k | k in db.payments :: db.payments[k].sessionId == Some(gateway.sessionId) {
      return InternalError;
    }
    db.payments := db.payments[id := payment];
    cs.donationData := None;
    r := ToGateway(id, gateway.url);
  }

  /** What `stripe.checkout.Session.retrieve` gives back: the payment intent
      id and the session's address, or an error. */
  datatype Retrieval = Retrieved(paymentIntent: Option<string>, url: Option<string>) | RetrievalError

  /** The outcome of `finalize_payment`: the tables after it, the id of the
      payment it returned, and whether it issued a rollback. */
  datatype Reconciliation = Reconciliation(tables: Tables, returned: Option<nat>, rollbackIssued: bool)

  const FailureMessage: string := "Payment canceled or rejected by gateway."

  /** The writes a success stages for payment `k`: the success record, the
      new status and discriminator, and the organisation's total. `None` is
      the integrity error the flush raises (no charge id, a charge id
      already recorded, or a record already present). */
  function SettleSuccess(t: Tables, k: nat, chargeId: Option<string>, receiptUrl: Option<string>): (u: Option<Tables>)
    requires k in t.payments
    ensures u.Some? <==>
              && chargeId.Some? && k !in t.successes
              && forall j :: j in t.successes ==> t.successes[j].chargeId != chargeId.value
    ensures u.Some? ==>
              && u.value.payments == t.payments[k := t.payments[k].(status := Success, kind := SuccessRecord)]
              && u.value.successes == t.successes[k := SuccessfulPayment(chargeId.value, receiptUrl)]
              && u.value.verified == Credit(t.verified, t.payments[k].ngoId, t.payments[k].amountCents)
              && u.value.pending == t.pending && u.value.rejected == t.rejected && u.value.failures == t.failures
  {
    match SuccessfulPayments.Insert(t.successes, k, chargeId, receiptUrl)
    case None => None
    case Some(successes) =>
      var p := t.payments[k];
      Some(t.(payments := t.payments[k := p.(status := Success, kind := SuccessRecord)],
              successes := successes,
              verified := Credit(t.verified, p.ngoId, p.amountCents)))
  }

  /** The writes a failure stages for payment `k`. `None` is the integrity
      error of a second failure record for the same payment. */
  function SettleFailure(t: Tables, k: nat, errorCode: Option<string>): (u: Option<Tables>)
    requires k in t.payments
    ensures u.Some? <==> k !in t.failures
    ensures u.Some? ==>
              && u.value.payments == t.payments[k := t.payments[k].(status := Failed, kind := FailureRecord)]
              && u.value.failures == t.failures[k := FailedPayment(Some(FailureMessage), errorCode)]
              && u.value.verified == t.verified && u.value.successes == t.successes
              && u.value.pending == t.pending && u.value.rejected == t.rejected
  {
    match FailedPayments.Insert(t.failures, k, FailedPayment(Some(FailureMessage), errorCode))
    case None => None
    case Some(failures) =>
      Some(t.(payments := t.payments[k := t.payments[k].(status := Failed, kind := FailureRecord)],
              failures := failures))
  }

  /** The payment a session id names, when the gateway answered and the
      payment is not settled yet. */
  predicate Settleable(t: Tables, sid: string, retrieval: Retrieval) {
    && retrieval.Retrieved?
    && SessionLookup(t.payments, sid).Some?
    && !t.payments[SessionLookup(t.payments, sid).value].status.IsTerminal()
  }

  /** The writes the branch for `isSuccess` stages for payment `k`. */
  function Staged(t: Tables, k: nat, isSuccess: bool, retrieval: Retrieval): Option<Tables>
    requires k in t.payments && retrieval.Retrieved?
  {
    if isSuccess then SettleSuccess(t, k, retrieval.paymentIntent, retrieval.url)
    else SettleFailure(t, k, retrieval.paymentIntent)
  }

  /** Whether `finalize_payment` reaches a successful commit: the payment
      is settleable, the flush meets the constraints and the commit goes
      through. */
  predicate Commits(t: Tables, sid: string, isSuccess: bool, retrieval: Retrieval, commitFails: bool) {
    && Settleable(t, sid, retrieval)
    && !commitFails
    && Staged(t, SessionLookup(t.payments, sid).value, isSuccess, retrieval).Some?
  }

  /** `finalize_payment(session_id, is_success)`. `commitFails` stands for a
      commit raising for a reason other than the constraints; `notifyFails`
      for the receipt e-mail raising after the commit. An exception rolls
      back only when the payment's in-memory status is not SUCCESS, which
      means only in the failure branch; a success's writes are then simply
      never committed. */
  function Finalize(t: Tables, sid: string, isSuccess: bool, retrieval: Retrieval,
                    commitFails: bool, notifyFails: bool): (r: Reconciliation)
    ensures !Settleable(t, sid, retrieval) ==>
              r == Reconciliation(t, if retrieval.Retrieved? then SessionLookup(t.payments, sid) else None, false)
    ensures !Commits(t, sid, isSuccess, retrieval, commitFails) ==> r.tables == t
    ensures Commits(t, sid, isSuccess, retrieval, commitFails) ==>
              r.tables == Staged(t, SessionLookup(t.payments, sid).value, isSuccess, retrieval).value
    ensures Settleable(t, sid, retrieval) ==>
              (r.returned.Some? <==> Commits(t, sid, isSuccess, retrieval, commitFails) && !notifyFails)
    ensures r.returned.Some? ==> r.returned == SessionLookup(t.payments, sid)
    ensures r.rollbackIssued <==> !isSuccess && Settleable(t, sid, retrieval) && r.returned.None?
  {
    if retrieval.RetrievalError? || SessionLookup(t.payments, sid).None? then Reconciliation(t, None, false)
    else
      var k := SessionLookup(t.payments, sid).value;
      if t.payments[k].status.IsTerminal() then Reconciliation(t, Some(k), false)
      else
        var staged := Staged(t, k, isSuccess, retrieval);
        if staged.None? || commitFails then Reconciliation(t, None, !isSuccess)
        else if notifyFails then Reconciliation(staged.value, None, !isSuccess)
        else Reconciliation(staged.value, Some(k), false)
  }

  /** A committed success: the payment becomes SUCCESS with discriminator
      'success', exactly one success record is added for it, and its
      organisation's total grows by exactly the payment's amount. */
  lemma SuccessSettles(t: Tables, sid: string, retrieval: Retrieval, commitFails: bool, notifyFails: bool)
    requires Commits(t, sid, true, retrieval, commitFails)
    ensures var r := Finalize(t, sid, true, retrieval, commitFails, notifyFails);
            var k := SessionLookup(t.payments, sid).value;
            var p := t.payments[k];
            && r.tables.payments.Keys == t.payments.Keys
            && r.tables.payments[k] == p.(status := Success, kind := SuccessRecord)
            && (forall j :: j in t.payments && j != k ==> r.tables.payments[j] == t.payments[j])
            && r.tables.successes.Keys == t.successes.Keys + {k} && k !in t.successes
            && r.tables.successes[k].chargeId == retrieval.paymentIntent.value
            && r.tables.failures == t.failures
            && r.tables.verified.Keys == t.verified.Keys
            && (p.ngoId in t.verified ==>
                  r.tables.verified[p.ngoId].totalCents == t.verified[p.ngoId].totalCents + p.amountCents)
            && (forall n :: n in t.verified && n != p.ngoId ==> r.tables.verified[n] == t.verified[n])
  {
    var k := SessionLookup(t.payments, sid).value;
    assert Staged(t, k, true, retrieval) == SettleSuccess(t, k, retrieval.paymentIntent, retrieval.url);
  }

  /** A committed failure: the payment becomes FAILED with discriminator
      'failure', with one failure record holding the fixed message and the
      payment intent as code; no total changes. */
  lemma FailureSettles(t: Tables, sid: string, retrieval: Retrieval, commitFails: bool, notifyFails: bool)
    requires Commits(t, sid, false, retrieval, commitFails)
    ensures var r := Finalize(t, sid, false, retrieval, commitFails, notifyFails);
            var k := SessionLookup(t.payments, sid).value;
            var p := t.payments[k];
            && r.tables.payments.Keys == t.payments.Keys
            && r.tables.payments[k] == p.(status := Failed, kind := FailureRecord)
            && (forall j :: j in t.payments && j != k ==> r.tables.payments[j] == t.payments[j])
            && r.tables.failures.Keys == t.failures.Keys + {k}
            && r.tables.failures[k] == FailedPayment(Some(FailureMessage), retrieval.paymentIntent)
            && r.tables.successes == t.successes
            && r.tables.verified == t.verified
  {
    var k := SessionLookup(t.payments, sid).value;
    assert Staged(t, k, false, retrieval) == SettleFailure(t, k, retrieval.paymentIntent);
  }

  /** Marking a non-terminal payment settled, together with its one new
      record, keeps the records consistent with the statuses. */
  lemma MarkedSuccessConsistent(t: Tables, u: Tables, k: nat, record: SuccessfulPayment)
    requires SettlementConsistent(t) && k in t.payments && !t.payments[k].status.IsTerminal()
    requires u.payments == t.payments[k := t.payments[k].(status := Success, kind := SuccessRecord)]
    requires u.successes == t.successes[k := record] && u.failures == t.failures
    ensures SettlementConsistent(u)
  {
    forall j | j in u.failures
      ensures j in u.payments && u.payments[j].status == Failed && u.payments[j].kind == FailureRecord
    {
      assert j != k;
    }
    forall j | j in u.payments && u.payments[j].status == Failed
      ensures j in u.failures
    {
      assert j != k;
    }
  }

  lemma MarkedFailureConsistent(t: Tables, u: Tables, k: nat, record: FailedPayment)
    requires SettlementConsistent(t) && k in t.payments && !t.payments[k].status.IsTerminal()
    requires u.payments == t.payments[k := t.payments[k].(status := Failed, kind := FailureRecord)]
    requires u.failures == t.failures[k := record] && u.successes == t.successes
    ensures SettlementConsistent(u)
  {
    forall j | j in u.successes
      ensures j in u.payments && u.payments[j].status == Success && u.payments[j].kind == SuccessRecord
    {
      assert j != k;
    }
    forall j | j in u.payments && u.payments[j].status == Success
      ensures j in u.successes
    {
      assert j != k;
    }
  }

  /** The success writes keep the store's constraints. */
  lemma SettleSuccessKeepsValid(t: Tables, k: nat, chargeId: Option<string>, receiptUrl: Option<string>)
    requires Valid(t) && k in t.payments && !t.payments[k].status.IsTerminal()
    requires SettleSuccess(t, k, chargeId, receiptUrl).Some?
    ensures Valid(SettleSuccess(t, k, chargeId, receiptUrl).value)
  {
    var u := SettleSuccess(t, k, chargeId, receiptUrl).value;
    Payments.SessionsKept(t.payments, u.payments);
    MarkedSuccessConsistent(t, u, k, u.successes[k]);
  }

  /** The failure writes keep the store's constraints. */
  lemma SettleFailureKeepsValid(t: Tables, k: nat, errorCode: Option<string>)
    requires Valid(t) && k in t.payments && !t.payments[k].status.IsTerminal()
    requires SettleFailure(t, k, errorCode).Some?
    ensures Valid(SettleFailure(t, k, errorCode).value)
  {
    var u := SettleFailure(t, k, errorCode).value;
    Payments.SessionsKept(t.payments, u.payments);
    MarkedFailureConsistent(t, u, k, u.failures[k]);
  }

  /** Settling keeps the store's constraints and the settlement records
      consistent with the payments' statuses. */
  lemma FinalizeKeepsValid(t: Tables, sid: string, isSuccess: bool, retrieval: Retrieval,
                           commitFails: bool, notifyFails: bool)
    requires Valid(t)
    ensures Valid(Finalize(t, sid, isSuccess, retrieval, commitFails, notifyFails).tables)
  {
    if Commits(t, sid, isSuccess, retrieval, commitFails) {
      var k := SessionLookup(t.payments, sid).value;
      if isSuccess {
        SettleSuccessKeepsValid(t, k, retrieval.paymentIntent, retrieval.url);
      } else {
        SettleFailureKeepsValid(t, k, retrieval.paymentIntent);
      }
    }
  }

  /** The success branch's writes, committed when they pass the checks. */
  method CommitSuccess(db: Db, k: nat, retrieval: Retrieval, commitFails: bool) returns (committed: bool)
    requires k in db.payments && retrieval.Retrieved?
    modifies db
    ensures var u := SettleSuccess(old(db.Snapshot()), k, retrieval.paymentIntent, retrieval.url);
            && committed == (u.Some? && !commitFails)
            && db.Snapshot() == if committed then u.value else old(db.Snapshot())
  {
    var successes := SuccessfulPayments.Insert(db.successes, k, retrieval.paymentIntent, retrieval.url);
    var payment := db.payments[k].(status := Success, kind := SuccessRecord);
    var verified := Credit(db.verified, payment.ngoId, payment.amountCents);
    committed := successes.Some? && !commitFails;
    if committed {
      db.payments := db.payments[k := payment];
      db.successes := successes.value;
      db.verified := verified;
    }
  }

  /** The failure branch's writes, committed when they pass the checks. */
  method CommitFailure(db: Db, k: nat, retrieval: Retrieval, commitFails: bool) returns (committed: bool)
    requires k in db.payments && retrieval.Retrieved?
    modifies db
    ensures var u := SettleFailure(old(db.Snapshot()), k, retrieval.paymentIntent);
            && committed == (u.Some? && !commitFails)
            && db.Snapshot() == if committed then u.value else old(db.Snapshot())
  {
    var failures := FailedPayments.Insert(db.failures, k, FailedPayment(Some(FailureMessage), retrieval.paymentIntent));
    var payment := db.payments[k].(status := Failed, kind := FailureRecord);
    committed := failures.Some? && !commitFails;
    if committed {
      db.payments := db.payments[k := payment];
      db.failures := failures.value;
    }
  }

  /** `finalize_payment` on the database. */
  method FinalizePayment(db: Db, sid: string, isSuccess: bool, retrieval: Retrieval,
                         commitFails: bool, notifyFails: bool) returns (returned: Option<nat>, rollbackIssued: bool)
    modifies db
    ensures Reconciliation(db.Snapshot(), returned, rollbackIssued) ==
            Finalize(old(db.Snapshot()), sid, isSuccess, retrieval, commitFails, notifyFails)
  {
    returned, rollbackIssued := None, false;
    if retrieval.RetrievalError? {
      return;
    }
    var found := SessionLookup(db.payments, sid);
    if found.None? {
      return;
    }
    var k := found.value;
    if db.payments[k].status.IsTerminal() {
      returned := found;
      return;
    }
    if isSuccess {
      var committed := CommitSuccess(db, k, retrieval, commitFails);
      if committed && !notifyFails {
        returned := found;
      }
    } else {
      var committed := CommitFailure(db, k, retrieval, commitFails);
      if committed && !notifyFails {
        returned := found;
      } else {
        rollbackIssued := true;
      }
    }
  }

  /** A settled payment stays settled: once a call has committed,
      any later call for the same session, whichever address the donor
      returns to, changes nothing, so the organisation is credited once. */
  lemma SettlesOnce(t: Tables, sid: string, isSuccess: bool, retrieval: Retrieval, commitFails: bool, notifyFails: bool,
                    isSuccess2: bool, retrieval2: Retrieval, commitFails2: bool, notifyFails2: bool)
    requires Commits(t, sid, isSuccess, retrieval, commitFails)
    ensures var t1 := Finalize(t, sid, isSuccess, retrieval, commitFails, notifyFails).tables;
            Finalize(t1, sid, isSuccess2, retrieval2, commitFails2, notifyFails2).tables == t1
  {
    var t1 := Finalize(t, sid, isSuccess, retrieval, commitFails, notifyFails).tables;
    CommitMarksSettled(t, sid, isSuccess, retrieval, commitFails, notifyFails);
    assert !Settleable(t1, sid, retrieval2);
  }

  /** What a commit does to the payments, in either branch: the session
      finds the same payment, now terminal. */
  lemma CommitMarksSettled(t: Tables, sid: string, isSuccess: bool, retrieval: Retrieval, commitFails: bool, notifyFails: bool)
    requires Commits(t, sid, isSuccess, retrieval, commitFails)
    ensures var t1 := Finalize(t, sid, isSuccess, retrieval, commitFails, notifyFails).tables;
            var k := SessionLookup(t.payments, sid).value;
            && SessionLookup(t1.payments, sid) == Some(k)
            && t1.payments[k].status == (if isSuccess then Success else Failed)
            && (isSuccess ==> t1.failures == t.failures)
  {
    var k := SessionLookup(t.payments, sid).value;
    var u := Staged(t, k, isSuccess, retrieval).value;
    StagedMarksSettled(t, k, isSuccess, retrieval);
    Payments.SessionLookupKept(t.payments, u.payments, sid);
  }

  /** The staged writes touch only payment `k` among the payments, giving
      it the terminal status and discriminator of its branch. */
  lemma StagedMarksSettled(t: Tables, k: nat, isSuccess: bool, retrieval: Retrieval)
    requires k in t.payments && retrieval.Retrieved? && Staged(t, k, isSuccess, retrieval).Some?
    ensures Staged(t, k, isSuccess, retrieval).value.payments ==
            t.payments[k := t.payments[k].(status := if isSuccess then Success else Failed,
                                           kind := if isSuccess then SuccessRecord else FailureRecord)]
    ensures isSuccess ==> Staged(t, k, isSuccess, retrieval).value.failures == t.failures
  {
  }

  /** A checkout that reaches the gateway leaves a payment the gateway's
      session id finds, waiting to be settled. */
  lemma CheckoutThenSettleable(t: Tables, data: Option<DonationIntent>, gateway: Gateway, now: nat, commitFails: bool)
    requires Checkout(t, data, gateway, now, commitFails).outcome.ToGateway?
    ensures var s := Checkout(t, data, gateway, now, commitFails);
            && SessionLookup(s.tables.payments, gateway.sessionId) == Some(s.outcome.paymentId)
            && s.tables.payments[s.outcome.paymentId].status == Pending
            && forall intent, url :: Settleable(s.tables, gateway.sessionId, Retrieved(intent, url))
  {
    var s := Checkout(t, data, gateway, now, commitFails);
    var k := s.outcome.paymentId;
    assert s.tables.payments[k].sessionId == Some(gateway.sessionId);
    var r := SessionLookup(s.tables.payments, gateway.sessionId);
    assert r.value == k;
  }

  datatype SuccessPage = Ambiguous | Receipt(paymentId: nat) | ConfirmationFailed

  /** `payment_success`: the receipt exactly for a payment returned as SUCCESS. */
  function PaymentSuccess(t: Tables, sessionArg: Option<string>, retrieval: Retrieval,
                          commitFails: bool, notifyFails: bool): (s: Step<SuccessPage>)
    ensures s.outcome == Ambiguous <==> !Truthy(sessionArg)
    ensures s.outcome == Ambiguous ==> s.tables == t
    ensures s.outcome.Receipt? ==>
              && s.outcome.paymentId in s.tables.payments
              && s.tables.payments[s.outcome.paymentId].status == Success
              && s.tables.payments[s.outcome.paymentId].sessionId == sessionArg
    ensures Truthy(sessionArg) ==> s.tables == Finalize(t, sessionArg.value, true, retrieval, commitFails, notifyFails).tables
    ensures Truthy(sessionArg) ==>
              var r := Finalize(t, sessionArg.value, true, retrieval, commitFails, notifyFails);
              && (s.outcome.Receipt? <==> r.returned.Some? && r.tables.payments[r.returned.value].status == Success)
              && (s.outcome.Receipt? ==> s.outcome.paymentId == r.returned.value)
  {
    if !Truthy(sessionArg) then Step(t, Ambiguous)
    else
      var r := Finalize(t, sessionArg.value, true, retrieval, commitFails, notifyFails);
      if r.returned.Some? && r.tables.payments[r.returned.value].status == Success then
        Step(r.tables, Receipt(r.returned.value))
      else Step(r.tables, ConfirmationFailed)
  }

  datatype FailurePage = AmbiguousFailure | FailureShown(payment: Option<nat>)

  /** `payment_failed`: the failure page whatever `finalize_payment` returned. */
  function PaymentFailed(t: Tables, sessionArg: Option<string>, retrieval: Retrieval,
                         commitFails: bool, notifyFails: bool): (s: Step<FailurePage>)
    ensures s.outcome == AmbiguousFailure <==> !Truthy(sessionArg)
    ensures s.outcome == AmbiguousFailure ==> s.tables == t
    ensures Truthy(sessionArg) ==>
              var r := Finalize(t, sessionArg.value, false, retrieval, commitFails, notifyFails);
              s == Step(r.tables, FailureShown(r.returned))
  {
    if !Truthy(sessionArg) then Step(t, AmbiguousFailure)
    else
      var r := Finalize(t, sessionArg.value, false, retrieval, commitFails, notifyFails);
      Step(r.tables, FailureShown(r.returned))
  }

  /** A donor who reaches the cancel address after the payment succeeded is
      shown the failure page, but the payment stays SUCCESS, no failure
      record is made and the total is not taken back. */
  lemma CancelAfterSuccessKeepsSuccess(t: Tables, sid: string, retrieval: Retrieval, commitFails: bool, notifyFails: bool,
                                       retrieval2: Retrieval, commitFails2: bool, notifyFails2: bool)
    requires sid != "" && Commits(t, sid, true, retrieval, commitFails)
    ensures var t1 := Finalize(t, sid, true, retrieval, commitFails, notifyFails).tables;
            var k := SessionLookup(t.payments, sid).value;
            var s := PaymentFailed(t1, Some(sid), retrieval2, commitFails2, notifyFails2);
            && s.outcome.FailureShown?
            && s.tables == t1
            && t1.payments[k].status == Success
            && t1.failures == t.failures
  {
    CommitMarksSettled(t, sid, true, retrieval, commitFails, notifyFails);
    SettlesOnce(t, sid, true, retrieval, commitFails, notifyFails, false, retrieval2, commitFails2, notifyFails2);
  }

  // As written, the settlement constructors pass keywords the mapped
  // classes do not have; SQLAlchemy's declarative constructor raises
  // `TypeError` for an unknown keyword before anything is staged.

  /** The attributes mapped on `Payment`, inherited by both specialisations. */
  const PaymentAttributes: set<string> := {
    "id", "donor_id", "ngo_id", "donor_name", "donor_email", "amount", "currency",
    "stripe_session_id", "transaction_status", "created_at", "type", "receiving_ngo"
  }

  const SuccessfulPaymentAttributes: set<string> := PaymentAttributes + {"stripe_charge_id", "receipt_url"}
  const FailedPaymentAttributes: set<string> := PaymentAttributes + {"error_message", "stripe_error_code"}

  /** The keywords the settlement code passes to each constructor. */
  const SuccessKeywords: set<string> := {"stripe_charge_id", "receipt_url", "payment", "confirmed_at"}
  const FailureKeywords: set<string> := {"error_message", "stripe_error_code", "payment", "failed_at"}

  /** The declarative constructor accepts only mapped attributes. */
  predicate ConstructorAccepts(attributes: set<string>, keywords: set<string>) {
    keywords <= attributes
  }

  /** `finalize_payment` as written: when the constructor rejects its
      keywords, the generic handler rolls back (the status is still not
      SUCCESS) and returns nothing. No pending payment is ever settled. */
  function FinalizeAsWritten(t: Tables, sid: string, isSuccess: bool, retrieval: Retrieval,
                             commitFails: bool, notifyFails: bool): (r: Reconciliation)
    ensures r.tables == t
    ensures Settleable(t, sid, retrieval) ==> r == Reconciliation(t, None, true)
  {
    assert "payment" !in SuccessfulPaymentAttributes;
    assert "payment" !in FailedPaymentAttributes;
    if !Settleable(t, sid, retrieval) then Finalize(t, sid, isSuccess, retrieval, commitFails, notifyFails)
    else if isSuccess && !ConstructorAccepts(SuccessfulPaymentAttributes, SuccessKeywords) then Reconciliation(t, None, true)
    else if !isSuccess && !ConstructorAccepts(FailedPaymentAttributes, FailureKeywords) then Reconciliation(t, None, true)
    else Finalize(t, sid, isSuccess, retrieval, commitFails, notifyFails)
  }

  /** One pending payment of 5.00 to organisation 1, under session "cs_1". */
  function Example(): (t: Tables)
    ensures Payments.SessionIdsUnique(t.payments)
    ensures 1 in t.payments && t.payments[1].sessionId == Some("cs_1") && t.payments[1].status == Pending
    ensures 1 in t.verified && t.verified[1].totalCents == 0
  {
    var ngo := NewVerified("Clean Water Trust", "Health", "Wells for every village.", "info@cwt.example", None, None, 0);
    var p := Payment(None, 1, None, "donor@example.org", 500, "USD", Some("cs_1"), Pending, 0, BasePayment);
    Tables(map[], map[1 := ngo], map[], map[1 := p], map[], map[])
  }

  /** Under the corrected definition the example's success settles the
      payment and credits its organisation with the 500 cents. */
  lemma ExampleSettles()
    ensures var fixed := Finalize(Example(), "cs_1", true, Retrieved(Some("pi_1"), None), false, false);
            && fixed.returned == Some(1)
            && fixed.tables.payments[1].status == Success
            && fixed.tables.verified[1].totalCents == 500
  {
    var t := Example();
    var retrieval := Retrieved(Some("pi_1"), None);
    Payments.SessionLookupUnique(t.payments, "cs_1", 1);
    assert SettleSuccess(t, 1, Some("pi_1"), None).Some?;
    assert Commits(t, "cs_1", true, retrieval, false);
    SuccessSettles(t, "cs_1", retrieval, false, false);
  }

  /** As written, the same request on the same settleable payment returns
      nothing and leaves it pending and its organisation uncredited. */
  lemma AsWrittenLeavesPaymentPending()
    ensures var t := Example();
            var written := FinalizeAsWritten(t, "cs_1", true, Retrieved(Some("pi_1"), None), false, false);
            && Settleable(t, "cs_1", Retrieved(Some("pi_1"), None))
            && written.returned.None?
            && written.tables.payments[1].status == Pending
            && written.tables.verified[1].totalCents == 0
  {
    var t := Example();
    Payments.SessionLookupUnique(t.payments, "cs_1", 1);
  }
}
