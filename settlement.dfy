/**
 * Payment settlement (`PATCH /payment-success`) and the amount conversion of
 * `POST /create-checkout-session`. The payment provider is a map from session id
 * to session; the clock readings the code takes from `Date.now()` / `new Date()`
 * are parameters. `Settle` is the specification of one settlement call over the
 * applications collection and the payments ledger; the lemmas below state what
 * repeated calls do.
 */
module Settlement {
  import opened Wrappers
  import Tracking
  import Gate

  /** An application's `_id`, as 24 lower-case hexadecimal digits. */
  type AppId = string

  /** The `metadata` the checkout route attaches to a session. */
  datatype Metadata = Metadata(applicationId: Option<string>, tutorEmail: Option<string>, studentEmail: Option<string>)

  /** What the payment provider returns for a session id; `amountTotal` is in minor units (poisha). */
  datatype Session = Session(metadata: Option<Metadata>, paymentIntent: Option<string>, amountTotal: int, currency: Option<string>)

  datatype Application = Application(
    studentEmail: Option<string>, tutorEmail: Option<string>,
    status: string, paymentStatus: Option<string>,
    transactionId: Option<string>, trackingId: Option<string>,
    paidAmount: Option<real>, paidAt: Option<int>, createdAt: int)

  /** A row of the payments ledger; `amount` is in whole currency units. */
  datatype PaymentRecord = PaymentRecord(
    applicationId: AppId, transactionId: Option<string>, trackingId: string, amount: real,
    currency: Option<string>, tutorEmail: Option<string>, studentEmail: Option<string>, createdAt: int)

  /** The three clock readings of one call: `Date.now()` for the tracking id, then two `new Date()`. */
  datatype Clock = Clock(now: nat, paidAt: int, createdAt: int)

  /** The transaction id, tracking id and amount a successful call reports. */
  datatype Receipt = Receipt(transactionId: Option<string>, trackingId: string, amount: real)

  datatype Response =
    | MissingSessionId        // 400, index.js:504-506
    | SessionLookupFailed     // 500: the provider's retrieve throws, index.js:509
    | NoApplicationInfo       // 400, index.js:516-520
    | InvalidApplicationId    // 500: `new ObjectId` throws, index.js:537
    | AlreadyProcessed(receipt: Receipt)
    | Settled(receipt: Receipt)
  {
    predicate IsError() { !AlreadyProcessed? && !Settled? }

    function Code(): (c: int)
      ensures c == 200 <==> !IsError()
      ensures c == 400 <==> MissingSessionId? || NoApplicationInfo?
      ensures c == 500 <==> SessionLookupFailed? || InvalidApplicationId?
    {
      match this
      case MissingSessionId => 400
      case NoApplicationInfo => 400
      case SessionLookupFailed => 500
      case InvalidApplicationId => 500
      case AlreadyProcessed(_) => 200
      case Settled(_) => 200
    }
  }

  /** The collections after a call, and the response. */
  datatype Outcome = Outcome(applications: map<AppId, Application>, payments: seq<PaymentRecord>, response: Response)

  predicate IsHex(c: char)
  {
    ('0' <= c <= '9') || ('a' <= c <= 'f') || ('A' <= c <= 'F')
  }

  predicate IsLowerHex(c: char)
  {
    ('0' <= c <= '9') || ('a' <= c <= 'f')
  }

  function LowerHex(c: char): (d: char)
    requires IsHex(c)
    ensures IsLowerHex(d)
    ensures IsLowerHex(c) ==> d == c
  {
    if 'A' <= c <= 'F' then (c as int - 'A' as int + 'a' as int) as char else c
  }

  /** `new ObjectId(s)`: 24 hexadecimal digits in either case, or it throws. */
  function ParseObjectId(s: string): (id: Option<AppId>)
    ensures id.Some? <==> |s| == 24 && forall i :: 0 <= i < |s| ==> IsHex(s[i])
    ensures id.Some? ==> |id.value| == 24 && forall i :: 0 <= i < 24 ==> IsLowerHex(id.value[i])
    ensures id.Some? ==> forall i :: 0 <= i < 24 ==>
              && (IsLowerHex(s[i]) ==> id.value[i] == s[i])
              && ('A' <= s[i] <= 'F' ==> id.value[i] as int == s[i] as int + 32)
  {
    if |s| == 24 && forall i :: 0 <= i < |s| ==> IsHex(s[i])
    then Some(seq(24, i requires 0 <= i < 24 => LowerHex(s[i])))
    else None
  }

  /** 24 lower-case hexadecimal digits parse to themselves. */
  lemma ParseLowerHex(s: string)
    requires |s| == 24 && forall i :: 0 <= i < 24 ==> IsLowerHex(s[i])
    ensures ParseObjectId(s) == Some(s)
  {
    assert seq(24, i requires 0 <= i < 24 => LowerHex(s[i])) == s;
  }

  /** A parsed id is its own canonical spelling. */
  lemma ParseCanonical(s: string)
    requires ParseObjectId(s).Some?
    ensures ParseObjectId(ParseObjectId(s).value) == ParseObjectId(s)
  {
    ParseLowerHex(ParseObjectId(s).value);
  }

  /** `paymentsCollection.findOne({transactionId})`: the first ledger row with that transaction id. */
  function FindPayment(payments: seq<PaymentRecord>, tx: Option<string>): (r: Option<PaymentRecord>)
    ensures r.Some? ==> r.value in payments && r.value.transactionId == tx
    ensures r.None? <==> forall i :: 0 <= i < |payments| ==> payments[i].transactionId != tx
    decreases |payments|
  {
    if payments == [] then None
    else if payments[0].transactionId == tx then Some(payments[0])
    else FindPayment(payments[1..], tx)
  }

  /** After appending a row for a transaction id the ledger did not hold, the lookup finds that row. */
  lemma {:induction false} FindAppended(payments: seq<PaymentRecord>, rec: PaymentRecord)
    requires FindPayment(payments, rec.transactionId).None?
    ensures FindPayment(payments + [rec], rec.transactionId) == Some(rec)
    decreases |payments|
  {
    if payments == [] {
      assert payments + [rec] == [rec];
    } else {
      assert (payments + [rec])[1..] == payments[1..] + [rec];
      FindAppended(payments[1..], rec);
    }
  }

  /** The number of ledger rows carrying transaction id `tx`. */
  function CountTx(payments: seq<PaymentRecord>, tx: Option<string>): nat
    decreases |payments|
  {
    if payments == [] then 0
    else CountTx(payments[..|payments| - 1], tx) + (if payments[|payments| - 1].transactionId == tx then 1 else 0)
  }

  lemma {:induction false} CountNone(payments: seq<PaymentRecord>, tx: Option<string>)
    requires FindPayment(payments, tx).None?
    ensures CountTx(payments, tx) == 0
    decreases |payments|
  {
    if payments != [] {
      CountNone(payments[..|payments| - 1], tx);
    }
  }

  /** The ledger invariant: at most one row per transaction id. */
  ghost predicate UniqueTransactions(payments: seq<PaymentRecord>)
  {
    forall tx :: CountTx(payments, tx) <= 1
  }

  /** Every ledger row whose application exists marks that application approved and paid. */
  ghost predicate PaidApplications(applications: map<AppId, Application>, payments: seq<PaymentRecord>)
  {
    forall i :: 0 <= i < |payments| && payments[i].applicationId in applications ==>
      applications[payments[i].applicationId].status == "approved" &&
      applications[payments[i].applicationId].paymentStatus == Some("paid")
  }

  /** The `$set` of index.js:538-547 applied to a stored application. */
  function Approved(app: Application, tx: Option<string>, trackingId: string, amount: real, paidAt: int): (a: Application)
    ensures a.status == "approved" && a.paymentStatus == Some("paid")
    ensures a.transactionId == tx && a.trackingId == Some(trackingId)
    ensures a.paidAmount == Some(amount) && a.paidAt == Some(paidAt)
    ensures a.studentEmail == app.studentEmail && a.tutorEmail == app.tutorEmail && a.createdAt == app.createdAt
  {
    app.(status := "approved", paymentStatus := Some("paid"), transactionId := tx,
         trackingId := Some(trackingId), paidAmount := Some(amount), paidAt := Some(paidAt))
  }

  /** `session.amount_total / 100`: minor units back to whole units. */
  function Recorded(amountTotal: int): (amount: real)
    ensures amount * 100.0 == amountTotal as real
    ensures amountTotal % 100 == 0 ==> amount == (amountTotal / 100) as real
  {
    amountTotal as real / 100.0
  }

  /** `session.metadata?.applicationId`. */
  function ApplicationRef(session: Session): (ref: Option<string>)
    ensures session.metadata.None? ==> ref.None?
    ensures ref.Some? ==> session.metadata.Some? && session.metadata.value.applicationId == ref
    ensures session.metadata.Some? ==> ref == session.metadata.value.applicationId
  {
    if session.metadata.None? then None else session.metadata.value.applicationId
  }

  /** What a first settlement reports: the session's payment intent, the fresh tracking id, `amount_total / 100`. */
  function ReceiptFor(session: Session, clock: Clock): (r: Receipt)
    ensures r.transactionId == session.paymentIntent && r.trackingId == Tracking.TrackingId(clock.now)
    ensures r.amount * 100.0 == session.amountTotal as real
  {
    Receipt(session.paymentIntent, Tracking.TrackingId(clock.now), Recorded(session.amountTotal))
  }

  /** The ledger row inserted at index.js:551-562; it carries the same values as the receipt. */
  function RecordFor(session: Session, id: AppId, clock: Clock): (rec: PaymentRecord)
    requires session.metadata.Some?
    ensures Receipt(rec.transactionId, rec.trackingId, rec.amount) == ReceiptFor(session, clock)
    ensures rec.applicationId == id && rec.createdAt == clock.createdAt && rec.currency == session.currency
    ensures rec.tutorEmail == session.metadata.value.tutorEmail && rec.studentEmail == session.metadata.value.studentEmail
  {
    var receipt := ReceiptFor(session, clock);
    PaymentRecord(id, receipt.transactionId, receipt.trackingId, receipt.amount, session.currency,
                  session.metadata.value.tutorEmail, session.metadata.value.studentEmail, clock.createdAt)
  }

  /** `applicationsCollection.updateOne({_id: id}, {$set: ...})`: no change when no application has that id. */
  function ApproveIn(applications: map<AppId, Application>, id: AppId, receipt: Receipt, paidAt: int)
    : (r: map<AppId, Application>)
    ensures r.Keys == applications.Keys
    ensures forall other :: other in applications && other != id ==> r[other] == applications[other]
    ensures id in applications ==>
              r[id] == Approved(applications[id], receipt.transactionId, receipt.trackingId, receipt.amount, paidAt)
  {
    if id in applications
    then applications[id := Approved(applications[id], receipt.transactionId, receipt.trackingId, receipt.amount, paidAt)]
    else applications
  }

  /**
   * One call of `PATCH /payment-success` (index.js:501-574). The ledger is searched
   * for the session's transaction id only; the application update and the ledger
   * insert are two writes, the update matching nothing when no application has that id.
   */
  function Settle(applications: map<AppId, Application>, payments: seq<PaymentRecord>,
                  sessionId: Option<string>, sessions: map<string, Session>, clock: Clock): (out: Outcome)
    ensures out.response.IsError() || out.response.AlreadyProcessed? ==>
              out.applications == applications && out.payments == payments
    ensures out.applications.Keys == applications.Keys
    ensures |out.payments| == |payments| + (if out.response.Settled? then 1 else 0)
    ensures out.payments[..|payments|] == payments
    ensures out.response.Settled? ==>
              var rec := out.payments[|payments|];
              && FindPayment(payments, rec.transactionId).None?
              && out.response.receipt == Receipt(rec.transactionId, rec.trackingId, rec.amount)
  {
    if sessionId.None? || sessionId.value == "" then Outcome(applications, payments, MissingSessionId)
    else if sessionId.value !in sessions then Outcome(applications, payments, SessionLookupFailed)
    else
      var session := sessions[sessionId.value];
      var appRef := ApplicationRef(session);
      if appRef.None? || appRef.value == "" then Outcome(applications, payments, NoApplicationInfo)
      else
        var tx := session.paymentIntent;
        match FindPayment(payments, tx)
        case Some(existing) =>
          Outcome(applications, payments, AlreadyProcessed(Receipt(existing.transactionId, existing.trackingId, existing.amount)))
        case None =>
          var trackingId := Tracking.TrackingId(clock.now);
          match ParseObjectId(appRef.value)
          case None => Outcome(applications, payments, InvalidApplicationId)
          case Some(id) =>
            var receipt := ReceiptFor(session, clock);
            var rec := RecordFor(session, id, clock);
            assert (payments + [rec])[..|payments|] == payments;
            Outcome(ApproveIn(applications, id, receipt, clock.paidAt), payments + [rec], Settled(receipt))
  }

  /** The call reaches the ledger lookup: a session id the provider knows, with an `applicationId`. */
  predicate Resolves(sessionId: Option<string>, sessions: map<string, Session>)
  {
    && sessionId.Some? && sessionId.value != "" && sessionId.value in sessions
    && ApplicationRef(sessions[sessionId.value]).Some?
    && ApplicationRef(sessions[sessionId.value]).value != ""
  }

  /** A missing session id, an unknown session or a session without `applicationId` changes nothing. */
  lemma BadSessionChangesNothing(applications: map<AppId, Application>, payments: seq<PaymentRecord>,
                                 sessionId: Option<string>, sessions: map<string, Session>, clock: Clock)
    requires !Resolves(sessionId, sessions)
    ensures var out := Settle(applications, payments, sessionId, sessions, clock);
      && out.applications == applications && out.payments == payments
      && out.response in {MissingSessionId, SessionLookupFailed, NoApplicationInfo}
      && (sessionId.Some? && sessionId.value != "" && sessionId.value in sessions ==> out.response == NoApplicationInfo)
      && (sessionId.None? || sessionId == Some("") ==> out.response == MissingSessionId)
      && (sessionId.Some? && sessionId.value != "" && sessionId.value !in sessions ==> out.response == SessionLookupFailed)
  {
  }

  /** A transaction id the ledger already holds: that row's values are reported and nothing changes. */
  lemma AlreadyProcessedChangesNothing(applications: map<AppId, Application>, payments: seq<PaymentRecord>,
                                       sessionId: Option<string>, sessions: map<string, Session>, clock: Clock)
    requires Resolves(sessionId, sessions)
    requires FindPayment(payments, sessions[sessionId.value].paymentIntent).Some?
    ensures var out := Settle(applications, payments, sessionId, sessions, clock);
      var rec := FindPayment(payments, sessions[sessionId.value].paymentIntent).value;
      && out == Outcome(applications, payments, AlreadyProcessed(Receipt(rec.transactionId, rec.trackingId, rec.amount)))
      && rec in payments && rec.transactionId == sessions[sessionId.value].paymentIntent
  {
  }

  /**
   * A transaction id the ledger does not hold, with an `applicationId` that is not 24
   * hexadecimal digits: `new ObjectId` throws before either write, so the answer is a
   * 500 and nothing changes.
   */
  lemma InvalidIdChangesNothing(applications: map<AppId, Application>, payments: seq<PaymentRecord>,
                                sessionId: Option<string>, sessions: map<string, Session>, clock: Clock)
    requires Resolves(sessionId, sessions)
    requires FindPayment(payments, sessions[sessionId.value].paymentIntent).None?
    requires ParseObjectId(ApplicationRef(sessions[sessionId.value]).value).None?
    ensures Settle(applications, payments, sessionId, sessions, clock) == Outcome(applications, payments, InvalidApplicationId)
    ensures InvalidApplicationId.Code() == 500
  {
  }

  /** A call settles exactly when the session resolves, the ledger misses and the id parses. */
  lemma SettledExactly(applications: map<AppId, Application>, payments: seq<PaymentRecord>,
                       sessionId: Option<string>, sessions: map<string, Session>, clock: Clock)
    ensures Settle(applications, payments, sessionId, sessions, clock).response.Settled? <==>
              && Resolves(sessionId, sessions)
              && FindPayment(payments, sessions[sessionId.value].paymentIntent).None?
              && ParseObjectId(ApplicationRef(sessions[sessionId.value]).value).Some?
  {
  }

  /**
   * First settlement of a transaction: the referenced application (when it exists) is
   * approved and paid with the session's transaction id, the fresh tracking id and
   * `amountTotal / 100`; exactly one row with the same values is appended, and the
   * response reports them.
   */
  lemma FirstSettlement(applications: map<AppId, Application>, payments: seq<PaymentRecord>,
                        sessionId: Option<string>, sessions: map<string, Session>, clock: Clock)
    requires Resolves(sessionId, sessions)
    requires FindPayment(payments, sessions[sessionId.value].paymentIntent).None?
    requires ParseObjectId(ApplicationRef(sessions[sessionId.value]).value).Some?
    ensures var session := sessions[sessionId.value];
      var id := ParseObjectId(ApplicationRef(session).value).value;
      var out := Settle(applications, payments, sessionId, sessions, clock);
      && out.response == Settled(ReceiptFor(session, clock))
      && out.payments == payments + [RecordFor(session, id, clock)]
      && out.applications == ApproveIn(applications, id, ReceiptFor(session, clock), clock.paidAt)
      && CountTx(out.payments, session.paymentIntent) == 1
  {
    var session := sessions[sessionId.value];
    var rec := RecordFor(session, ParseObjectId(ApplicationRef(session).value).value, clock);
    CountNone(payments, session.paymentIntent);
    assert (payments + [rec])[..|payments|] == payments;
  }

  /**
   * Calling again with the same session, at any later clock, changes nothing and
   * reports the same transaction id, tracking id and amount (or the same error).
   */
  lemma SettleTwice(applications: map<AppId, Application>, payments: seq<PaymentRecord>,
                    sessionId: Option<string>, sessions: map<string, Session>, first: Clock, again: Clock)
    ensures var o1 := Settle(applications, payments, sessionId, sessions, first);
      var o2 := Settle(o1.applications, o1.payments, sessionId, sessions, again);
      && o2.applications == o1.applications && o2.payments == o1.payments
      && (o1.response.IsError() ==> o2.response == o1.response)
      && (!o1.response.IsError() ==> o2.response == AlreadyProcessed(o1.response.receipt))
  {
    var o1 := Settle(applications, payments, sessionId, sessions, first);
    if Resolves(sessionId, sessions) {
      var tx := sessions[sessionId.value].paymentIntent;
      if o1.response.Settled? {
        FindAppended(payments, o1.payments[|payments|]);
        assert o1.payments == payments + [o1.payments[|payments|]];
      }
    }
  }

  /** `n` further calls with the same session after the first one. */
  function Repeat(o: Outcome, sessionId: Option<string>, sessions: map<string, Session>, clocks: seq<Clock>): Outcome
    decreases |clocks|
  {
    if clocks == [] then o
    else Repeat(Settle(o.applications, o.payments, sessionId, sessions, clocks[0]), sessionId, sessions, clocks[1..])
  }

  /**
   * However many times a session is settled, the store is as the first call left it,
   * and every later call reports the first call's receipt.
   */
  lemma {:induction false} SettleRepeated(applications: map<AppId, Application>, payments: seq<PaymentRecord>,
                                          sessionId: Option<string>, sessions: map<string, Session>,
                                          first: Clock, later: seq<Clock>)
    requires |later| >= 1
    ensures var o1 := Settle(applications, payments, sessionId, sessions, first);
      var on := Repeat(o1, sessionId, sessions, later);
      && on.applications == o1.applications && on.payments == o1.payments
      && (o1.response.IsError() ==> on.response == o1.response)
      && (!o1.response.IsError() ==> on.response == AlreadyProcessed(o1.response.receipt))
    decreases |later|
  {
    var o1 := Settle(applications, payments, sessionId, sessions, first);
    SettleTwice(applications, payments, sessionId, sessions, first, later[0]);
    var o2 := Settle(o1.applications, o1.payments, sessionId, sessions, later[0]);
    if |later| > 1 {
      SettleRepeated(o1.applications, o1.payments, sessionId, sessions, later[0], later[1..]);
      if !o1.response.IsError() {
        assert o2.response.receipt == o1.response.receipt;
        assert Settle(o1.applications, o1.payments, sessionId, sessions, later[0]) == o2;
      }
    }
  }

  /** Settlement keeps the ledger at most one row per transaction id. */
  lemma SettleKeepsUnique(applications: map<AppId, Application>, payments: seq<PaymentRecord>,
                          sessionId: Option<string>, sessions: map<string, Session>, clock: Clock)
    requires UniqueTransactions(payments)
    ensures UniqueTransactions(Settle(applications, payments, sessionId, sessions, clock).payments)
  {
    var out := Settle(applications, payments, sessionId, sessions, clock);
    if out.response.Settled? {
      var rec := out.payments[|payments|];
      assert out.payments[..|out.payments| - 1] == payments;
      CountNone(payments, rec.transactionId);
      forall tx ensures CountTx(out.payments, tx) <= 1 {
        assert CountTx(out.payments, tx) == CountTx(payments, tx) + (if rec.transactionId == tx then 1 else 0);
      }
    }
  }

  /** Settlement keeps every ledger row's existing application approved and paid. */
  lemma SettleKeepsPaid(applications: map<AppId, Application>, payments: seq<PaymentRecord>,
                        sessionId: Option<string>, sessions: map<string, Session>, clock: Clock)
    requires PaidApplications(applications, payments)
    ensures var out := Settle(applications, payments, sessionId, sessions, clock);
      PaidApplications(out.applications, out.payments)
  {
    var out := Settle(applications, payments, sessionId, sessions, clock);
    if out.response.Settled? {
      var rec := out.payments[|payments|];
      forall i | 0 <= i < |out.payments| && out.payments[i].applicationId in out.applications
        ensures out.applications[out.payments[i].applicationId].status == "approved"
        ensures out.applications[out.payments[i].applicationId].paymentStatus == Some("paid")
      {
        var a := out.payments[i].applicationId;
        if a != rec.applicationId {
          assert i < |payments| && payments[i] == out.payments[i];
          assert out.applications[a] == applications[a];
        }
      }
    }
  }

  /**
   * The code does not make an application's transaction id final: a second session for
   * an already settled application, with a different payment intent, overwrites the
   * application's transaction id and adds a second ledger row for that application.
   */
  lemma TransactionIdNotFinal(applications: map<AppId, Application>, payments: seq<PaymentRecord>,
                              sessionId: Option<string>, sessions: map<string, Session>, clock: Clock, id: AppId)
    requires Resolves(sessionId, sessions)
    requires ParseObjectId(ApplicationRef(sessions[sessionId.value]).value) == Some(id)
    requires id in applications && applications[id].transactionId.Some?
    requires sessions[sessionId.value].paymentIntent.Some?
    requires sessions[sessionId.value].paymentIntent != applications[id].transactionId
    requires FindPayment(payments, sessions[sessionId.value].paymentIntent).None?
    ensures var out := Settle(applications, payments, sessionId, sessions, clock);
      && out.response.Settled?
      && out.applications[id].transactionId == sessions[sessionId.value].paymentIntent
      && out.applications[id].transactionId != applications[id].transactionId
      && out.payments[|payments|].applicationId == id
  {
  }

  /**
   * A session without a payment intent is keyed by `null`: once one such session has
   * been settled, every other one is answered with that first row's values and changes
   * nothing, whichever application it names.
   */
  lemma MissingIntentSharesOneRow(applications: map<AppId, Application>, payments: seq<PaymentRecord>,
                                  sessionId: Option<string>, sessions: map<string, Session>, clock: Clock, i: nat)
    requires Resolves(sessionId, sessions)
    requires sessions[sessionId.value].paymentIntent.None?
    requires i < |payments| && payments[i].transactionId.None?
    ensures var out := Settle(applications, payments, sessionId, sessions, clock);
      && out.response.AlreadyProcessed? && out.response.receipt.transactionId.None?
      && out.applications == applications && out.payments == payments
  {
  }

  // ---- the checkout route (index.js:452-497) ----

  /** The body of `POST /create-checkout-session`; `amount` is in whole currency units. */
  datatype CheckoutRequest = CheckoutRequest(applicationId: Option<string>, amount: Option<int>,
                                             tutorEmail: Option<string>, studentEmail: Option<string>,
                                             tuitionTitle: Option<string>)

  /** The parameters the route sends to the payment provider. */
  datatype CheckoutParams = CheckoutParams(productName: string, unitAmount: int, quantity: nat,
                                           currency: string, metadata: Metadata)

  datatype CheckoutReply = CheckoutUnauthorized | MissingPaymentInfo | CheckoutCreated(params: CheckoutParams)

  predicate Present(s: Option<string>)
  {
    s.Some? && s.value != ""
  }

  /** `POST /create-checkout-session` behind `verifyFBToken`: a 401, a 400, or the session parameters. */
  function CreateCheckout(header: Option<string>, verify: Gate.Oracle, req: CheckoutRequest): (r: CheckoutReply)
    ensures r == CheckoutUnauthorized <==> Gate.Authenticate(header, verify).None?
    ensures r.CheckoutCreated? <==>
              Gate.Authenticate(header, verify).Some? && Present(req.applicationId) && req.amount.Some? &&
              req.amount.value != 0 && Present(req.tutorEmail) && Present(req.studentEmail)
    ensures r.CheckoutCreated? ==>
              && r.params.unitAmount == req.amount.value * 100 && r.params.quantity == 1 && r.params.currency == "bdt"
              && r.params.metadata == Metadata(req.applicationId, req.tutorEmail, req.studentEmail)
  {
    if Gate.Authenticate(header, verify).None? then CheckoutUnauthorized
    else if !Present(req.applicationId) || req.amount.None? || req.amount.value == 0 ||
            !Present(req.tutorEmail) || !Present(req.studentEmail) then MissingPaymentInfo
    else
      var title := if Present(req.tuitionTitle) then req.tuitionTitle.value else "Tutor";
      CheckoutCreated(CheckoutParams("Tuition payment for " + title, req.amount.value * 100, 1, "bdt",
                                     Metadata(req.applicationId, req.tutorEmail, req.studentEmail)))
  }

  /** The session the provider holds once the checkout has been paid under `paymentIntent`. */
  function PaidSession(params: CheckoutParams, paymentIntent: string): Session
  {
    Session(Some(params.metadata), Some(paymentIntent), params.unitAmount * params.quantity, Some(params.currency))
  }

  /**
   * The amount round trip: a checkout for `A` whole units, paid and then settled for
   * the first time, approves the application with `paidAmount = A` and records `A`.
   */
  lemma CheckoutRoundTrip(header: Option<string>, verify: Gate.Oracle, req: CheckoutRequest,
                          applications: map<AppId, Application>, payments: seq<PaymentRecord>,
                          sid: string, sessions: map<string, Session>, paymentIntent: string, clock: Clock)
    requires CreateCheckout(header, verify, req).CheckoutCreated?
    requires sid != "" && sid in sessions
    requires sessions[sid] == PaidSession(CreateCheckout(header, verify, req).params, paymentIntent)
    requires ParseObjectId(req.applicationId.value).Some?
    requires ParseObjectId(req.applicationId.value).value in applications
    requires FindPayment(payments, Some(paymentIntent)).None?
    ensures var id := ParseObjectId(req.applicationId.value).value;
      var out := Settle(applications, payments, Some(sid), sessions, clock);
      && out.response == Settled(Receipt(Some(paymentIntent), Tracking.TrackingId(clock.now), req.amount.value as real))
      && out.applications[id].paidAmount == Some(req.amount.value as real)
      && out.applications[id].status == "approved"
      && out.payments[|payments|].amount == req.amount.value as real
  {
    var params := CreateCheckout(header, verify, req).params;
    assert Recorded(params.unitAmount * params.quantity) == req.amount.value as real;
    FirstSettlement(applications, payments, Some(sid), sessions, clock);
  }
}
