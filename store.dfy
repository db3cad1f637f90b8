/**
 * The persisted collections as one mutable store. Each route that writes is a method
 * that updates the collections in the order the handler does, and is tied to the
 * specification functions of `Users`, `Gate` and `Settlement`.
 */
module Store {
  import opened Wrappers
  import Users
  import Gate
  import opened Settlement
  import Tracking

  class Store {
    var users: map<string, Users.User>
    var applications: map<AppId, Application>
    var payments: seq<PaymentRecord>

    /** The ledger holds one row per transaction id, and its applications are approved and paid. */
    ghost predicate Valid()
      reads this
    {
      UniqueTransactions(payments) && PaidApplications(applications, payments)
    }

    constructor (users: map<string, Users.User>, applications: map<AppId, Application>, payments: seq<PaymentRecord>)
      requires UniqueTransactions(payments) && PaidApplications(applications, payments)
      ensures Valid()
      ensures this.users == users && this.applications == applications && this.payments == payments
    {
      this.users := users;
      this.applications := applications;
      this.payments := payments;
    }

    /** `POST /users` (index.js:95-117): insert unless the email is already registered. */
    method Register(body: Users.NewUser, now: int) returns (r: Users.Registration)
      requires Valid()
      modifies this
      ensures Valid()
      ensures r == Users.RegisterOutcome(old(users), body)
      ensures users == Users.Registered(old(users), body, now)
      ensures applications == old(applications) && payments == old(payments)
    {
      if body.email in users {
        return Users.AlreadyExists;
      }
      users := users[body.email := Users.Admitted(body, now)];
      r := Users.Inserted;
    }

    /** `PATCH /users/:email` (index.js:172-194): only the owner's own document is updated. */
    method PatchProfile(header: Option<string>, verify: Gate.Oracle, pathEmail: string, update: map<string, string>)
      returns (v: Gate.Verdict)
      requires Valid()
      modifies this
      ensures Valid()
      ensures v == Gate.SelfRoute(header, verify, pathEmail)
      ensures v != Gate.Allowed ==> users == old(users)
      ensures v == Gate.Allowed ==> users == Users.PatchedUsers(old(users), pathEmail, update)
      ensures applications == old(applications) && payments == old(payments)
    {
      var caller := Gate.Authenticate(header, verify);
      if caller.None? {
        return Gate.Unauthorized;
      }
      v := Gate.OwnerCheck(caller.value.email, pathEmail);
      if v != Gate.Allowed {
        return;
      }
      if pathEmail in users {
        users := users[pathEmail := Users.Patched(users[pathEmail], update)];
      }
    }

    /**
     * `PATCH /payment-success` (index.js:501-574): resolve the session, look the
     * transaction id up in the ledger, then update the application and append the row.
     */
    method SettlePayment(sessionId: Option<string>, sessions: map<string, Session>, clock: Clock)
      returns (r: Response)
      requires Valid()
      modifies this
      ensures Valid()
      ensures var out := Settle(old(applications), old(payments), sessionId, sessions, clock);
        applications == out.applications && payments == out.payments && r == out.response
      ensures users == old(users)
    {
      if sessionId.None? || sessionId.value == "" {
        return MissingSessionId;
      }
      if sessionId.value !in sessions {
        return SessionLookupFailed;
      }
      var session := sessions[sessionId.value];
      var appRef := ApplicationRef(session);
      if appRef.None? || appRef.value == "" {
        return NoApplicationInfo;
      }
      var tx := session.paymentIntent;
      var existing := FindPayment(payments, tx);
      if existing.Some? {
        return AlreadyProcessed(Receipt(existing.value.transactionId, existing.value.trackingId, existing.value.amount));
      }
      var trackingId := Tracking.TrackingId(clock.now);
      var id := ParseObjectId(appRef.value);
      if id.None? {
        return InvalidApplicationId;
      }
      var amount := Recorded(session.amountTotal);
      SettleKeepsUnique(applications, payments, sessionId, sessions, clock);
      SettleKeepsPaid(applications, payments, sessionId, sessions, clock);
      // first write: the application update, which matches nothing for an unknown id
      if id.value in applications {
        applications := applications[id.value := Approved(applications[id.value], tx, trackingId, amount, clock.paidAt)];
      }
      // second write: the ledger insert
      payments := payments + [PaymentRecord(id.value, tx, trackingId, amount, session.currency,
                                            session.metadata.value.tutorEmail, session.metadata.value.studentEmail,
                                            clock.createdAt)];
      r := Settled(Receipt(tx, trackingId, amount));
    }
  }

  /** The settlement example: a pending application settled twice for 50000 poisha. */
  method SettleExample(app: Application)
    requires app.status == "pending"
  {
    var id := "0123456789abcdef01234567";
    var store := new Store(map[], map[id := app], []);
    var session := Session(Some(Metadata(Some(id), Some("t@x.com"), Some("s@x.com"))), Some("pi_abc"), 50000, Some("bdt"));
    var sessions := map["sess_1" := session];
    var r1 := store.SettlePayment(Some("sess_1"), sessions, Clock(1, 2, 3));
    assert ParseObjectId(id) == Some(id) by {
      assert forall i :: 0 <= i < 24 ==> IsLowerHex(id[i]);
      ParseLowerHex(id);
    }
    assert r1.Settled? && r1.receipt.amount == 500.0;
    assert store.applications[id].status == "approved" && store.applications[id].paidAmount == Some(500.0);
    assert |store.payments| == 1;
    var r2 := store.SettlePayment(Some("sess_1"), sessions, Clock(9, 9, 9));
    assert r2 == AlreadyProcessed(r1.receipt);
    assert |store.payments| == 1;
  }
}
