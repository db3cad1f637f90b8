# eTution server core: authorization gate and payment settlement

A Dafny model of the two pieces of decision logic in the eTution marketplace
server (`index.js`, an Express application over MongoDB, Firebase
authentication and Stripe checkout).

- **Authorization gate** (`header.dfy`, `gate.dfy`, `users.dfy`).
  - `verifyFBToken` takes the second space-separated segment of the
    `Authorization` header and asks the identity oracle about it. The oracle is
    a function parameter `string -> Option<Claims>`.
  - `verifyAdmin` lets a request through only when the stored user's `role` is
    `"admin"`.
  - The self-profile routes compare the path email with the verified email.
  - The decisions are pure functions returning `Unauthorized | Forbidden | Allowed`.
    The users collection is a `map` keyed by email.
  - The same files hold registration (an insert that does nothing for a taken
    email), the public role lookup with its `"student"` default, the profile view
    and the profile patch.
- **Settlement** (`settlement.dfy`, `tracking.dfy`).
  - `PATCH /payment-success` resolves a checkout session through the payment
    provider, modelled as a `map` from session id to session.
  - It then looks the session's payment intent (the transaction id) up in the
    payments ledger. A row found there is reported back unchanged.
  - Otherwise it approves the application and appends one ledger row. The
    tracking id is `"ETU-"` followed by the clock reading in base 36.
  - `Settle` is the specification of one call. Lemmas cover repeated calls, the
    ledger invariant and the amount round trip through `/create-checkout-session`.
- **Store** (`store.dfy`). A class holding `users`, `applications` and
  `payments`. Its methods `Register`, `PatchProfile` and `SettlePayment` update
  the collections step by step, in the handler's order. They are proved equal to
  the specification functions, and they keep the ledger invariant `Valid()`.

The clock readings of a settlement (`Date.now()`, `new Date()`) are parameters of type `Clock`; registration and the profile view take their `new Date()` as a `now: int` parameter.
The two oracles are parameters. Amounts are integers in minor units (poisha) at
the provider. The recorded amount is `amountTotal / 100` as an exact `real`.

Behaviours of the code that the model keeps and states as lemmas:

- The header's scheme word is never checked. `Basic t` authenticates like
  `Bearer t` (`Header.SchemeNotChecked`).
- A new user's `role` comes from the registration body. The owner's profile
  patch can also overwrite it. So a caller can make themselves admin
  (`Gate.RegistrationCanClaimAdmin`, `Gate.ProfilePatchCanClaimAdmin`).
- Idempotency is keyed on the ledger only. A second session for an
  already-paid application, with a new payment intent, overwrites the
  application's transaction id and adds a second row for it
  (`Settlement.TransactionIdNotFinal`).
- The settlement route does not check that the session was paid. A session
  without a payment intent is keyed by `null`. After the first such session,
  every later one is answered from that row (`Settlement.MissingIntentSharesOneRow`).
- An unknown session id is a 500 (the provider call throws), not a 400
  (`Settlement.BadSessionChangesNothing`).
- An `applicationId` that is not 24 hexadecimal digits is also a 500. That check
  happens after the ledger lookup and before any write
  (`Settlement.InvalidIdChangesNothing`).
- An `applicationId` that names no stored application still gets a ledger row.
  The update matches nothing.
- `/payment-success` has no authentication middleware.

## Model

| member | source | states |
|---|---|---|
| `Header.Split` | index.js:40 | `split(" ")` yields at least one segment, and no segment contains a space |
| `Header.JoinSplit` | index.js:40 | joining the segments with single spaces gives back the header |
| `Header.SplitPrefix` | index.js:40 | a space-free prefix extends the first segment and leaves the rest alone |
| `Header.SplitJoin` | index.js:40 | space-free segments joined with spaces split back into exactly those segments |
| `Header.TokenOf` | index.js:40 | a token, when there is one, is the space-free second segment (`[1]`) of the header split on single spaces |
| `Header.TokenIsSecondWord` | index.js:40 | for a header `<scheme> <token>` followed by nothing or by a space, the token extracted is exactly `token` |
| `Header.TokenIffSpace` | index.js:40 | a token segment `[1]` exists exactly when the header contains a space |
| `Header.SchemeNotChecked` | index.js:40 | `<scheme> <token>` yields `token` whatever the scheme word is |
| `Gate.Authenticate` | index.js:32-48 | an absent or empty header is a 401; success needs a space in the header and equals the oracle's answer for the header's second segment |
| `Gate.AuthenticateSecondWord` | index.js:40-42 | any header `<scheme> <token><rest>` whose rest is empty or starts with a space is judged by the oracle on `token` alone |
| `Gate.AuthenticateToken` | index.js:40-42 | a `<scheme> <token>` header authenticates exactly as the oracle judges `token`, so the recorded email is the oracle's |
| `Gate.MissingHeader` | index.js:33-37 | a missing or empty header is a 401 on admin and self-profile routes, whatever the oracle would say |
| `Gate.VerifyAdmin` | index.js:74-92 | 401 exactly when no (or an empty) verified email; allowed exactly when a stored user has role `"admin"`; otherwise 403 |
| `Gate.OwnerCheck` | index.js:145-147 | never 401; allowed exactly when the verified email equals the path email |
| `Gate.AdminRoute` | index.js:635-639 | 401 exactly when authentication fails or yields no (or an empty) email; allowed exactly when that email's stored role is `"admin"`; otherwise 403 |
| `Gate.SelfRoute` | index.js:140-147 | 401 exactly when authentication fails; allowed exactly when the verified email equals the path email; otherwise 403 |
| `Gate.UnauthorizedFirst` | index.js:32-48 | a failed authentication is a 401 on every gated route; a 403 implies the caller was authenticated |
| `Gate.AdminMatchesRoleLookup` | index.js:81-87 | for an authenticated email, the admin gate allows exactly when the role lookup reports `"admin"`, and is 403 otherwise |
| `Gate.TokenRoleIgnored` | index.js:81-84 | oracles that agree on which tokens pass and on their email give the same admin verdict, whatever role claims the tokens carry |
| `Gate.OtherProfileForbidden` | index.js:177-179 | a caller authenticated as another email gets 403 on `/users/:email` |
| `Gate.ReadProfile` | index.js:140-164 | refused exactly when the self-route gate refuses, with that verdict; otherwise returns the stored or default profile |
| `Gate.DeniedReadIgnoresStore` | index.js:145-149 | a refused read gives the same answer for every users collection (the store is not consulted) |
| `Gate.RegistrationCanClaimAdmin` | index.js:97-109 | a new registration with `role: "admin"` passes `verifyAdmin` afterwards |
| `Gate.ProfilePatchCanClaimAdmin` | index.js:181-188 | an owner's patch with `role: "admin"` passes `verifyAdmin` afterwards |
| `Users.Admitted` | index.js:106-109 | the inserted document has `status = "active"`, `createdAt = now`, the body's role and the body's other fields, and no field beyond the body's plus `status` |
| `Users.RegisterOutcome` | index.js:99-104 | the answer is "already exists" exactly when the email is registered |
| `Users.Registered` | index.js:99-110 | the keys gain exactly the body's email; every existing user is unchanged; a new email gets the admitted document |
| `Users.RegisteredSize` | index.js:99-110 | registration inserts one document for a new email and none otherwise |
| `Users.RegisterIdempotent` | index.js:99-104 | registering the same email again, with any body at any time, reports "already exists" and changes nothing |
| `Users.RoleOf` | index.js:120-132 | any answer other than `"student"` is the stored role of a stored user; the answer is never empty |
| `Users.RoleDefault` | index.js:125-132 | `"student"` when the user is absent or the role is missing or empty; otherwise the stored role |
| `Users.DefaultProfile` | index.js:151-161 | the default profile has exactly the fields name, photoURL, phone (all empty), role `"student"` and status `"active"`, with `createdAt = now` |
| `Users.ProfileView` | index.js:149-164 | the stored document when present, otherwise the full default document stamped `now` |
| `Users.Patched` | index.js:181-188 | every updated field takes the update's value; fields not in the update keep theirs; `createdAt` is kept |
| `Users.PatchedUsers` | index.js:183-188 | only the document under that email changes, and the set of emails is unchanged |
| `Tracking.Base36` | index.js:535 | the rendering is non-empty, uses only 0-9 and A-Z, and has no leading zero for `n >= 36` |
| `Tracking.DecodeBase36` | index.js:535 | decoding the base-36 rendering gives the clock reading back |
| `Tracking.TrackingId` | index.js:535 | the id is `"ETU-"` followed by base-36 digits |
| `Tracking.TrackingIdInjective` | index.js:535 | two tracking ids are equal exactly when their clock readings are equal |
| `Settlement.Response.Code` | index.js:504-572 | the status is 200 exactly for the already-processed and settled answers, 400 exactly for a missing session id or missing application info, 500 exactly for a failed session lookup or a malformed application id |
| `Settlement.ParseObjectId` | index.js:537 | accepts exactly 24 hexadecimal digits; the result keeps each lower-case digit and maps each of `A`-`F` to its lower-case letter |
| `Settlement.ParseLowerHex` | index.js:537 | a lower-case 24-digit id parses to itself |
| `Settlement.ParseCanonical` | index.js:537 | a parsed id parses to itself |
| `Settlement.FindPayment` | index.js:522-524 | a found row is in the ledger with that transaction id; nothing is found exactly when no row has it |
| `Settlement.FindAppended` | index.js:522-526 | after appending a row for a new transaction id, the lookup finds that row |
| `Settlement.CountNone` | index.js:522-526 | a transaction id the lookup does not find has no ledger rows |
| `Settlement.Approved` | index.js:538-547 | the application becomes approved and paid, with the transaction id, tracking id, amount and paid time; other fields are kept |
| `Settlement.Recorded` | index.js:544 | the recorded amount times 100 is `amount_total`; a multiple of 100 gives its whole-unit quotient |
| `Settlement.ApplicationRef` | index.js:511 | no metadata gives no application id; with metadata the result is exactly the metadata's `applicationId` |
| `Settlement.ReceiptFor` | index.js:564-569 | the response carries the payment intent, the fresh tracking id, and an amount that is `amount_total / 100` |
| `Settlement.RecordFor` | index.js:551-562 | the ledger row carries the response's values, the application id, the currency and the session's emails |
| `Settlement.ApproveIn` | index.js:537-549 | only the referenced application changes, to its approved form; an unknown id changes nothing |
| `Settlement.Settle` | index.js:501-574 | errors and the already-processed answer change nothing; the ledger is only appended to, by one row exactly when settled, and that row's transaction id was absent and matches the response |
| `Settlement.BadSessionChangesNothing` | index.js:503-520 | a missing session id is a 400; an unknown session is answered `SessionLookupFailed` (500); a session without `applicationId` is a 400; none of them changes anything |
| `Settlement.InvalidIdChangesNothing` | index.js:535-537 | a session whose transaction is not in the ledger but whose `applicationId` is not a valid object id is a 500 and changes nothing |
| `Settlement.SettledExactly` | index.js:503-562 | the answer is `Settled` exactly when the session resolves, its transaction is not yet recorded and its application id parses |
| `Settlement.AlreadyProcessedChangesNothing` | index.js:522-533 | a transaction id already in the ledger is answered with that row's transaction id, tracking id and amount, and nothing changes |
| `Settlement.FirstSettlement` | index.js:535-569 | a first settlement reports the session's receipt, appends exactly that one row, approves the referenced application, and leaves one row for the transaction id |
| `Settlement.SettleTwice` | index.js:522-533 | a second call with the same session changes nothing and reports the first call's receipt (or the same error) |
| `Settlement.SettleRepeated` | index.js:522-562 | after any number of further calls, the store is as the first call left it, and each call reports the first receipt |
| `Settlement.SettleKeepsUnique` | index.js:522-562 | settlement keeps at most one ledger row per transaction id |
| `Settlement.SettleKeepsPaid` | index.js:538-562 | settlement keeps every ledger row's existing application approved and paid |
| `Settlement.TransactionIdNotFinal` | index.js:537-549 | a new payment intent for an already-paid application overwrites its transaction id and adds a second row for it |
| `Settlement.MissingIntentSharesOneRow` | index.js:514-533 | with a `null`-intent row in the ledger, every `null`-intent session is answered from a row and changes nothing |
| `Settlement.CreateCheckout` | index.js:452-490 | 401 exactly on failed authentication; created exactly when the four fields are present and the amount is non-zero; then `unit_amount = amount * 100` in `"bdt"`, quantity 1, with the metadata |
| `Settlement.CheckoutRoundTrip` | index.js:478 | a checkout for `A` units that is paid and then settled records `A`, sets `paidAmount = A` and approves the application |
| `Store.Store.constructor` | index.js:66-70 | the store holds the given collections and satisfies the ledger invariant |
| `Store.Store.Register` | index.js:95-117 | users become `Registered(old users)`; the answer is `RegisterOutcome`; other collections are unchanged; the invariant holds |
| `Store.Store.PatchProfile` | index.js:172-194 | the verdict is the self-route gate's; users are unchanged unless allowed, and then patched; other collections are unchanged |
| `Store.Store.SettlePayment` | index.js:501-574 | the two writes give `Settle`'s collections and response; users are unchanged; the ledger invariant is kept |

## Left out

- Express routing, CORS, dotenv and server start-up are not modelled. Neither is the MongoDB connection (index.js:1-29, 51-66, 707-713). This is plumbing.
- Firebase token cryptography is not modelled. The identity oracle is a function parameter.
- The Stripe API calls are not modelled. `CreateCheckout` returns the parameters it would send. The provider's sessions are a map. `PaidSession` is what the provider is taken to hand back after payment.
- Time is not modelled. The three clock readings of a settlement are parameters.
- Floating point is not modelled. `amount_total / 100` is exact `real` division. The checkout amount is a whole-unit integer, so `Number(amount)` of strings or fractions is not modelled.
- Stripe's own rejection of non-positive amounts is not modelled.
- Concurrency is not modelled. Two concurrent settlements of one transaction can both miss the ledger lookup, because there is no uniqueness constraint or lock. A crash between the application update and the ledger insert is not modelled either. All modelled calls are sequential.
- Database and oracle failures are not modelled. These are the 500 answers of every `catch` block, including `verifyAdmin`'s.
- Search, list, sort and report routes are not modelled: tuitions, applications, tutors, payment history and the admin report sum. Neither are the tuition routes, application creation, or the generic `$set` and delete routes for tuitions, applications and admin users. They are store passthroughs with no rule of their own. The admin gate in front of those routes is modelled (`Gate.AdminRoute`).
- The store's collections start as given to the constructor. No method creates applications.
- `Users.Patched`: an update key `email` or `createdAt` is dropped rather than applied. The users map is keyed by email, so re-keying a document is not modelled.
- `Users.Patched`: field values are strings. Non-string JSON values in a body or update are not modelled.
- `Users.Registered`: a registration body without an email is not modelled. `NewUser.email` is always a string.
- Response bodies are reduced to their decision. Examples are `insertedId`, the `updateOne` result document and the message strings.
- `Settlement.ParseObjectId`: only the 24-hexadecimal-digit string form of `new ObjectId` is modelled.
- A repeated `session_id` query parameter (an array in Express) is not modelled.
