/**
 * The authorization gate: `verifyFBToken` (authentication from the `Authorization`
 * header through an identity oracle), `verifyAdmin` (the stored role decides), and
 * the self-profile ownership comparison. Each is a decision over its inputs plus at
 * most one read of the users collection; none of them writes.
 */
module Gate {
  import opened Wrappers
  import Header
  import Users

  /**
   * What the identity oracle returns for a token it accepts. The email claim can be
   * absent; `role` stands for any custom claim the token may carry, which the server
   * never reads.
   */
  datatype Claims = Claims(email: Option<string>, role: Option<string>)

  /** The identity oracle: `admin.auth().verifyIdToken`, `None` when it rejects the token. */
  type Oracle = string -> Option<Claims>

  /** 401, 403, or the request reaches its handler. */
  datatype Verdict = Unauthorized | Forbidden | Allowed

  /**
   * `verifyFBToken` (index.js:32-48): `None` is a 401; `Some(c)` means the handler runs
   * with `req.decoded_email = c.email`. An absent or empty header is refused before the
   * oracle is called. A header without a second segment makes the server call the oracle
   * with `undefined`, which throws; the model folds that rejection into `None` directly.
   */
  function Authenticate(header: Option<string>, verify: Oracle): (caller: Option<Claims>)
    ensures header.None? || header == Some("") ==> caller.None?
    ensures caller.Some? ==> header.Some? && ' ' in header.value
    ensures caller.Some? ==> exists token :: verify(token) == caller
    ensures caller.Some? ==> Header.TokenOf(header.value).Some? && verify(Header.TokenOf(header.value).value) == caller
  {
    if header.None? || header.value == "" then None
    else
      Header.TokenIffSpace(header.value);
      match Header.TokenOf(header.value)
      case None => None
      case Some(token) => verify(token)
  }

  /** A `<scheme> <token>` header authenticates exactly as the oracle judges `token`. */
  lemma {:induction false} AuthenticateToken(scheme: string, token: string, verify: Oracle)
    requires ' ' !in scheme && ' ' !in token
    ensures Authenticate(Some(scheme + " " + token), verify) == verify(token)
  {
    Header.SchemeNotChecked(scheme, token);
    assert (scheme + " " + token)[|scheme|] == ' ';
  }

  /** Any header `<scheme> <token>[ <more>]` authenticates as the oracle judges its second word. */
  lemma {:induction false} AuthenticateSecondWord(scheme: string, token: string, rest: string, verify: Oracle)
    requires ' ' !in scheme && ' ' !in token
    requires rest == [] || rest[0] == ' '
    ensures Authenticate(Some(scheme + " " + token + rest), verify) == verify(token)
  {
    Header.TokenIsSecondWord(scheme, token, rest);
    assert (scheme + " " + token + rest)[|scheme|] == ' ';
  }

  /** `verifyAdmin` (index.js:74-92), given `req.decoded_email` and the users collection. */
  function VerifyAdmin(decodedEmail: Option<string>, users: map<string, Users.User>): (v: Verdict)
    ensures v == Unauthorized <==> decodedEmail.None? || decodedEmail == Some("")
    ensures v == Allowed <==> decodedEmail.Some? && decodedEmail.value != "" &&
                              decodedEmail.value in users && users[decodedEmail.value].Role() == Some("admin")
  {
    if decodedEmail.None? || decodedEmail.value == "" then Unauthorized
    else if decodedEmail.value !in users || users[decodedEmail.value].Role() != Some("admin") then Forbidden
    else Allowed
  }

  /** The ownership comparison `email !== req.decoded_email` (index.js:145-147, index.js:177-179). */
  function OwnerCheck(decodedEmail: Option<string>, pathEmail: string): (v: Verdict)
    ensures v != Unauthorized
    ensures v == Allowed <==> decodedEmail == Some(pathEmail)
  {
    if decodedEmail == Some(pathEmail) then Allowed else Forbidden
  }

  /** An admin-only route: `verifyFBToken` then `verifyAdmin` (e.g. index.js:622, index.js:657-660). */
  function AdminRoute(header: Option<string>, verify: Oracle, users: map<string, Users.User>): (v: Verdict)
    ensures v == Unauthorized <==>
              Authenticate(header, verify).None? || Authenticate(header, verify).value.email in {None, Some("")}
    ensures v == Allowed <==>
              && Authenticate(header, verify).Some?
              && var email := Authenticate(header, verify).value.email;
                 email.Some? && email.value != "" && email.value in users && users[email.value].Role() == Some("admin")
  {
    match Authenticate(header, verify)
    case None => Unauthorized
    case Some(c) => VerifyAdmin(c.email, users)
  }

  /** `GET`/`PATCH /users/:email`: `verifyFBToken` then the ownership comparison (index.js:140-147, index.js:172-179). */
  function SelfRoute(header: Option<string>, verify: Oracle, pathEmail: string): (v: Verdict)
    ensures v == Unauthorized <==> Authenticate(header, verify).None?
    ensures v == Allowed <==> Authenticate(header, verify).Some? && Authenticate(header, verify).value.email == Some(pathEmail)
  {
    match Authenticate(header, verify)
    case None => Unauthorized
    case Some(c) => OwnerCheck(c.email, pathEmail)
  }

  /** A failed authentication is a 401 on every gated route, before any role or ownership check. */
  lemma UnauthorizedFirst(header: Option<string>, verify: Oracle, users: map<string, Users.User>, pathEmail: string)
    ensures Authenticate(header, verify).None? ==>
              AdminRoute(header, verify, users) == Unauthorized && SelfRoute(header, verify, pathEmail) == Unauthorized
    ensures AdminRoute(header, verify, users) == Forbidden ==> Authenticate(header, verify).Some?
    ensures SelfRoute(header, verify, pathEmail) == Forbidden ==> Authenticate(header, verify).Some?
  {
  }

  /** A missing header is a 401 whatever the oracle would have said. */
  lemma MissingHeader(verify: Oracle, users: map<string, Users.User>, pathEmail: string)
    ensures AdminRoute(None, verify, users) == Unauthorized
    ensures SelfRoute(None, verify, pathEmail) == Unauthorized
    ensures AdminRoute(Some(""), verify, users) == Unauthorized
    ensures SelfRoute(Some(""), verify, pathEmail) == Unauthorized
  {
  }

  /**
   * An authenticated caller with an email passes the admin gate exactly when the
   * public role lookup reports `"admin"` for that email; otherwise the answer is 403.
   */
  lemma AdminMatchesRoleLookup(header: Option<string>, verify: Oracle, users: map<string, Users.User>, email: string)
    requires Authenticate(header, verify).Some? && Authenticate(header, verify).value.email == Some(email)
    requires email != ""
    ensures AdminRoute(header, verify, users) == Allowed <==> Users.RoleOf(users, email) == "admin"
    ensures AdminRoute(header, verify, users) != Allowed ==> AdminRoute(header, verify, users) == Forbidden
  {
    Users.RoleDefault(users, email);
  }

  /**
   * Only the stored role decides: two oracles that accept the same tokens with the same
   * email claim give the same admin verdict, whatever role claims their tokens carry.
   */
  lemma TokenRoleIgnored(header: Option<string>, verify: Oracle, forged: Oracle, users: map<string, Users.User>)
    requires forall t :: verify(t).Some? <==> forged(t).Some?
    requires forall t :: verify(t).Some? ==> forged(t).value.email == verify(t).value.email
    ensures AdminRoute(header, verify, users) == AdminRoute(header, forged, users)
  {
  }

  /** A caller authenticated as someone other than the path email is always refused with 403. */
  lemma OtherProfileForbidden(header: Option<string>, verify: Oracle, pathEmail: string, callerEmail: string)
    requires Authenticate(header, verify).Some?
    requires Authenticate(header, verify).value.email == Some(callerEmail)
    requires callerEmail != pathEmail
    ensures SelfRoute(header, verify, pathEmail) == Forbidden
  {
  }

  datatype ProfileRead = ReadDenied(verdict: Verdict) | ReadOk(profile: Users.User)

  /** `GET /users/:email` (index.js:140-164); `now` is the `new Date()` of the default document. */
  function ReadProfile(header: Option<string>, verify: Oracle, users: map<string, Users.User>,
                       pathEmail: string, now: int): (r: ProfileRead)
    ensures r.ReadDenied? <==> SelfRoute(header, verify, pathEmail) != Allowed
    ensures r.ReadDenied? ==> r.verdict == SelfRoute(header, verify, pathEmail)
    ensures r.ReadOk? ==> r.profile == Users.ProfileView(users, pathEmail, now)
  {
    var v := SelfRoute(header, verify, pathEmail);
    if v != Allowed then ReadDenied(v) else ReadOk(Users.ProfileView(users, pathEmail, now))
  }

  /** A refused read never looks at the store: its answer is the same for every users collection. */
  lemma DeniedReadIgnoresStore(header: Option<string>, verify: Oracle, users: map<string, Users.User>,
                               other: map<string, Users.User>, pathEmail: string, now: int)
    requires ReadProfile(header, verify, users, pathEmail, now).ReadDenied?
    ensures ReadProfile(header, verify, other, pathEmail, now) == ReadProfile(header, verify, users, pathEmail, now)
  {
  }

  /**
   * The registration body is stored as sent, so a new user who sends `role: "admin"`
   * passes `verifyAdmin` afterwards: the code does not reserve the role to admins.
   */
  lemma RegistrationCanClaimAdmin(users: map<string, Users.User>, body: Users.NewUser, now: int)
    requires body.email !in users && body.email != ""
    requires "role" in body.fields && body.fields["role"] == "admin"
    ensures VerifyAdmin(Some(body.email), Users.Registered(users, body, now)) == Allowed
  {
  }

  /** Likewise the owner's own profile patch can set `role: "admin"` (index.js:181-188). */
  lemma ProfilePatchCanClaimAdmin(users: map<string, Users.User>, email: string, update: map<string, string>)
    requires email in users && email != ""
    requires "role" in update && update["role"] == "admin"
    ensures VerifyAdmin(Some(email), Users.PatchedUsers(users, email, update)) == Allowed
  {
  }
}
