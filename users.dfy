/**
 * The users collection, keyed by email: registration (an insert that is a no-op
 * when the email is taken), the public role lookup with its `"student"` default,
 * the self-profile view with its default document, and the `$set` profile patch.
 */
module Users {
  import opened Wrappers

  /**
   * A stored user document. The email is the key of the collection; `fields` holds
   * the document's string fields (`role`, `status`, `name`, `phone`, ...).
   */
  datatype User = User(fields: map<string, string>, createdAt: Option<int>)
  {
    /** The stored `role` field, if any. */
    function Role(): Option<string>
    {
      if "role" in fields then Some(fields["role"]) else None
    }
  }

  /** The body of a registration request. */
  datatype NewUser = NewUser(email: string, fields: map<string, string>)

  datatype Registration = AlreadyExists | Inserted

  /** The document inserted for a new registration: the body, `createdAt = now`, `status = "active"`. */
  function Admitted(body: NewUser, now: int): (u: User)
    ensures "status" in u.fields && u.fields["status"] == "active" && u.createdAt == Some(now)
    ensures u.Role() == (if "role" in body.fields then Some(body.fields["role"]) else None)
    ensures forall k :: k in body.fields && k !in {"email", "createdAt", "status"} ==>
              k in u.fields && u.fields[k] == body.fields[k]
    ensures u.fields.Keys == (body.fields.Keys - {"email", "createdAt"}) + {"status"}
  {
    User((body.fields - {"email", "createdAt"})["status" := "active"], Some(now))
  }

  /** The outcome of `POST /users` (index.js:99-110). */
  function RegisterOutcome(users: map<string, User>, body: NewUser): (r: Registration)
    ensures r == AlreadyExists <==> body.email in users
  {
    if body.email in users then AlreadyExists else Inserted
  }

  /** The users collection after `POST /users` (index.js:99-110). */
  function Registered(users: map<string, User>, body: NewUser, now: int): (r: map<string, User>)
    ensures r.Keys == users.Keys + {body.email}
    ensures forall e :: e in users ==> r[e] == users[e]
    ensures body.email !in users ==> r[body.email] == Admitted(body, now)
  {
    if body.email in users then users else users[body.email := Admitted(body, now)]
  }

  /** Registration inserts at most one document, and exactly one for a new email. */
  lemma RegisteredSize(users: map<string, User>, body: NewUser, now: int)
    ensures |Registered(users, body, now)| == |users| + (if body.email in users then 0 else 1)
  {
    var r := Registered(users, body, now);
    if body.email !in users {
      assert r.Keys == users.Keys + {body.email};
      assert |r.Keys| == |users.Keys| + 1;
    }
  }

  /** Registering an email a second time, with any body at any time, changes nothing. */
  lemma RegisterIdempotent(users: map<string, User>, first: NewUser, again: NewUser, t1: int, t2: int)
    requires again.email == first.email
    ensures RegisterOutcome(Registered(users, first, t1), again) == AlreadyExists
    ensures Registered(Registered(users, first, t1), again, t2) == Registered(users, first, t1)
  {
  }

  /** `GET /users/role/:email`: the stored role, or `"student"` when absent or empty (index.js:123-132). */
  function RoleOf(users: map<string, User>, email: string): (role: string)
    ensures role != "student" ==> email in users && users[email].Role() == Some(role)
    ensures role != ""
  {
    if email !in users then "student"
    else match users[email].Role()
      case Some(r) => if r == "" then "student" else r
      case None => "student"
  }

  /** The role lookup falls back to `"student"` exactly when no usable role is stored. */
  lemma RoleDefault(users: map<string, User>, email: string)
    ensures email !in users ==> RoleOf(users, email) == "student"
    ensures email in users && users[email].Role() in {None, Some("")} ==> RoleOf(users, email) == "student"
    ensures email in users && users[email].Role().Some? && users[email].Role() != Some("") ==>
              RoleOf(users, email) == users[email].Role().value
  {
  }

  /** The document shown when the caller has no stored profile yet (index.js:151-161). */
  function DefaultProfile(now: int): (u: User)
    ensures u.Role() == Some("student") && "status" in u.fields && u.fields["status"] == "active"
    ensures u.createdAt == Some(now)
    ensures u.fields.Keys == {"name", "photoURL", "phone", "role", "status"}
    ensures forall k :: k in u.fields && k !in {"role", "status"} ==> u.fields[k] == ""
  {
    User(map["name" := "", "photoURL" := "", "phone" := "", "role" := "student", "status" := "active"], Some(now))
  }

  /** The profile `GET /users/:email` returns once the caller owns it (index.js:149-164). */
  function ProfileView(users: map<string, User>, email: string, now: int): (u: User)
    ensures email in users ==> u == users[email]
    ensures email !in users ==> u == DefaultProfile(now)
  {
    if email in users then users[email] else DefaultProfile(now)
  }

  /** The stored document after `$set: update`: every string field of the update overwrites its field. */
  function Patched(u: User, update: map<string, string>): (v: User)
    ensures v.createdAt == u.createdAt
    ensures forall k :: k in update && k !in {"email", "createdAt"} ==> k in v.fields && v.fields[k] == update[k]
    ensures forall k :: k in u.fields && k !in update ==> k in v.fields && v.fields[k] == u.fields[k]
    ensures v.fields.Keys == u.fields.Keys + (update.Keys - {"email", "createdAt"})
  {
    User(u.fields + (update - {"email", "createdAt"}), u.createdAt)
  }

  /** The users collection after `updateOne({email}, {$set: update})` (index.js:183-188). */
  function PatchedUsers(users: map<string, User>, email: string, update: map<string, string>): (r: map<string, User>)
    ensures r.Keys == users.Keys
    ensures forall e :: e in users && e != email ==> r[e] == users[e]
    ensures email in users ==> r[email] == Patched(users[email], update)
  {
    if email in users then users[email := Patched(users[email], update)] else users
  }
}
