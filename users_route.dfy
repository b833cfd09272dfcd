/** The user-management endpoint: the POST (create), PUT (update) and DELETE
    handlers, each an early-return ladder of authentication, the admin-role
    check, input validation and the calls into the authentication backend.
    The backend's answers are parameters; every handler returns the reply
    and the backend calls it made, in order. */
module UserAdminApi {
  import opened Wrappers
  import opened Text

  /** The signed-in user (`auth.getUser()`), None when there is none, and the
      `role` column of that user's profile, None when there is no profile. */
  datatype Caller = Caller(userId: Option<string>, role: Option<string>)

  /** A field of the JSON body: absent from the object, present as `null`,
      or a string. The difference matters to the profile update, where an
      absent field leaves its column alone and `null` clears it. */
  datatype Field = Missing | Null | Value(text: string)

  /** JavaScript truthiness of a body field: a string that is not empty. */
  predicate Filled(f: Field)
  {
    f.Value? && f.text != ""
  }

  /** The field as a nullable column value: absent and `null` both give NULL. */
  function AsOption(f: Field): (r: Option<string>)
    ensures r.Some? <==> f.Value?
    ensures r.Some? ==> r.value == f.text
  {
    if f.Value? then Some(f.text) else None
  }

  /** The JSON body fields. */
  datatype UserBody = UserBody(
    id: Field,
    email: Field,
    password: Field,
    fullName: Field,
    niy: Field,
    phone: Field,
    role: Field)

  /** The profile row written after a user is created. */
  datatype Profile = Profile(
    id: string,
    email: string,
    fullName: string,
    niy: Option<string>,
    phone: Option<string>,
    role: string)

  /** A call into the authentication backend or the profiles table. */
  datatype Effect =
    | CreateAuthUser(email: string, password: string, fullName: string)
    | UpsertProfile(profile: Profile)
    | UpdateAuthUser(userId: string, updates: map<string, string>)
    | UpdateProfile(userId: string, name: Field, niy: Field, phone: Field, role: Field)
    | DeleteAuthUser(userId: string)

  /** The HTTP status and the `error` or `message` text of the JSON reply. */
  datatype Reply = Reply(status: int, text: string)

  datatype Outcome = Outcome(reply: Reply, effects: seq<Effect>)

  const Unauthorized := Reply(401, "Unauthorized")
  const Forbidden := Reply(403, "Forbidden: Admin access required")

  /** JavaScript truthiness of an optional string: present and not empty. */
  predicate Truthy(s: Option<string>)
  {
    s.Some? && s.value != ""
  }

  /** `profile?.role !== 'admin'` fails only for exactly 'admin' (case matters). */
  predicate IsAdmin(c: Caller)
  {
    c.role == Some("admin")
  }

  /** The first two rungs every handler shares: 401 without a user, then 403
      unless the caller's role is 'admin'; None lets the handler go on. */
  function Gate(c: Caller): (r: Option<Reply>)
    ensures r.None? <==> c.userId.Some? && IsAdmin(c)
    ensures c.userId.None? ==> r == Some(Unauthorized)
    ensures c.userId.Some? && !IsAdmin(c) ==> r == Some(Forbidden)
  {
    if c.userId.None? then Some(Unauthorized)
    else if !IsAdmin(c) then Some(Forbidden)
    else None
  }

  // ---------------------------------------------------------------------------
  // POST

  /** The POST handler. `serviceKeySet` is whether the service-role key is
      configured; `createError` and `newUserId` are what `createUser` answers;
      `profileError` is what the profile upsert answers. */
  function Post(c: Caller, body: UserBody, serviceKeySet: bool, createError: Option<string>,
                newUserId: Option<string>, profileError: Option<string>): (r: Outcome)
    ensures Gate(c).Some? ==> r == Outcome(Gate(c).value, [])
    ensures Gate(c).None? && !(Filled(body.email) && Filled(body.password) && Filled(body.fullName))
            ==> r == Outcome(Reply(400, "Missing required fields"), [])
    ensures r.effects != [] ==> c.userId.Some? && IsAdmin(c) && serviceKeySet
    ensures r.effects != [] ==> r.effects[0] == CreateAuthUser(body.email.text, body.password.text, body.fullName.text)
    ensures |r.effects| <= 2
    ensures |r.effects| == 2 ==>
              && newUserId.Some?
              && r.effects[1] == UpsertProfile(Profile(newUserId.value, body.email.text, body.fullName.text,
                                                       AsOption(body.niy), AsOption(body.phone), Or(AsOption(body.role), "user")))
    ensures r.reply.status == 200 <==>
              && Gate(c).None? && Filled(body.email) && Filled(body.password) && Filled(body.fullName)
              && serviceKeySet && createError.None? && newUserId.Some? && profileError.None?
    ensures r.reply.status == 200 ==> |r.effects| == 2
  {
    if Gate(c).Some? then Outcome(Gate(c).value, [])
    else if !Filled(body.email) || !Filled(body.password) || !Filled(body.fullName) then
      Outcome(Reply(400, "Missing required fields"), [])
    else if !serviceKeySet then
      Outcome(Reply(500, "Server Configuration Error: SUPABASE_SERVICE_ROLE_KEY is missing in .env.local"), [])
    else
      var create := CreateAuthUser(body.email.text, body.password.text, body.fullName.text);
      if createError.Some? then Outcome(Reply(400, createError.value), [create])
      else if newUserId.None? then Outcome(Reply(500, "Failed to create user"), [create])
      else
        var profile := Profile(newUserId.value, body.email.text, body.fullName.text,
                               AsOption(body.niy), AsOption(body.phone), Or(AsOption(body.role), "user"));
        var effects := [create, UpsertProfile(profile)];
        if profileError.Some? then Outcome(Reply(500, "User created but profile failed: " + profileError.value), effects)
        else Outcome(Reply(200, "User created successfully"), effects)
  }

  /** The stored role is the requested one when given, 'user' otherwise. */
  lemma CreatedRole(c: Caller, body: UserBody, createError: Option<string>, newUserId: Option<string>,
                    profileError: Option<string>)
    requires |Post(c, body, true, createError, newUserId, profileError).effects| == 2
    ensures var p := Post(c, body, true, createError, newUserId, profileError).effects[1].profile;
            (Filled(body.role) ==> p.role == body.role.text) && (!Filled(body.role) ==> p.role == "user")
  {
  }

  // ---------------------------------------------------------------------------
  // PUT

  /** `authUpdates`: exactly the given (truthy) email, password and full name,
      the last under `user_metadata`. */
  function AuthUpdatesOf(body: UserBody): (u: map<string, string>)
    ensures u.Keys <= {"email", "password", "user_metadata"}
    ensures "email" in u <==> Filled(body.email)
    ensures "password" in u <==> Filled(body.password)
    ensures "user_metadata" in u <==> Filled(body.fullName)
    ensures "email" in u ==> u["email"] == body.email.text
    ensures "password" in u ==> u["password"] == body.password.text
    ensures "user_metadata" in u ==> u["user_metadata"] == body.fullName.text
    ensures |u| == 0 <==> !Filled(body.email) && !Filled(body.password) && !Filled(body.fullName)
  {
    var e := if Filled(body.email) then map["email" := body.email.text] else map[];
    var p := if Filled(body.password) then e["password" := body.password.text] else e;
    var m := if Filled(body.fullName) then p["user_metadata" := body.fullName.text] else p;
    assert Filled(body.email) ==> "email" in m;
    assert Filled(body.password) ==> "password" in m;
    m
  }

  /** The object built one conditional assignment at a time. */
  method BuildAuthUpdates(body: UserBody) returns (u: map<string, string>)
    ensures u == AuthUpdatesOf(body)
  {
    u := map[];
    if Filled(body.email) {
      u := u["email" := body.email.text];
    }
    if Filled(body.password) {
      u := u["password" := body.password.text];
    }
    if Filled(body.fullName) {
      u := u["user_metadata" := body.fullName.text];
    }
  }

  /** The PUT handler. `authError` is what `updateUserById` answers (it is
      thrown, so the reply is a 500 with its message); `profileError` is what
      the profile update answers. */
  function Put(c: Caller, body: UserBody, authError: Option<string>, profileError: Option<string>): (r: Outcome)
    ensures Gate(c).Some? ==> r == Outcome(Gate(c).value, [])
    ensures Gate(c).None? && !Filled(body.id) ==> r == Outcome(Reply(400, "User ID required"), [])
    ensures r.effects != [] ==> c.userId.Some? && IsAdmin(c) && Filled(body.id)
    ensures (exists k :: 0 <= k < |r.effects| && r.effects[k].UpdateAuthUser?)
            <==> Gate(c).None? && Filled(body.id) && |AuthUpdatesOf(body)| > 0
    ensures forall k :: 0 <= k < |r.effects| && r.effects[k].UpdateAuthUser? ==>
              r.effects[k] == UpdateAuthUser(body.id.text, AuthUpdatesOf(body))
    ensures forall k :: 0 <= k < |r.effects| && r.effects[k].UpdateProfile? ==>
              && k == |r.effects| - 1
              && r.effects[k] == UpdateProfile(body.id.text, body.fullName, body.niy, body.phone, body.role)
    ensures Gate(c).None? && Filled(body.id) && (|AuthUpdatesOf(body)| == 0 || authError.None?) ==>
              |r.effects| > 0
              && r.effects[|r.effects| - 1] == UpdateProfile(body.id.text, body.fullName, body.niy, body.phone, body.role)
    ensures r.reply.status == 200 <==> Gate(c).None? && Filled(body.id) && profileError.None?
                                       && (|AuthUpdatesOf(body)| == 0 || authError.None?)
  {
    if Gate(c).Some? then Outcome(Gate(c).value, [])
    else if !Filled(body.id) then Outcome(Reply(400, "User ID required"), [])
    else
      var id := body.id.text;
      var updates := AuthUpdatesOf(body);
      var authCalls := if |updates| > 0 then [UpdateAuthUser(id, updates)] else [];
      assert |updates| > 0 ==> authCalls[0].UpdateAuthUser?;
      if |updates| > 0 && authError.Some? then Outcome(Reply(500, authError.value), authCalls)
      else
        var effects := authCalls + [UpdateProfile(id, body.fullName, body.niy, body.phone, body.role)];
        assert |updates| > 0 ==> effects[0].UpdateAuthUser?;
        if profileError.Some? then Outcome(Reply(500, profileError.value), effects)
        else Outcome(Reply(200, "User updated successfully"), effects)
  }

  // ---------------------------------------------------------------------------
  // DELETE

  /** The DELETE handler; `id` is the `id` query parameter and `deleteError`
      what `deleteUser` answers (thrown, so a 500). */
  function Delete(c: Caller, id: Option<string>, deleteError: Option<string>): (r: Outcome)
    ensures Gate(c).Some? ==> r == Outcome(Gate(c).value, [])
    ensures Gate(c).None? && !Truthy(id) ==> r == Outcome(Reply(400, "User ID required"), [])
    ensures Gate(c).None? && Truthy(id) && id == c.userId ==> r == Outcome(Reply(400, "Cannot delete your own account"), [])
    ensures r.effects != [] ==> c.userId.Some? && IsAdmin(c) && Truthy(id) && id != c.userId
                                && r.effects == [DeleteAuthUser(id.value)]
    ensures Gate(c).None? && Truthy(id) && id != c.userId ==> r.effects == [DeleteAuthUser(id.value)]
    ensures r.reply.status == 200 <==> Gate(c).None? && Truthy(id) && id != c.userId && deleteError.None?
  {
    if Gate(c).Some? then Outcome(Gate(c).value, [])
    else if !Truthy(id) then Outcome(Reply(400, "User ID required"), [])
    else if id == c.userId then Outcome(Reply(400, "Cannot delete your own account"), [])
    else if deleteError.Some? then Outcome(Reply(500, deleteError.value), [DeleteAuthUser(id.value)])
    else Outcome(Reply(200, "User deleted successfully"), [DeleteAuthUser(id.value)])
  }

  /** Nobody but a signed-in admin changes anything, and an admin never
      deletes their own account. */
  lemma OnlyAdminsChangeUsers(c: Caller, body: UserBody, id: Option<string>, serviceKeySet: bool,
                              createError: Option<string>, newUserId: Option<string>,
                              authError: Option<string>, profileError: Option<string>,
                              deleteError: Option<string>)
    requires !(c.userId.Some? && IsAdmin(c))
    ensures Post(c, body, serviceKeySet, createError, newUserId, profileError).effects == []
    ensures Put(c, body, authError, profileError).effects == []
    ensures Delete(c, id, deleteError).effects == []
    ensures Post(c, body, serviceKeySet, createError, newUserId, profileError).reply.status in {401, 403}
    ensures Put(c, body, authError, profileError).reply.status in {401, 403}
    ensures Delete(c, id, deleteError).reply.status in {401, 403}
  {
  }

  // ---------------------------------------------------------------------------
  // The pages that call the endpoint

  /** The create-user form: its state keys are `email`, `password`,
      `full_name` and `role` (default 'staff'). */
  datatype CreateForm = CreateForm(email: string, password: string, fullName: string, role: string)

  /** The edit-user form: `email`, `full_name`, `role`, `password`. */
  datatype EditForm = EditForm(email: string, fullName: string, role: string, password: string)

  /** The body the create page posts, as written: it serialises the form
      state as is, so the name travels under `full_name` and the handler's
      `fullName` is missing. */
  function CreatePageBodyAsWritten(f: CreateForm): (b: UserBody)
    ensures b.fullName.Missing? && b.email == Value(f.email) && b.role == Value(f.role)
  {
    UserBody(Missing, Value(f.email), Value(f.password), Missing, Missing, Missing, Value(f.role))
  }

  /** As written, creating a user from the page is always refused with 400
      and nothing is created, whatever the form holds. */
  lemma CreatePageAlwaysRejected(c: Caller, f: CreateForm, serviceKeySet: bool, createError: Option<string>,
                                 newUserId: Option<string>, profileError: Option<string>)
    requires c.userId.Some? && IsAdmin(c)
    ensures Post(c, CreatePageBodyAsWritten(f), serviceKeySet, createError, newUserId, profileError)
         == Outcome(Reply(400, "Missing required fields"), [])
  {
  }

  /** The body the page evidently means to send: the name under `fullName`. */
  function CreatePageBody(f: CreateForm): (b: UserBody)
    ensures b.fullName == Value(f.fullName) && b.email == Value(f.email)
    ensures b.password == Value(f.password) && b.role == Value(f.role)
  {
    UserBody(Missing, Value(f.email), Value(f.password), Value(f.fullName), Missing, Missing, Value(f.role))
  }

  /** With the name sent under `fullName`, a filled-in form creates the user
      and the profile carries the name and the chosen role. */
  lemma CreatePageCreatesUser(c: Caller, f: CreateForm, newId: string)
    requires c.userId.Some? && IsAdmin(c)
    requires f.email != "" && f.password != "" && f.fullName != "" && f.role != ""
    ensures var r := Post(c, CreatePageBody(f), true, None, Some(newId), None);
            && r.reply == Reply(200, "User created successfully")
            && r.effects == [CreateAuthUser(f.email, f.password, f.fullName),
                             UpsertProfile(Profile(newId, f.email, f.fullName, None, None, f.role))]
  {
  }

  /** The body the edit page sends, as written: `{ id, ...formData }`, so the
      name again travels under `full_name`. */
  function EditPageBodyAsWritten(id: string, f: EditForm): (b: UserBody)
    ensures b.fullName.Missing? && b.id == Value(id)
  {
    UserBody(Value(id), Value(f.email), Value(f.password), Missing, Missing, Missing, Value(f.role))
  }

  /** As written, editing a user never changes the name: neither the
      authentication update nor the profile update carries it. */
  lemma EditPageDropsName(c: Caller, id: string, f: EditForm, authError: Option<string>, profileError: Option<string>)
    requires c.userId.Some? && IsAdmin(c) && id != ""
    requires f.fullName != ""
    ensures var r := Put(c, EditPageBodyAsWritten(id, f), authError, profileError);
            && (forall k :: 0 <= k < |r.effects| && r.effects[k].UpdateProfile? ==> r.effects[k].name.Missing?)
            && (forall k :: 0 <= k < |r.effects| && r.effects[k].UpdateAuthUser? ==> "user_metadata" !in r.effects[k].updates)
  {
  }

  /** The body the edit page evidently means to send. */
  function EditPageBody(id: string, f: EditForm): (b: UserBody)
    ensures b.fullName == Value(f.fullName) && b.id == Value(id) && b.role == Value(f.role)
  {
    UserBody(Value(id), Value(f.email), Value(f.password), Value(f.fullName), Missing, Missing, Value(f.role))
  }

  /** With the name under `fullName`, a successful edit writes the new name
      to both the authentication record and the profile. */
  lemma EditPageSavesName(c: Caller, id: string, f: EditForm)
    requires c.userId.Some? && IsAdmin(c) && id != ""
    requires f.fullName != ""
    ensures var r := Put(c, EditPageBody(id, f), None, None);
            && r.reply.status == 200
            && |r.effects| == 2
            && r.effects[0].UpdateAuthUser? && r.effects[0].updates["user_metadata"] == f.fullName
            && r.effects[1] == UpdateProfile(id, Value(f.fullName), Missing, Missing, Value(f.role))
  {
  }
}
