/**
  The six exported controllers of the authentication routes, each a pure
  transition from a store state and a request to either a new state and a
  response, or the error the controller throws. An error carries no state:
  the store after a failed request is the one before it.
 */
module AuthControllers {
  import opened AuthTypes
  import opened PasswordHash
  import opened UserStore

  const EmailInUse: HttpError := HttpError(409, "Email in use")
  const WrongCredentials: HttpError := HttpError(401, "Email or password is wrong")
  const FileNotFound: HttpError := HttpError(400, "File not found")
  /** The message keeps the source's spelling. */
  const UploadFailed: HttpError := HttpError(400, "Upload filed try again")

  /** The registration body: credentials plus optional profile fields. */
  datatype SignupRequest = SignupRequest(
    email: string,
    password: string,
    name: Option<string>,
    subscription: Option<string>)

  /** The login body. */
  datatype SigninRequest = SigninRequest(email: string, password: string)

  /** The uploaded file reference (`req.file`); its `path` may be missing. */
  datatype UploadedFile = UploadedFile(path: Option<string>)

  /** The profile-update body; every field is optional. */
  datatype ProfileBody = ProfileBody(
    name: Option<string>,
    email: Option<string>,
    password: Option<string>,
    subscription: Option<string>,
    avatarURL: Option<string>)

  /** JavaScript truthiness of an optional string: present and non-empty. */
  predicate Truthy(s: Option<string>) {
    s.Some? && s.value != ""
  }

  /** What `signin`, `signup` and the profile routes answer with on success. */
  type Outcome = Result<(State, Response)>

  /**
    `signup`: refuses an email some record already holds; otherwise creates
    a record with the hashed password and the gravatar placeholder of the
    email, issues a token for it, stores the token and answers 201.
   */
  function Signup(st: State, req: SignupRequest, gravatar: string -> string): (r: Outcome)
    requires Valid(st)
    ensures r.Err? <==> HasEmail(st.users, req.email)
    ensures r.Err? ==> r.error == EmailInUse
    ensures r.Ok? ==>
      var (st', resp) := r.value;
      var id := st.nextId;
      && id !in st.users
      && st'.users.Keys == st.users.Keys + {id}
      && (forall j :: j in st.users ==> st'.users[j] == st.users[j])
      && resp.status == 201
      && resp.body.Session?
      && resp.body.token.subject == id
      && resp.body.token !in st.issued
      && resp.body.user == st'.users[id]
      && st'.users[id].email == req.email
      && st'.users[id].password == Hash(req.password)
      && st'.users[id].avatarURL == gravatar(req.email)
      && st'.users[id].token == Some(resp.body.token)
      && st'.users[id].name == req.name
      && st'.users[id].subscription == req.subscription
  {
    match FindUser(st, req.email)
    case Some(_) => Err(EmailInUse)
    case None =>
      var record := User(req.email, Hash(req.password), None,
                         req.name, req.subscription, gravatar(req.email));
      var (created, id) := CreateUser(st, record);
      var (signed, token) := IssueToken(created, id);
      var stored := UpdateUser(signed, id, NoChange.(token := Some(Some(token))));
      Ok((stored, Response(201, Session(token, stored.users[id]))))
  }

  /**
    `signin`: looks up the first record with the email and checks the
    password against it; both failures throw the same 401. On success a new
    token overwrites the stored one, and nothing else changes.
   */
  function Signin(st: State, req: SigninRequest): (r: Outcome)
    requires Valid(st)
    ensures r.Err? ==> r.error == WrongCredentials
    ensures r.Ok? <==>
      exists id :: IsFirstWithEmail(st.users, req.email, id) &&
                   CompareHash(req.password, st.users[id].password)
    ensures r.Ok? ==>
      var (st', resp) := r.value;
      && resp.status == 200
      && resp.body.Session?
      && var t := resp.body.token;
      && IsFirstWithEmail(st.users, req.email, t.subject)
      && OnlyRecordChanged(st, st', t.subject)
      && SameExceptToken(st.users[t.subject], st'.users[t.subject])
      && st'.users[t.subject].token == Some(t)
      && t !in st.issued
      && resp.body.user == st'.users[t.subject]
  {
    match FindUser(st, req.email)
    case None => Err(WrongCredentials)
    case Some(id) =>
      if !CompareHash(req.password, st.users[id].password) then Err(WrongCredentials)
      else
        var (signed, token) := IssueToken(st, id);
        var stored := UpdateUser(signed, id, NoChange.(token := Some(Some(token))));
        Ok((stored, Response(200, Session(token, stored.users[id]))))
  }

  /**
    `logout`: clears the caller's stored token and answers 204; no other
    field and no other record changes.
   */
  function Logout(st: State, id: Id): (r: Outcome)
    requires id in st.users
    ensures r.Ok?
    ensures r.value.1 == Response(204, NoContent)
    ensures OnlyRecordChanged(st, r.value.0, id)
    ensures r.value.0.users[id].token == None
    ensures SameExceptToken(st.users[id], r.value.0.users[id])
    ensures r.value.0.issued == st.issued && r.value.0.nextSerial == st.nextSerial
  {
    Ok((UpdateUser(st, id, NoChange.(token := Some(None))), Response(204, NoContent)))
  }

  /**
    `current`: answers with exactly the email and the subscription of the
    authenticated record, and changes nothing.
   */
  function Current(st: State, id: Id): (r: Outcome)
    requires id in st.users
    ensures r.Ok? && r.value.0 == st
    ensures r.value.1.status == 200
    ensures r.value.1.body == EmailAndSubscription(st.users[id].email, st.users[id].subscription)
  {
    var user := st.users[id];
    Ok((st, Response(200, EmailAndSubscription(user.email, user.subscription))))
  }

  /**
    `avatars`: a missing file, or a file without a path, is a 400; otherwise
    the record's `avatarURL` becomes the file's path and nothing else changes.
   */
  function Avatars(st: State, id: Id, file: Option<UploadedFile>): (r: Outcome)
    requires id in st.users
    ensures file.None? ==> r == Err(FileNotFound)
    ensures file.Some? && !Truthy(file.value.path) ==> r == Err(UploadFailed)
    ensures r.Ok? <==> file.Some? && Truthy(file.value.path)
    ensures r.Ok? ==>
      var (st', resp) := r.value;
      && OnlyRecordChanged(st, st', id)
      && st'.issued == st.issued
      && st'.users[id].avatarURL == file.value.path.value
      && SameExceptAvatar(st.users[id], st'.users[id])
      && resp == Response(200, Document(st'.users[id]))
  {
    match file
    case None => Err(FileNotFound)
    case Some(img) =>
      if !Truthy(img.path) then Err(UploadFailed)
      else
        var stored := UpdateUser(st, id, NoChange.(avatarURL := Some(img.path.value)));
        Ok((stored, Response(200, Document(stored.users[id]))))
  }

  /** `{ ...base, ...over }`: the fields present in `over` win. */
  function Spread(base: Patch, over: Patch): (p: Patch)
    ensures over == NoChange ==> p == base
    ensures base == NoChange ==> p == over
    ensures over.password.Some? ==> p.password == over.password
    ensures over.password.None? ==> p.password == base.password
    ensures over.email.Some? ==> p.email == over.email
    ensures over.email.None? ==> p.email == base.email
    ensures over.name.Some? ==> p.name == over.name
    ensures over.name.None? ==> p.name == base.name
    ensures p.subscription == (if over.subscription.Some? then over.subscription else base.subscription)
    ensures p.avatarURL == (if over.avatarURL.Some? then over.avatarURL else base.avatarURL)
    ensures p.token == (if over.token.Some? then over.token else base.token)
  {
    Patch(
      if over.name.Some? then over.name else base.name,
      if over.email.Some? then over.email else base.email,
      if over.password.Some? then over.password else base.password,
      if over.subscription.Some? then over.subscription else base.subscription,
      if over.avatarURL.Some? then over.avatarURL else base.avatarURL,
      if over.token.Some? then over.token else base.token)
  }

  /**
    Writing the spread of two patches is writing the first patch and then
    the second: `updateUser(id, { ...base, ...over })` has the effect of
    `updateUser(id, base)` followed by `updateUser(id, over)`.
   */
  lemma SpreadIsSequentialPatch(u: User, base: Patch, over: Patch)
    ensures ApplyPatch(u, Spread(base, over)) == ApplyPatch(ApplyPatch(u, base), over)
  {
  }

  /**
    The request body after the password guard of `updateProfile`: a truthy
    password is replaced by the digest of `stored`, the caller's current
    stored password (not the new plaintext); an empty password passes the
    guard untouched.
   */
  function GuardedBody(body: ProfileBody, stored: string): (p: Patch)
    ensures p.token.None?
    ensures body.password.None? <==> p.password.None?
    ensures Truthy(body.password) ==> p.password == Some(Hash(stored))
    ensures !Truthy(body.password) ==> p.password == body.password
    ensures p.name == body.name && p.email == body.email
    ensures p.subscription == body.subscription && p.avatarURL == body.avatarURL
  {
    var password := if Truthy(body.password) then Some(Hash(stored)) else body.password;
    Patch(body.name, body.email, password, body.subscription, body.avatarURL, None)
  }

  /** `{ name, email, password }` taken from the authenticated record. */
  function CurrentFields(u: User): (p: Patch)
    ensures ApplyPatch(u, p) == u
  {
    Patch(u.name, Some(u.email), Some(u.password), None, None, None)
  }

  /**
    `updateProfile` as written: the record's name, email and password,
    overridden field by field by the body, are written back. Absent fields
    keep their values. A non-empty new password stores the digest of the
    OLD stored digest string; an empty one is stored as it is.
   */
  function UpdateProfile(st: State, id: Id, body: ProfileBody): (r: Outcome)
    requires id in st.users
    ensures r.Ok?
    ensures OnlyRecordChanged(st, r.value.0, id)
    ensures
      var (st', resp) := r.value;
      var (u, v) := (st.users[id], st'.users[id]);
      && st'.issued == st.issued && st'.nextSerial == st.nextSerial
      && resp == Response(200, Document(v))
      && v.token == u.token
      && v.email == (if body.email.Some? then body.email.value else u.email)
      && v.name == (if body.name.Some? then body.name else u.name)
      && v.subscription == (if body.subscription.Some? then body.subscription else u.subscription)
      && v.avatarURL == (if body.avatarURL.Some? then body.avatarURL.value else u.avatarURL)
      && (body.password.None? ==> v.password == u.password)
      && (Truthy(body.password) ==> v.password == Hash(u.password))
      && (body.password == Some("") ==> v.password == "")
  {
    var user := st.users[id];
    var profile := Spread(CurrentFields(user), GuardedBody(body, user.password));
    var stored := UpdateUser(st, id, profile);
    Ok((stored, Response(200, Document(stored.users[id]))))
  }

  /**
    `updateProfile` as evidently intended: any password in the body is
    hashed from the NEW plaintext; everything else as in UpdateProfile.
    Afterwards the new password verifies.
   */
  function UpdateProfileIntended(st: State, id: Id, body: ProfileBody): (r: Outcome)
    requires id in st.users
    ensures r.Ok?
    ensures OnlyRecordChanged(st, r.value.0, id)
    ensures
      var (st', resp) := r.value;
      var (u, v) := (st.users[id], st'.users[id]);
      && st'.issued == st.issued && st'.nextSerial == st.nextSerial
      && resp == Response(200, Document(v))
      && v.token == u.token
      && v.email == (if body.email.Some? then body.email.value else u.email)
      && v.name == (if body.name.Some? then body.name else u.name)
      && v.subscription == (if body.subscription.Some? then body.subscription else u.subscription)
      && v.avatarURL == (if body.avatarURL.Some? then body.avatarURL.value else u.avatarURL)
      && (body.password.None? ==> v.password == u.password)
      && (body.password.Some? ==> v.password == Hash(body.password.value))
      && (body.password.Some? ==> CompareHash(body.password.value, v.password))
  {
    var user := st.users[id];
    var password := if body.password.Some? then Some(Hash(body.password.value)) else None;
    var hashed := Patch(body.name, body.email, password, body.subscription, body.avatarURL, None);
    var stored := UpdateUser(st, id, Spread(CurrentFields(user), hashed));
    Ok((stored, Response(200, Document(stored.users[id]))))
  }
}
