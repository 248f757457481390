/**
  Properties that relate several controller calls, or a controller call and
  the state invariant: the invariant is preserved, registration refuses a
  second account for an email, both login failures look the same, a new
  login or a logout leaves no earlier token stored, logout is idempotent,
  and what `updateProfile` does to the password.
 */
module AuthProperties {
  import opened AuthTypes
  import opened PasswordHash
  import opened UserStore
  import opened AuthControllers

  // ---------------------------------------------------------------------
  // The state invariant is preserved by every controller.

  lemma SignupPreservesValid(st: State, req: SignupRequest, gravatar: string -> string)
    requires Valid(st)
    requires Signup(st, req, gravatar).Ok?
    ensures Valid(Signup(st, req, gravatar).value.0)
  {
  }

  lemma SigninPreservesValid(st: State, req: SigninRequest)
    requires Valid(st)
    requires Signin(st, req).Ok?
    ensures Valid(Signin(st, req).value.0)
  {
  }

  lemma LogoutPreservesValid(st: State, id: Id)
    requires Valid(st) && id in st.users
    ensures Valid(Logout(st, id).value.0)
  {
  }

  lemma AvatarsPreservesValid(st: State, id: Id, file: Option<UploadedFile>)
    requires Valid(st) && id in st.users
    requires Avatars(st, id, file).Ok?
    ensures Valid(Avatars(st, id, file).value.0)
  {
  }

  lemma UpdateProfilePreservesValid(st: State, id: Id, body: ProfileBody)
    requires Valid(st) && id in st.users
    ensures Valid(UpdateProfile(st, id, body).value.0)
  {
  }

  // ---------------------------------------------------------------------
  // signup

  /**
    Once an email is registered, every further registration with it fails
    with 409, whatever the password and profile fields.
   */
  lemma SignupTwiceConflicts(st: State, first: SignupRequest, second: SignupRequest,
                             gravatar: string -> string)
    requires Valid(st)
    requires Signup(st, first, gravatar).Ok?
    requires second.email == first.email
    ensures Valid(Signup(st, first, gravatar).value.0)
    ensures Signup(Signup(st, first, gravatar).value.0, second, gravatar) == Err(EmailInUse)
  {
  }

  /** Registration never introduces a second record for an email. */
  lemma SignupPreservesUniqueEmails(st: State, req: SignupRequest, gravatar: string -> string)
    requires Valid(st) && EmailsUnique(st.users)
    requires Signup(st, req, gravatar).Ok?
    ensures EmailsUnique(Signup(st, req, gravatar).value.0.users)
  {
  }

  /** The stored password is the digest of the plaintext, never the plaintext. */
  lemma SignupStoresDigest(st: State, req: SignupRequest, gravatar: string -> string)
    requires Valid(st)
    requires Signup(st, req, gravatar).Ok?
    ensures
      var u := Signup(st, req, gravatar).value.0.users[st.nextId];
      && u.password != req.password
      && CompareHash(req.password, u.password)
  {
  }

  // ---------------------------------------------------------------------
  // signin

  /**
    An unknown email and a wrong password for a known one produce the very
    same result, so a caller cannot tell them apart.
   */
  lemma SigninFailuresIndistinguishable(st: State, unknown: SigninRequest, wrong: SigninRequest)
    requires Valid(st)
    requires !HasEmail(st.users, unknown.email)
    requires HasEmail(st.users, wrong.email)
    requires forall id :: IsFirstWithEmail(st.users, wrong.email, id) ==>
                            !CompareHash(wrong.password, st.users[id].password)
    ensures Signin(st, unknown) == Signin(st, wrong) == Err(WrongCredentials)
  {
  }

  /**
    While emails are unique, login succeeds exactly when some record holds
    the email and its stored password verifies against the given one.
   */
  lemma SigninWithUniqueEmails(st: State, req: SigninRequest)
    requires Valid(st) && EmailsUnique(st.users)
    ensures Signin(st, req).Ok? <==>
      exists id :: id in st.users && st.users[id].email == req.email &&
                   CompareHash(req.password, st.users[id].password)
  {
  }

  /**
    A login stores a token different from the one stored before, and after
    it no record stores the token the user held before.
   */
  lemma SigninReplacesToken(st: State, req: SigninRequest)
    requires Valid(st)
    requires Signin(st, req).Ok?
    ensures
      var (st', resp) := Signin(st, req).value;
      var id := resp.body.token.subject;
      st.users[id].token.Some? ==>
        && st'.users[id].token != st.users[id].token
        && !TokenStored(st'.users, st.users[id].token.value)
  {
  }

  // ---------------------------------------------------------------------
  // logout

  /** Logging out twice gives the same state and response as logging out once. */
  lemma LogoutIdempotent(st: State, id: Id)
    requires id in st.users
    ensures Logout(Logout(st, id).value.0, id) == Logout(st, id)
  {
    var once := Logout(st, id).value.0;
    var twice := Logout(once, id).value.0;
    assert twice.users == once.users;
  }

  /** After a logout, the token the caller held is stored by no record. */
  lemma LogoutRevokesToken(st: State, id: Id)
    requires Valid(st) && id in st.users
    requires st.users[id].token.Some?
    ensures !TokenStored(Logout(st, id).value.0.users, st.users[id].token.value)
  {
  }

  // ---------------------------------------------------------------------
  // current

  /**
    `current` discloses nothing beyond email and subscription: two records
    that agree on those two fields get the same answer, however their
    passwords, tokens, names and avatars differ.
   */
  lemma CurrentDisclosesOnlyEmailAndSubscription(st1: State, id1: Id, st2: State, id2: Id)
    requires id1 in st1.users && id2 in st2.users
    requires st1.users[id1].email == st2.users[id2].email
    requires st1.users[id1].subscription == st2.users[id2].subscription
    ensures Current(st1, id1).value.1 == Current(st2, id2).value.1
  {
  }

  // ---------------------------------------------------------------------
  // updateProfile

  /**
    As written, `updateProfile` with a non-empty new password stores the
    digest of the previous stored digest string. Afterwards exactly one
    password verifies: that previous digest string itself. The new password
    verifies only if it happens to be that string.
   */
  lemma UpdateProfileStoresHashOfOldDigest(st: State, id: Id, body: ProfileBody)
    requires id in st.users
    requires Truthy(body.password)
    ensures
      var (u, v) := (st.users[id], UpdateProfile(st, id, body).value.0.users[id]);
      && (forall q :: CompareHash(q, v.password) <==> q == u.password)
      && (body.password.value != u.password ==> !CompareHash(body.password.value, v.password))
  {
    var u := st.users[id];
    forall q
      ensures CompareHash(q, Hash(u.password)) <==> q == u.password
    {
      CompareHashRoundTrip(u.password, q);
    }
  }

  /**
    As written, an empty password in the body passes the guard unhashed and
    is persisted as plaintext; no password verifies against it.
   */
  lemma UpdateProfileEmptyPasswordStoredPlain(st: State, id: Id, body: ProfileBody)
    requires id in st.users
    requires body.password == Some("")
    ensures
      var v := UpdateProfile(st, id, body).value.0.users[id];
      && v.password == ""
      && forall q :: !CompareHash(q, v.password)
  {
  }

  /**
    The corrected update makes the new password verify, and no other one,
    whatever the previous stored value was.
   */
  lemma UpdateProfileIntendedAcceptsNewPassword(st: State, id: Id, body: ProfileBody)
    requires id in st.users
    requires body.password.Some?
    ensures
      var v := UpdateProfileIntended(st, id, body).value.0.users[id];
      && CompareHash(body.password.value, v.password)
      && forall q :: q != body.password.value ==> !CompareHash(q, v.password)
  {
    var v := UpdateProfileIntended(st, id, body).value.0.users[id];
    forall q
      ensures CompareHash(q, v.password) <==> q == body.password.value
    {
      CompareHashRoundTrip(body.password.value, q);
    }
  }

  /**
    `updateProfile` does not check that a new email is free: from a store
    with unique emails it can reach one where two records share an email.
   */
  lemma UpdateProfileMayDuplicateEmail()
    ensures
      var a := User("a@example.com", Hash("pw"), None, None, None, "avatar-a");
      var b := User("b@example.com", Hash("pw"), None, None, None, "avatar-b");
      var st := State(map[0 := a, 1 := b], 2, 0, {});
      var body := ProfileBody(None, Some("b@example.com"), None, None, None);
      && Valid(st)
      && EmailsUnique(st.users)
      && !EmailsUnique(UpdateProfile(st, 0, body).value.0.users)
  {
    var a := User("a@example.com", Hash("pw"), None, None, None, "avatar-a");
    var b := User("b@example.com", Hash("pw"), None, None, None, "avatar-b");
    var st := State(map[0 := a, 1 := b], 2, 0, {});
    var body := ProfileBody(None, Some("b@example.com"), None, None, None);
    var st' := UpdateProfile(st, 0, body).value.0;
    assert a.email != b.email;
    assert st'.users[0].email == st'.users[1].email;
  }

  // ---------------------------------------------------------------------
  // A whole session

  /**
    Register, log in again, log out: the second login hands out a token
    different from the registration token and leaves the registration
    token stored nowhere; the logout leaves the login token stored nowhere.
   */
  lemma SessionScenario(st: State, email: string, password: string, gravatar: string -> string)
    requires Valid(st) && !HasEmail(st.users, email)
    ensures
      var r1 := Signup(st, SignupRequest(email, password, None, None), gravatar);
      && r1.Ok?
      && var (st1, resp1) := r1.value;
      && Valid(st1)
      && var r2 := Signin(st1, SigninRequest(email, password));
      && r2.Ok?
      && var (st2, resp2) := r2.value;
      && resp2.body.token != resp1.body.token
      && !TokenStored(st2.users, resp1.body.token)
      && Valid(st2)
      && var id := resp2.body.token.subject;
      && id in st2.users
      && !TokenStored(Logout(st2, id).value.0.users, resp2.body.token)
  {
    var req := SignupRequest(email, password, None, None);
    SignupPreservesValid(st, req, gravatar);
    var (st1, resp1) := Signup(st, req, gravatar).value;
    var id := st.nextId;
    var login := SigninRequest(email, password);
    assert IsFirstWithEmail(st1.users, email, id);
    assert CompareHash(password, st1.users[id].password);
    SigninPreservesValid(st1, login);
    var (st2, resp2) := Signin(st1, login).value;
    LogoutRevokesToken(st2, resp2.body.token.subject);
  }
}
