/**
  The user store the controllers talk to (`findUser`, `createUser`,
  `updateUser`, `updateAvatar`), modelled as a map from ids to records,
  together with the counters that make new ids and new tokens fresh.
 */
module UserStore {
  import opened AuthTypes
  import opened PasswordHash

  /**
    The whole state the controllers see. `issued` is every token handed out
    so far; `nextId` and `nextSerial` are the sources of fresh ids and tokens.
   */
  datatype State = State(
    users: map<Id, User>,
    nextId: nat,
    nextSerial: nat,
    issued: set<Token>)

  /**
    The state invariant: ids and token serials come from the counters, a
    stored token is one that was issued for that very record, and a stored
    password is sealed.
   */
  predicate Valid(st: State) {
    && (forall id :: id in st.users ==> id < st.nextId)
    && (forall t :: t in st.issued ==> t.serial < st.nextSerial)
    && (forall id :: id in st.users && st.users[id].token.Some? ==>
          st.users[id].token.value in st.issued && st.users[id].token.value.subject == id)
    && (forall id :: id in st.users ==> Sealed(st.users[id].password))
  }

  /** Some record holds `email`. */
  predicate HasEmail(users: map<Id, User>, email: string) {
    exists id :: id in users && users[id].email == email
  }

  /** No two records hold the same email. */
  predicate EmailsUnique(users: map<Id, User>) {
    forall a, b :: a in users && b in users && users[a].email == users[b].email ==> a == b
  }

  /**
    `id` is the first record holding `email`: the one created earliest,
    which is the one with the least id.
   */
  predicate IsFirstWithEmail(users: map<Id, User>, email: string, id: Id) {
    && id in users
    && users[id].email == email
    && forall j :: j in users && users[j].email == email ==> id <= j
  }

  /** Scans ids `from`, `from + 1`, ..., `bound - 1` for a record holding `email`. */
  function FindFrom(users: map<Id, User>, email: string, from: nat, bound: nat): (r: Option<Id>)
    requires from <= bound
    decreases bound - from
    ensures r.Some? ==> from <= r.value < bound && r.value in users && users[r.value].email == email
    ensures r.Some? ==> forall j :: from <= j < r.value && j in users ==> users[j].email != email
    ensures r.None? ==> forall j :: from <= j < bound && j in users ==> users[j].email != email
  {
    if from == bound then None
    else if from in users && users[from].email == email then Some(from)
    else FindFrom(users, email, from + 1, bound)
  }

  /**
    `findUser(email)` destructured as `[user]`: the first record with that
    email, or nothing when no record has it.
   */
  function FindUser(st: State, email: string): (r: Option<Id>)
    requires Valid(st)
    ensures r.None? <==> !HasEmail(st.users, email)
    ensures r.Some? ==> IsFirstWithEmail(st.users, email, r.value)
  {
    FindFrom(st.users, email, 0, st.nextId)
  }

  /**
    `createUser(record)`: stores `u` under a fresh id and returns that id.
   */
  function CreateUser(st: State, u: User): (r: (State, Id))
    requires Valid(st)
    ensures r.1 !in st.users
    ensures r.0.users.Keys == st.users.Keys + {r.1}
    ensures r.0.users[r.1] == u
    ensures forall id :: id in st.users ==> r.0.users[id] == st.users[id]
    ensures r.0.nextSerial == st.nextSerial && r.0.issued == st.issued
  {
    (st.(users := st.users[st.nextId := u], nextId := st.nextId + 1), st.nextId)
  }

  /**
    `jwt.sign({ id }, ...)`: a token for `id` that differs from every token
    issued before. The users are untouched.
   */
  function IssueToken(st: State, id: Id): (r: (State, Token))
    ensures r.1.subject == id
    ensures Valid(st) ==> r.1 !in st.issued
    ensures r.0.issued == st.issued + {r.1}
    ensures r.0.users == st.users && r.0.nextId == st.nextId
  {
    var t := Token(id, st.nextSerial);
    (st.(nextSerial := st.nextSerial + 1, issued := st.issued + {t}), t)
  }

  /**
    The object passed to `updateUser`/`updateAvatar`: each field is either
    absent (left as it is) or present (overwritten). `token: Some(None)`
    is `{ token: null }`.
   */
  datatype Patch = Patch(
    name: Option<string>,
    email: Option<string>,
    password: Option<string>,
    subscription: Option<string>,
    avatarURL: Option<string>,
    token: Option<Option<Token>>)

  /** The patch with no field present. */
  const NoChange: Patch := Patch(None, None, None, None, None, None)

  /** Writes the present fields of `p` over `u`; absent fields keep their values. */
  function ApplyPatch(u: User, p: Patch): (v: User)
    ensures p == NoChange ==> v == u
    ensures p.email.Some? ==> v.email == p.email.value
    ensures p.email.None? ==> v.email == u.email
    ensures p.password.Some? ==> v.password == p.password.value
    ensures p.password.None? ==> v.password == u.password
    ensures p.token.Some? ==> v.token == p.token.value
    ensures p.token.None? ==> v.token == u.token
    ensures p.name.Some? ==> v.name == p.name
    ensures p.name.None? ==> v.name == u.name
    ensures p.subscription.Some? ==> v.subscription == p.subscription
    ensures p.subscription.None? ==> v.subscription == u.subscription
    ensures p.avatarURL.Some? ==> v.avatarURL == p.avatarURL.value
    ensures p.avatarURL.None? ==> v.avatarURL == u.avatarURL
  {
    var u1 := if p.email.Some? then u.(email := p.email.value) else u;
    var u2 := if p.password.Some? then u1.(password := p.password.value) else u1;
    var u3 := if p.token.Some? then u2.(token := p.token.value) else u2;
    var u4 := if p.name.Some? then u3.(name := p.name) else u3;
    var u5 := if p.subscription.Some? then u4.(subscription := p.subscription) else u4;
    if p.avatarURL.Some? then u5.(avatarURL := p.avatarURL.value) else u5
  }

  /**
    `updateUser(id, patch)`: patches one record and returns the updated
    state; no other record changes.
   */
  function UpdateUser(st: State, id: Id, p: Patch): (r: State)
    requires id in st.users
    ensures r.users.Keys == st.users.Keys
    ensures forall j :: j in st.users && j != id ==> r.users[j] == st.users[j]
    ensures r.users[id] == ApplyPatch(st.users[id], p)
    ensures r.nextId == st.nextId && r.nextSerial == st.nextSerial && r.issued == st.issued
  {
    st.(users := st.users[id := ApplyPatch(st.users[id], p)])
  }

  /** Some record currently stores `t` as its token. */
  predicate TokenStored(users: map<Id, User>, t: Token) {
    exists id :: id in users && users[id].token == Some(t)
  }

  /** Two records agree on every field except `token`. */
  predicate SameExceptToken(u: User, v: User) {
    u.(token := v.token) == v
  }

  /** Two records agree on every field except `avatarURL`. */
  predicate SameExceptAvatar(u: User, v: User) {
    u.(avatarURL := v.avatarURL) == v
  }

  /** `st'` has the same ids and counters as `st`, and only record `id` may differ. */
  predicate OnlyRecordChanged(st: State, st': State, id: Id) {
    && st'.users.Keys == st.users.Keys
    && (forall j :: j in st.users && j != id ==> st'.users[j] == st.users[j])
    && st'.nextId == st.nextId
  }
}
