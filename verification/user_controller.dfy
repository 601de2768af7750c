/** The user account handlers: registration, login, profile update and
    account deletion. Password hashing, hash comparison and token signing
    are foreign library calls and appear as the functions of a `Crypto`
    value; the salt that hashing draws at random is a parameter. */
module UserController {
  import opened Base
  import Seqs

  type ObjectId = string

  const UserExists := "User already exists"
  const InvalidCredentials := "Invalid credentials"
  const NotAuthorized := "Not authorized"
  const UserNotFound := "User not found"
  const UserDeleted := "User deleted successfully"

  /** The hashing and signing library calls, uninterpreted. */
  datatype Crypto = Crypto(
    hash: (string, string) -> string,       // (password, salt) -> stored hash
    compare: (string, string) -> bool,      // (password, stored hash) -> match?
    sign: (ObjectId, string) -> string)     // (user id, email) -> token

  /** A stored account; `password` holds the hash. */
  datatype User = User(
    id: ObjectId,
    username: string,
    firstName: string,
    lastName: string,
    email: string,
    password: string,
    dob: string,
    phoneNumber: string,
    address: string,
    gender: string)

  type UserStore = seq<User>

  /** The whitelisted view of an account sent to clients. It has no
      password field. */
  datatype UserResponse = UserResponse(
    id: ObjectId,
    username: string,
    firstName: string,
    lastName: string,
    email: string,
    phoneNumber: string,
    address: string,
    gender: string,
    dob: string,
    token: string)

  function FormatUserResponse(u: User, crypto: Crypto): (r: UserResponse)
    ensures r.token == crypto.sign(u.id, u.email)
    ensures r.id == u.id && r.email == u.email && r.username == u.username
    ensures r.firstName == u.firstName && r.lastName == u.lastName
    ensures r.phoneNumber == u.phoneNumber && r.address == u.address
    ensures r.gender == u.gender && r.dob == u.dob
  {
    UserResponse(u.id, u.username, u.firstName, u.lastName, u.email,
                 u.phoneNumber, u.address, u.gender, u.dob,
                 crypto.sign(u.id, u.email))
  }

  /** The response is the same whatever the stored password is: it leaks
      nothing about it, not even through the token. */
  lemma ResponseIgnoresPassword(u: User, p: string, crypto: Crypto)
    ensures FormatUserResponse(u.(password := p), crypto) == FormatUserResponse(u, crypto)
  {
  }

  // ---------------------------------------------------------------------
  // Register

  datatype RegisterBody = RegisterBody(
    username: string,
    firstName: string,
    lastName: string,
    email: string,
    password: string,
    dob: string,
    phoneNumber: string,
    address: string,
    gender: string)

  predicate EmailTaken(store: UserStore, email: string) {
    exists i :: 0 <= i < |store| && store[i].email == email
  }

  predicate HasId(store: UserStore, id: ObjectId) {
    exists i :: 0 <= i < |store| && store[i].id == id
  }

  /** No two accounts share an email address. */
  predicate EmailsDistinct(store: UserStore) {
    forall i, j :: 0 <= i < j < |store| ==> store[i].email != store[j].email
  }

  /** POST /users/register. */
  function RegisterUser(store: UserStore, body: RegisterBody, salt: string, crypto: Crypto,
                        newId: ObjectId): (h: Handled<UserStore, UserResponse>)
    requires !HasId(store, newId)
    ensures EmailTaken(store, body.email) ==> h == Handled(store, Rejected(400, UserExists))
    ensures !EmailTaken(store, body.email) ==>
              && |h.store| == |store| + 1 && h.store[..|store|] == store
              && h.store[|store|] == User(newId, body.username, body.firstName, body.lastName,
                                          body.email, crypto.hash(body.password, salt), body.dob,
                                          body.phoneNumber, body.address, body.gender)
              && h.reply == Ok(201, FormatUserResponse(h.store[|store|], crypto))
    ensures EmailsDistinct(store) ==> EmailsDistinct(h.store)
  {
    if EmailTaken(store, body.email) then Handled(store, Rejected(400, UserExists))
    else
      var u := User(newId, body.username, body.firstName, body.lastName, body.email,
                    crypto.hash(body.password, salt), body.dob, body.phoneNumber,
                    body.address, body.gender);
      assert (store + [u])[..|store|] == store;
      Handled(store + [u], Ok(201, FormatUserResponse(u, crypto)))
  }

  // ---------------------------------------------------------------------
  // Login

  /** Login body: the client sends either a username or an email. */
  datatype LoginBody = LoginBody(username: Option<string>, email: Option<string>, password: string)

  /** The lookup `$or: [{ username }, { email }]`; an identifier that was
      not sent matches nobody. */
  predicate IdentifiedBy(u: User, b: LoginBody) {
    (b.username.Some? && u.username == b.username.value)
    || (b.email.Some? && u.email == b.email.value)
  }

  /** `i` is the account the lookup returns: the first one identified. */
  predicate IsFirstMatch(store: UserStore, body: LoginBody, i: int) {
    0 <= i < |store| && IdentifiedBy(store[i], body)
    && forall j :: 0 <= j < i ==> !IdentifiedBy(store[j], body)
  }

  /** POST /users/login. */
  function LoginUser(store: UserStore, body: LoginBody, crypto: Crypto): (r: Reply<UserResponse>)
    ensures r.Rejected? ==> r == Rejected(400, InvalidCredentials)
    ensures (forall j :: 0 <= j < |store| ==> !IdentifiedBy(store[j], body)) ==> r.Rejected?
    ensures forall i :: IsFirstMatch(store, body, i) ==>
              && (r.Ok? <==> crypto.compare(body.password, store[i].password))
              && (r.Ok? ==> r == Ok(200, FormatUserResponse(store[i], crypto)))
  {
    match Seqs.FindIndex(store, (u: User) => IdentifiedBy(u, body))
    case None => Rejected(400, InvalidCredentials)
    case Some(i) =>
      assert forall k :: IsFirstMatch(store, body, k) ==> k == i;
      if !crypto.compare(body.password, store[i].password) then Rejected(400, InvalidCredentials)
      else Ok(200, FormatUserResponse(store[i], crypto))
  }

  /** An unknown user and a wrong password are told apart by nothing. */
  lemma LoginFailuresIndistinguishable(store: UserStore, unknown: LoginBody, wrong: LoginBody,
                                       crypto: Crypto)
    requires forall j :: 0 <= j < |store| ==> !IdentifiedBy(store[j], unknown)
    requires LoginUser(store, wrong, crypto).Rejected?
    ensures LoginUser(store, unknown, crypto) == LoginUser(store, wrong, crypto)
  {
  }

  /** The comparison accepts a password against any hash made from it. */
  ghost predicate CompareAcceptsOwnHash(crypto: Crypto) {
    forall p, s :: crypto.compare(p, crypto.hash(p, s))
  }

  /** Registering and then logging in by the same email and password
      succeeds, as the new account. */
  lemma RegisterThenLogin(store: UserStore, body: RegisterBody, salt: string,
                                             crypto: Crypto, newId: ObjectId)
    requires !HasId(store, newId)
    requires !EmailTaken(store, body.email)
    requires CompareAcceptsOwnHash(crypto)
    ensures var s1 := RegisterUser(store, body, salt, crypto, newId).store;
            LoginUser(s1, LoginBody(None, Some(body.email), body.password), crypto)
            == Ok(200, FormatUserResponse(s1[|store|], crypto))
  {
    var s1 := RegisterUser(store, body, salt, crypto, newId).store;
    var lb := LoginBody(None, Some(body.email), body.password);
    forall j | 0 <= j < |store|
      ensures !IdentifiedBy(s1[j], lb)
    {
      assert s1[j] == store[j];
    }
    assert IsFirstMatch(s1, lb, |store|);
    assert crypto.compare(body.password, s1[|store|].password);
  }

  // ---------------------------------------------------------------------
  // Update and delete

  /** A profile update: None is a field not sent. */
  datatype UserUpdate = UserUpdate(
    username: Option<string>,
    firstName: Option<string>,
    lastName: Option<string>,
    email: Option<string>,
    password: Option<string>,
    dob: Option<string>,
    phoneNumber: Option<string>,
    address: Option<string>,
    gender: Option<string>)

  /** The update as written to the store: a truthy password is replaced by
      its hash, everything else passes unchanged. */
  function HashPassword(up: UserUpdate, salt: string, crypto: Crypto): (w: UserUpdate)
    ensures Filled(up.password) ==> w.password == Some(crypto.hash(up.password.value, salt))
    ensures !Filled(up.password) ==> w == up
    ensures w.(password := up.password) == up
  {
    if Filled(up.password) then up.(password := Some(crypto.hash(up.password.value, salt)))
    else up
  }

  /** `findByIdAndUpdate`: every field sent overwrites the stored one,
      every field not sent is kept, and the id never moves. */
  function ApplyUserUpdate(u: User, w: UserUpdate): (u': User)
    ensures u'.id == u.id
    ensures u'.username == w.username.GetOr(u.username)
    ensures u'.firstName == w.firstName.GetOr(u.firstName)
    ensures u'.lastName == w.lastName.GetOr(u.lastName)
    ensures u'.email == w.email.GetOr(u.email)
    ensures u'.password == w.password.GetOr(u.password)
    ensures u'.dob == w.dob.GetOr(u.dob)
    ensures u'.phoneNumber == w.phoneNumber.GetOr(u.phoneNumber)
    ensures u'.address == w.address.GetOr(u.address)
    ensures u'.gender == w.gender.GetOr(u.gender)
  {
    User(u.id,
         w.username.GetOr(u.username), w.firstName.GetOr(u.firstName),
         w.lastName.GetOr(u.lastName), w.email.GetOr(u.email),
         w.password.GetOr(u.password), w.dob.GetOr(u.dob),
         w.phoneNumber.GetOr(u.phoneNumber), w.address.GetOr(u.address),
         w.gender.GetOr(u.gender))
  }

  function IndexOf(store: UserStore, id: ObjectId): (r: Option<nat>)
    ensures r.Some? ==> r.value < |store| && store[r.value].id == id
    ensures r.None? <==> !HasId(store, id)
  {
    Seqs.FindIndex(store, (u: User) => u.id == id)
  }

  /** PUT /users/:id. */
  function UpdateUser(store: UserStore, requester: ObjectId, pathId: ObjectId, up: UserUpdate,
                      salt: string, crypto: Crypto): (h: Handled<UserStore, UserResponse>)
    ensures requester != pathId ==> h == Handled(store, Rejected(403, NotAuthorized))
    ensures requester == pathId && !HasId(store, pathId) ==>
              h == Handled(store, Rejected(404, UserNotFound))
    ensures h.reply.Ok? <==> requester == pathId && HasId(store, pathId)
    ensures h.reply.Ok? ==>
              var i := IndexOf(store, pathId).value;
              && |h.store| == |store|
              && (forall j :: 0 <= j < |store| && j != i ==> h.store[j] == store[j])
              && h.store[i].id == pathId
              && h.store[i] == ApplyUserUpdate(store[i], HashPassword(up, salt, crypto))
              && (Filled(up.password) ==> h.store[i].password == crypto.hash(up.password.value, salt))
              && (!Filled(up.password) ==> h.store[i].password == up.password.GetOr(store[i].password))
              && h.reply == Ok(200, FormatUserResponse(h.store[i], crypto))
  {
    if requester != pathId then Handled(store, Rejected(403, NotAuthorized))
    else
      var w := HashPassword(up, salt, crypto);
      match IndexOf(store, pathId)
      case None => Handled(store, Rejected(404, UserNotFound))
      case Some(i) =>
        var u' := ApplyUserUpdate(store[i], w);
        Handled(Seqs.ReplaceAt(store, i, u'), Ok(200, FormatUserResponse(u', crypto)))
  }

  /** DELETE /users/:id: the owner check comes first; the reply is the
      same whether or not the account existed. */
  function DeleteUser(store: UserStore, requester: ObjectId, pathId: ObjectId): (h: Handled<UserStore, string>)
    ensures requester != pathId ==> h == Handled(store, Rejected(403, NotAuthorized))
    ensures requester == pathId ==> h.reply == Ok(200, UserDeleted)
    ensures requester == pathId && !HasId(store, pathId) ==> h.store == store
    ensures requester == pathId && HasId(store, pathId) ==>
              h.store == Seqs.RemoveAt(store, IndexOf(store, pathId).value)
  {
    if requester != pathId then Handled(store, Rejected(403, NotAuthorized))
    else
      match IndexOf(store, pathId)
      case None => Handled(store, Ok(200, UserDeleted))
      case Some(i) => Handled(Seqs.RemoveAt(store, i), Ok(200, UserDeleted))
  }

  /** Only the account's owner can change or remove it: any other
      requester gets 403 and the store is untouched. */
  lemma OwnerOnly(store: UserStore, requester: ObjectId, pathId: ObjectId, up: UserUpdate,
                  salt: string, crypto: Crypto)
    requires requester != pathId
    ensures UpdateUser(store, requester, pathId, up, salt, crypto).store == store
    ensures DeleteUser(store, requester, pathId).store == store
    ensures UpdateUser(store, requester, pathId, up, salt, crypto).reply.code == 403
    ensures DeleteUser(store, requester, pathId).reply.code == 403
  {
  }

  /** The update writes a supplied email without looking for another
      holder, unlike registration: two accounts can end up sharing one. */
  lemma UpdateBreaksEmailsDistinct(salt: string, crypto: Crypto)
    ensures var a := User("a", "ann", "", "", "x@e", "h", "", "", "", "");
            var b := User("b", "bob", "", "", "y@e", "h", "", "", "", "");
            var up := UserUpdate(None, None, None, Some("x@e"), None, None, None, None, None);
            var h := UpdateUser([a, b], "b", "b", up, salt, crypto);
            && EmailsDistinct([a, b])
            && h.reply.Ok?
            && !EmailsDistinct(h.store)
  {
    var a := User("a", "ann", "", "", "x@e", "h", "", "", "", "");
    var b := User("b", "bob", "", "", "y@e", "h", "", "", "", "");
    var up := UserUpdate(None, None, None, Some("x@e"), None, None, None, None, None);
    assert [a, b][1].id == "b";
    assert HasId([a, b], "b");
    var h := UpdateUser([a, b], "b", "b", up, salt, crypto);
    assert IndexOf([a, b], "b") == Some(1);
    assert h.store[0].email == h.store[1].email;
  }
}
