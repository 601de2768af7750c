/** The sign-in form: one identifier field that is sent as an email when it
    contains "@" and as a username otherwise. */
module LoginPage {
  import opened Base
  import opened UserController

  /** `handleSubmit`'s request body. */
  function LoginRequest(identifier: string, password: string): (b: LoginBody)
    ensures '@' in identifier ==> b.email == Some(identifier) && b.username.None?
    ensures '@' !in identifier ==> b.username == Some(identifier) && b.email.None?
    ensures b.password == password
  {
    if '@' in identifier then LoginBody(None, Some(identifier), password)
    else LoginBody(Some(identifier), None, password)
  }

  /** The server looks up exactly one kind of identifier: accounts are
      matched by email when the identifier contains "@", by username
      otherwise. */
  lemma RoutedLookup(u: User, identifier: string, password: string)
    ensures IdentifiedBy(u, LoginRequest(identifier, password))
            <==> if '@' in identifier then u.email == identifier else u.username == identifier
  {
  }

  /** A username that contains "@" can never sign in by username. */
  lemma AtSignUsernameUnreachable(store: UserStore, identifier: string, password: string,
                                  crypto: Crypto)
    requires '@' in identifier
    requires forall j :: 0 <= j < |store| ==> store[j].email != identifier
    ensures LoginUser(store, LoginRequest(identifier, password), crypto)
            == Rejected(400, InvalidCredentials)
  {
  }
}
