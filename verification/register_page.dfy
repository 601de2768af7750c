/** The two-step registration form: step 1 asks for name, email and
    password, step 2 for the remaining details; submitting sends all nine
    fields to the register request. */
module RegisterPage {
  import opened Base
  import opened UserController

  datatype RegisterForm = RegisterForm(
    firstName: string,
    lastName: string,
    username: string,
    email: string,
    password: string,
    dob: string,
    phoneNumber: string,
    address: string,
    gender: string,
    step: int)

  /** An empty form on step 1. */
  const Start := RegisterForm("", "", "", "", "", "", "", "", "", 1)

  /** The fields `handleNext` insists on before leaving step 1. The
      username is not among them. */
  predicate StepOneComplete(f: RegisterForm) {
    f.firstName != "" && f.lastName != "" && f.email != "" && f.password != ""
  }

  /** The fields `handleSubmit` insists on at step 2. */
  predicate StepTwoComplete(f: RegisterForm) {
    f.dob != "" && f.phoneNumber != "" && f.address != "" && f.gender != ""
  }

  /** `handleNext`: stays on step 1 while a step-1 field is empty,
      otherwise advances one step. */
  function HandleNext(f: RegisterForm): (g: RegisterForm)
    ensures g.(step := f.step) == f
    ensures g.step == f.step || g.step == f.step + 1
    ensures g.step == f.step <==> f.step == 1 && !StepOneComplete(f)
  {
    if f.step == 1 && !StepOneComplete(f) then f else f.(step := f.step + 1)
  }

  /** `handlePrevious`: one step back. */
  function HandlePrevious(f: RegisterForm): (g: RegisterForm)
    ensures g.(step := f.step) == f && g.step == f.step - 1
  {
    f.(step := f.step - 1)
  }

  /** `handleSubmit`: nothing is sent from step 2 while a step-2 field is
      empty; otherwise every field goes out unchanged. */
  function HandleSubmit(f: RegisterForm): (b: Option<RegisterBody>)
    ensures b.None? <==> f.step == 2 && !StepTwoComplete(f)
    ensures b.Some? ==>
              && b.value.firstName == f.firstName && b.value.lastName == f.lastName
              && b.value.username == f.username && b.value.email == f.email
              && b.value.password == f.password && b.value.dob == f.dob
              && b.value.phoneNumber == f.phoneNumber && b.value.address == f.address
              && b.value.gender == f.gender
  {
    if f.step == 2 && !StepTwoComplete(f) then None
    else Some(RegisterBody(f.username, f.firstName, f.lastName, f.email, f.password,
                           f.dob, f.phoneNumber, f.address, f.gender))
  }

  /** The empty form cannot leave step 1. */
  lemma StartIsStuck()
    ensures HandleNext(Start) == Start
  {
  }

  /** Going forward from a complete first step and back again restores the
      form exactly, entries included. */
  lemma NextThenPrevious(f: RegisterForm)
    requires f.step == 1 && StepOneComplete(f)
    ensures HandlePrevious(HandleNext(f)) == f
  {
  }

  /** The submit guard only looks at step 2: a form submitted from step 1
      is sent whatever it holds, even entirely empty. */
  lemma SubmitFromStepOneUnguarded(f: RegisterForm)
    requires f.step == 1
    ensures HandleSubmit(f).Some?
  {
  }

  /** After registering, the page signs in with the username and password
      it just sent. The server does not keep usernames unique, so when an
      older account already holds that username the sign-in looks that
      account up, not the new one. */
  lemma AutoLoginFindsFirstHolder(store: UserStore, f: RegisterForm,
                                                     salt: string, crypto: Crypto,
                                                     newId: ObjectId, k: nat)
    requires HandleSubmit(f).Some? && !HasId(store, newId)
    requires !EmailTaken(store, f.email)
    requires k < |store| && store[k].username == f.username
    requires forall j :: 0 <= j < k ==> store[j].username != f.username
    ensures var s1 := RegisterUser(store, HandleSubmit(f).value, salt, crypto, newId).store;
            var login := LoginBody(Some(f.username), None, f.password);
            LoginUser(s1, login, crypto) ==
              if crypto.compare(f.password, store[k].password)
              then Ok(200, FormatUserResponse(store[k], crypto))
              else Rejected(400, InvalidCredentials)
  {
    var s1 := RegisterUser(store, HandleSubmit(f).value, salt, crypto, newId).store;
    var login := LoginBody(Some(f.username), None, f.password);
    assert s1[k] == store[k];
    forall j | 0 <= j < k
      ensures !IdentifiedBy(s1[j], login)
    {
      assert s1[j] == store[j];
    }
    assert IsFirstMatch(s1, login, k);
  }
}
