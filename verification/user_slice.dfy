/** The client's session store: the signed-in user, the request flags and
    the last success message, one transition per action, and the logout
    action that also empties the complaint store. */
module UserSlice {
  import opened Base
  import opened UserTypes
  import ComplaintSlice

  datatype UserState = UserState(
    userInfo: Option<UserInfo>,
    loading: bool,
    error: Option<string>,
    success: bool,
    message: Option<string>)

  const Initial := UserState(None, false, None, false, None)

  const Registered := "Registration successful!"
  const LoggedIn := "Login successful!"
  const ProfileUpdated := "Profile updated successfully!"
  const AccountDeleted := "Account deleted successfully!"

  /** `resetAuthStatus`: the flags and message are cleared; the user stays
      signed in. */
  function ResetAuthStatus(s: UserState): (t: UserState)
    ensures t.userInfo == s.userInfo
    ensures !t.loading && !t.success && t.error.None? && t.message.None?
  {
    s.(loading := false, success := false, error := None, message := None)
  }

  /** Every `pending` case. */
  function Pending(s: UserState): (t: UserState)
    ensures t.loading
    ensures t.userInfo == s.userInfo && t.error == s.error && t.success == s.success
            && t.message == s.message
  {
    s.(loading := true)
  }

  /** The register, login and update `fulfilled` cases: the payload becomes
      the signed-in user and `message` the case's own text. */
  function Fulfilled(s: UserState, payload: UserInfo, message: string): (t: UserState)
    ensures t == UserState(Some(payload), false, None, true, Some(message))
  {
    s.(loading := false, userInfo := Some(payload), error := None, success := true,
       message := Some(message))
  }

  /** Every `rejected` case. The earlier success message is kept. */
  function RejectedCase(s: UserState, err: string): (t: UserState)
    ensures !t.loading && !t.success && t.error == Some(err)
    ensures t.userInfo == s.userInfo && t.message == s.message
  {
    s.(loading := false, error := Some(err), success := false)
  }

  /** `deleteUser.fulfilled`: signed out, with a success message. */
  function DeleteFulfilled(s: UserState): (t: UserState)
    ensures t.userInfo.None? && t.success && !t.loading && t.error.None?
    ensures t.message == Some(AccountDeleted)
  {
    s.(userInfo := None, error := None, loading := false, success := true,
       message := Some(AccountDeleted))
  }

  /** `logoutUser.fulfilled`. */
  function LogoutFulfilled(s: UserState): (t: UserState)
    ensures t.userInfo.None? && !t.loading && !t.success && t.error.None? && t.message.None?
  {
    s.(userInfo := None, loading := false, success := false, error := None, message := None)
  }

  /** Logging out returns the session to its initial state, from any state. */
  lemma LogoutIsInitial(s: UserState)
    ensures LogoutFulfilled(s) == Initial
  {
  }

  /** The whole logout: the thunk first empties the complaint list, then
      the session is cleared. The complaint flags are left as they were. */
  function Logout(s: UserState, c: ComplaintSlice.ComplaintState)
    : (r: (UserState, ComplaintSlice.ComplaintState))
    ensures r.0 == Initial
    ensures r.1.complaints == []
    ensures r.1.(complaints := c.complaints) == c
  {
    (LogoutFulfilled(s), ComplaintSlice.ClearComplaints(c))
  }

  /** The sign-in pages move on exactly when a request succeeded and a user
      is signed in. */
  predicate ShouldNavigate(s: UserState) {
    s.success && s.userInfo.Some?
  }

  /** After a successful sign-in the page moves on and then resets the
      status, which keeps the user and stops any further move. */
  lemma NavigateOnceAfterLogin(s: UserState, payload: UserInfo)
    ensures ShouldNavigate(Fulfilled(Pending(s), payload, LoggedIn))
    ensures var t := ResetAuthStatus(Fulfilled(Pending(s), payload, LoggedIn));
            !ShouldNavigate(t) && t.userInfo == Some(payload)
  {
  }

  /** A failed request never moves the page on, and a delete or logout
      never does either, since both sign the user out. */
  lemma NoNavigateWithoutUser(s: UserState, err: string)
    ensures !ShouldNavigate(RejectedCase(s, err))
    ensures !ShouldNavigate(DeleteFulfilled(s))
    ensures !ShouldNavigate(LogoutFulfilled(s))
  {
  }
}
