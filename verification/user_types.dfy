/** The signed-in user as the browser keeps it (the `User` payload). Any
    field may be missing from what was stored, so each is optional. */
module UserTypes {
  import opened Base
  import UserController

  datatype UserInfo = UserInfo(
    id: Option<string>,
    username: Option<string>,
    firstName: Option<string>,
    lastName: Option<string>,
    email: Option<string>,
    dob: Option<string>,
    phoneNumber: Option<string>,
    address: Option<string>,
    gender: Option<string>,
    token: Option<string>,
    createdAt: Option<string>)

  /** The JSON of a server user response as the client receives it. The
      response carries no creation time. */
  function FromResponse(r: UserController.UserResponse): (u: UserInfo)
    ensures u.id == Some(r.id) && u.token == Some(r.token) && u.email == Some(r.email)
    ensures u.createdAt.None?
  {
    UserInfo(Some(r.id), Some(r.username), Some(r.firstName), Some(r.lastName), Some(r.email),
             Some(r.dob), Some(r.phoneNumber), Some(r.address), Some(r.gender),
             Some(r.token), None)
  }
}
