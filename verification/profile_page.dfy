/** The profile page: the "member since" line, the avatar initials, the
    edit form and the save request. Locale date formatting is a parameter. */
module ProfilePage {
  import opened Base
  import opened UserTypes
  import UserController

  /** `formatDate`: "N/A" for an absent or empty date, the localized
      rendering otherwise. */
  function FormatDate(date: Option<string>, localize: string -> string): (s: string)
    ensures !Filled(date) ==> s == "N/A"
    ensures Filled(date) ==> s == localize(date.value)
  {
    if !Filled(date) then "N/A" else localize(date.value)
  }

  /** The server's user replies carry no creation time, so a profile
      built from one always reads "Member Since: N/A". */
  lemma MemberSinceUnknown(r: UserController.UserResponse, localize: string -> string)
    ensures FormatDate(FromResponse(r).createdAt, localize) == "N/A"
  {
  }

  /** `userInitials`: the first letters of first and last name when both
      are non-empty, else the first letter of the username, else "NA". */
  function UserInitials(u: Option<UserInfo>): (s: string)
    ensures 1 <= |s| <= 2
    ensures u.Some? && Filled(u.value.firstName) && Filled(u.value.lastName) ==>
              s == [u.value.firstName.value[0], u.value.lastName.value[0]]
    ensures (u.Some? && !(Filled(u.value.firstName) && Filled(u.value.lastName))
             && Filled(u.value.username)) ==> s == [u.value.username.value[0]]
    ensures (u.None? || (!(Filled(u.value.firstName) && Filled(u.value.lastName))
                         && !Filled(u.value.username))) ==> s == "NA"
  {
    if u.Some? && Filled(u.value.firstName) && Filled(u.value.lastName) then
      [u.value.firstName.value[0], u.value.lastName.value[0]]
    else if u.Some? && Filled(u.value.username) then [u.value.username.value[0]]
    else "NA"
  }

  /** The edit form: field name to entered text. */
  type Form = map<string, string>

  /** A present, non-empty field's text, else "". */
  function TextOrEmpty(x: Option<string>): (s: string)
    ensures Filled(x) ==> s == x.value
    ensures !Filled(x) ==> s == ""
  {
    if Filled(x) then x.value else ""
  }

  /** The seven fields the form starts with, each defaulting to "". */
  function InitialForm(u: Option<UserInfo>): (f: Form)
    ensures f.Keys == {"firstName", "lastName", "email", "phoneNumber", "address", "gender", "dob"}
    ensures u.None? ==> forall k :: k in f ==> f[k] == ""
    ensures u.Some? ==> && f["firstName"] == TextOrEmpty(u.value.firstName)
                        && f["lastName"] == TextOrEmpty(u.value.lastName)
                        && f["email"] == TextOrEmpty(u.value.email)
                        && f["phoneNumber"] == TextOrEmpty(u.value.phoneNumber)
                        && f["address"] == TextOrEmpty(u.value.address)
                        && f["gender"] == TextOrEmpty(u.value.gender)
                        && f["dob"] == TextOrEmpty(u.value.dob)
  {
    var none := UserInfo(None, None, None, None, None, None, None, None, None, None, None);
    var v := u.GetOr(none);
    map["firstName" := TextOrEmpty(v.firstName), "lastName" := TextOrEmpty(v.lastName),
        "email" := TextOrEmpty(v.email), "phoneNumber" := TextOrEmpty(v.phoneNumber),
        "address" := TextOrEmpty(v.address), "gender" := TextOrEmpty(v.gender),
        "dob" := TextOrEmpty(v.dob)]
  }

  /** `handleChange`: sets the named field and leaves every other one. */
  function HandleChange(f: Form, name: string, value: string): (g: Form)
    ensures g.Keys == f.Keys + {name}
    ensures g[name] == value
    ensures forall k :: k in f && k != name ==> g[k] == f[k]
  {
    f[name := value]
  }

  /** The update request `handleSave` dispatches. */
  datatype SaveRequest = SaveRequest(id: string, updates: Form, token: string)

  /** `handleSave`: sent only for a user with an id and a token, the
      user's own or else the stored one; the whole form is the update. */
  function HandleSave(u: Option<UserInfo>, storedToken: Option<string>, f: Form)
    : (r: Option<SaveRequest>)
    ensures r.Some? <==> u.Some? && Filled(u.value.id)
                         && (Filled(u.value.token) || Filled(storedToken))
    ensures r.Some? ==> r.value.id == u.value.id.value && r.value.updates == f
    ensures r.Some? ==>
              r.value.token == (if Filled(u.value.token) then u.value.token.value
                                else storedToken.value)
  {
    if u.None? then None
    else
      var token := OrElse(u.value.token, storedToken);
      if Filled(u.value.id) && Filled(token) then Some(SaveRequest(u.value.id.value, f, token.value))
      else None
  }

  function Field(f: Form, key: string): Option<string> {
    if key in f then Some(f[key]) else None
  }

  /** The form as the server's update handler reads it: a key of the form
      is a field sent, a key it lacks is a field not sent. */
  function ToUserUpdate(f: Form): (up: UserController.UserUpdate)
    ensures up.username == Field(f, "username")
    ensures up.firstName == Field(f, "firstName")
    ensures up.lastName == Field(f, "lastName")
    ensures up.email == Field(f, "email")
    ensures up.password == Field(f, "password")
    ensures up.dob == Field(f, "dob")
    ensures up.phoneNumber == Field(f, "phoneNumber")
    ensures up.address == Field(f, "address")
    ensures up.gender == Field(f, "gender")
  {
    UserController.UserUpdate(Field(f, "username"), Field(f, "firstName"), Field(f, "lastName"),
                              Field(f, "email"), Field(f, "password"), Field(f, "dob"),
                              Field(f, "phoneNumber"), Field(f, "address"), Field(f, "gender"))
  }

  /** Saving a form that has no password field (the page renders none)
      keeps the stored password hash. */
  lemma SaveKeepsPassword(store: UserController.UserStore, u: UserInfo, stored: Option<string>,
                          f: Form, salt: string, crypto: UserController.Crypto)
    requires "password" !in f
    requires HandleSave(Some(u), stored, f).Some?
    requires UserController.HasId(store, u.id.value)
    ensures var req := HandleSave(Some(u), stored, f).value;
            var h := UserController.UpdateUser(store, req.id, req.id, ToUserUpdate(req.updates),
                                               salt, crypto);
            var i := UserController.IndexOf(store, req.id).value;
            h.reply.Ok? && h.store[i].password == store[i].password
  {
  }

  /** Saving the profile form writes each of its seven fields into the
      stored account as typed, and keeps the username and password. */
  lemma SaveWritesForm(store: UserController.UserStore, u: UserInfo, stored: Option<string>,
                       f: Form, salt: string, crypto: UserController.Crypto)
    requires f.Keys == InitialForm(Some(u)).Keys
    requires HandleSave(Some(u), stored, f).Some?
    requires UserController.HasId(store, u.id.value)
    ensures var req := HandleSave(Some(u), stored, f).value;
            var h := UserController.UpdateUser(store, req.id, req.id, ToUserUpdate(req.updates),
                                               salt, crypto);
            var i := UserController.IndexOf(store, req.id).value;
            var a := h.store[i];
            && h.reply.Ok?
            && a.firstName == f["firstName"] && a.lastName == f["lastName"]
            && a.email == f["email"] && a.phoneNumber == f["phoneNumber"]
            && a.address == f["address"] && a.gender == f["gender"] && a.dob == f["dob"]
            && a.username == store[i].username && a.password == store[i].password
  {
  }

  /** Edits through the rendered fields never add a password field. */
  lemma EditsNeverAddPassword(u: Option<UserInfo>, names: seq<string>, values: seq<string>)
    requires |names| == |values|
    requires forall k :: 0 <= k < |names| ==> names[k] != "password"
    ensures "password" !in Edit(InitialForm(u), names, values)
  {
    EditKeys(InitialForm(u), names, values);
  }

  /** A run of `handleChange` calls. */
  function Edit(f: Form, names: seq<string>, values: seq<string>): Form
    requires |names| == |values|
    decreases |names|
  {
    if names == [] then f
    else Edit(HandleChange(f, names[0], values[0]), names[1..], values[1..])
  }

  lemma {:induction false} EditKeys(f: Form, names: seq<string>, values: seq<string>)
    requires |names| == |values|
    decreases |names|
    ensures Edit(f, names, values).Keys
            == f.Keys + set k | 0 <= k < |names| :: names[k]
  {
    if names != [] {
      EditKeys(HandleChange(f, names[0], values[0]), names[1..], values[1..]);
      var rest := set k | 0 <= k < |names| - 1 :: names[1..][k];
      var all := set k | 0 <= k < |names| :: names[k];
      assert all == {names[0]} + rest by {
        forall x | x in all ensures x in {names[0]} + rest {
          var k :| 0 <= k < |names| && names[k] == x;
          if k > 0 { assert names[1..][k - 1] == x; }
        }
        forall x | x in rest ensures x in all {
          var k :| 0 <= k < |names| - 1 && names[1..][k] == x;
          assert names[k + 1] == x;
        }
      }
    }
  }
}
