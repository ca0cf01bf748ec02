// The account pages of the admin frontend: user management (pages/UserManagement.tsx),
// with its password-strength meter, staff listing and create/edit dialogs, and the
// settings page (pages/Settings.tsx), with its profile form and password change.
module Accounts {
  import opened Common
  import opened Text
  import opened Store
  import Users = UserController

  // ---------------------------------------------------------------- password strength

  /** The four character classes the meter's regular expressions look for. */
  datatype CharClass = Upper | Lower | Digit | Special

  /** `[A-Z]`, `[a-z]`, `[0-9]` and `[^A-Za-z0-9]` on one character. */
  predicate InClass(c: char, k: CharClass)
  {
    match k
    case Upper => 'A' <= c <= 'Z'
    case Lower => 'a' <= c <= 'z'
    case Digit => '0' <= c <= '9'
    case Special => !('A' <= c <= 'Z' || 'a' <= c <= 'z' || '0' <= c <= '9')
  }

  /** The regular expression of class `k` finds a match somewhere in `s`. */
  predicate Has(s: string, k: CharClass)
  {
    exists i :: 0 <= i < |s| && InClass(s[i], k)
  }

  /**
   * `/[…]/.test(password)`: a left-to-right scan that stops at the first character of
   * the class. A character outside the Basic Multilingual Plane is two surrogate code
   * units in JavaScript, neither of them alphanumeric, so it is special either way.
   */
  method Test(s: string, k: CharClass) returns (found: bool)
    ensures found <==> Has(s, k)
  {
    var i := 0;
    while i < |s|
      invariant 0 <= i <= |s|
      invariant forall j :: 0 <= j < i ==> !InClass(s[j], k)
    {
      if InClass(s[i], k) {
        return true;
      }
      i := i + 1;
    }
    return false;
  }

  function Point(b: bool): nat { if b then 1 else 0 }

  /** How many of the four character classes occur in `s`. */
  function Classes(s: string): (n: nat)
  {
    Point(Has(s, Upper)) + Point(Has(s, Lower)) + Point(Has(s, Digit)) + Point(Has(s, Special))
  }

  /**
   * The strength score: one point for a non-empty password, one for 8 or more UTF-16
   * code units, and one for each character class present.
   */
  function Score(s: string): nat
  {
    Point(|s| > 0) + Point(JsLength(s) >= 8) + Classes(s)
  }

  datatype Level = Weak | Medium | Strong

  /** The text, bar colour and bar width the meter shows. */
  datatype Meter = Meter(text: string, color: string, width: string)

  function LevelOf(strength: nat): (l: Level)
    ensures l == Weak <==> strength <= 2
    ensures l == Strong <==> strength >= 5
  {
    if strength <= 2 then Weak else if strength <= 4 then Medium else Strong
  }

  function MeterOf(l: Level): (m: Meter)
    ensures m.text == "Weak" <==> l == Weak
    ensures m.text == "Strong" <==> l == Strong
  {
    match l
    case Weak => Meter("Weak", "bg-red-500", "33%")
    case Medium => Meter("Medium", "bg-yellow-500", "66%")
    case Strong => Meter("Strong", "bg-green-500", "100%")
  }

  /**
   * getPasswordStrength: the counter starts at 0 and each of the six tests that holds
   * adds one; the score then picks the meter.
   */
  method PasswordStrength(password: string) returns (strength: nat, meter: Meter)
    ensures strength == Score(password) && strength <= 6
    ensures meter == MeterOf(LevelOf(Score(password)))
  {
    strength := 0;
    if |password| > 0 {
      strength := strength + 1;
    }
    if JsLength(password) >= 8 {
      strength := strength + 1;
    }
    var upper := Test(password, Upper);
    if upper {
      strength := strength + 1;
    }
    var lower := Test(password, Lower);
    if lower {
      strength := strength + 1;
    }
    var digit := Test(password, Digit);
    if digit {
      strength := strength + 1;
    }
    var special := Test(password, Special);
    if special {
      strength := strength + 1;
    }
    meter := MeterOf(LevelOf(strength));
  }

  lemma {:induction false} HasAppend(a: string, b: string, k: CharClass)
    requires Has(a, k)
    ensures Has(a + b, k)
  {
    var i :| 0 <= i < |a| && InClass(a[i], k);
    assert (a + b)[i] == a[i];
  }

  /**
   * Typing more never weakens the password: every test stays true once it holds, so the
   * score and the level only go up.
   */
  lemma {:induction false} TypingNeverWeakens(a: string, b: string)
    ensures Score(a) <= Score(a + b)
    ensures LevelOf(Score(a)) != Weak ==> LevelOf(Score(a + b)) != Weak
    ensures LevelOf(Score(a)) == Strong ==> LevelOf(Score(a + b)) == Strong
  {
    JsLengthAppend(a, b);
    if Has(a, Upper) { HasAppend(a, b, Upper); }
    if Has(a, Lower) { HasAppend(a, b, Lower); }
    if Has(a, Digit) { HasAppend(a, b, Digit); }
    if Has(a, Special) { HasAppend(a, b, Special); }
  }

  /**
   * A strong password is non-empty and has either all four character classes, or three
   * of them and at least 8 code units. The empty password is weak.
   */
  lemma {:induction false} WhatStrongMeans(s: string)
    ensures LevelOf(Score(s)) == Strong <==>
              |s| > 0 && (Classes(s) == 4 || (JsLength(s) >= 8 && Classes(s) >= 3))
    ensures s == "" ==> LevelOf(Score(s)) == Weak
  {
    if |s| == 0 {
      assert !Has(s, Upper) && !Has(s, Lower) && !Has(s, Digit) && !Has(s, Special);
      assert JsLength(s) == 0;
    }
  }

  /** Eight lowercase letters are only Medium; adding a capital, a digit and a symbol is Strong. */
  lemma MeterExamples()
    ensures LevelOf(Score("abcdefgh")) == Medium
    ensures LevelOf(Score("Abcdefg1!")) == Strong
  {
    var s := "abcdefgh";
    assert InClass(s[0], Lower);
    assert forall i :: 0 <= i < |s| ==> InClass(s[i], Lower);
    assert JsLength(s) == 8 by { JsLengthOfBmp(s); }
    var t := "Abcdefg1!";
    assert InClass(t[0], Upper) && InClass(t[1], Lower) && InClass(t[7], Digit) && InClass(t[8], Special);
  }

  /** A string of Basic Multilingual Plane characters is as long in JavaScript as here. */
  lemma {:induction false} JsLengthOfBmp(s: string)
    requires forall i :: 0 <= i < |s| ==> s[i] as int <= 0xFFFF
    ensures JsLength(s) == |s|
  {
    if |s| > 0 {
      JsLengthOfBmp(s[..|s| - 1]);
    }
  }

  // ---------------------------------------------------------------- staff listing

  /** A row of GET /api/users as the page reads it. */
  datatype ListedUser = ListedUser(id: int, name: string, email: string, role: string, createdAt: int)

  function IsStaff(): ListedUser -> bool
  {
    (u: ListedUser) => u.role == ADMIN || u.role == SUB_ADMIN
  }

  /** fetchUsers: the administrators and sub-administrators among the users, in order. */
  function FetchUsers(users: seq<ListedUser>): (staff: seq<ListedUser>)
    ensures forall u :: u in staff <==> u in users && (u.role == ADMIN || u.role == SUB_ADMIN)
    ensures |staff| == |users| <==> forall u :: u in users ==> u.role == ADMIN || u.role == SUB_ADMIN
  {
    StaffCount(users);
    Where(users, IsStaff())
  }

  /** Filtering keeps every row exactly when every row matches. */
  lemma {:induction false} StaffCount(users: seq<ListedUser>)
    ensures |Where(users, IsStaff())| == |users| <==> forall u :: u in users ==> IsStaff()(u)
  {
    if |users| > 0 {
      var init := users[..|users| - 1];
      StaffCount(init);
      assert users == init + [users[|users| - 1]];
      assert forall u :: u in users <==> u in init || u == users[|users| - 1];
    }
  }

  /** A plain user never appears on the page, so a table of plain users shows "No users found." */
  lemma {:induction false} PlainUsersAreNotListed(users: seq<ListedUser>)
    requires forall u :: u in users ==> u.role == USER
    ensures FetchUsers(users) == []
  {
    if |FetchUsers(users)| > 0 {
      assert FetchUsers(users)[0] in users;
    }
  }

  /** The role column: a sub-administrator is shown as "User", the others by their role. */
  function RoleShown(role: string): (shown: string)
    ensures shown == "User" <==> role == SUB_ADMIN || role == "User"
    ensures role != SUB_ADMIN ==> shown == role
  {
    if role == SUB_ADMIN then "User" else role
  }

  // ---------------------------------------------------------------- create and edit

  datatype UserForm = UserForm(name: string, email: string, password: string, role: string)

  /** The form the dialogs start from and return to. */
  const BLANK_FORM: UserForm := UserForm("", "", "", SUB_ADMIN)

  /** The requests the page issues. */
  datatype UserRequest =
    | CreateUser(name: string, email: string, password: string, role: string)   // POST /api/users/sub-admin
    | UpdateUser(id: int, name: string, email: string, role: string)             // PUT /api/users/{id}
    | ResetPassword(id: int, newPassword: string)                                 // PATCH /api/users/{id}/password
    | DeleteUser(id: int)                                                         // DELETE /api/users/{id}

  /** handleCreateSubmit: every field is required, and the request carries the form as it is. */
  function CreateRequests(f: UserForm): (r: seq<UserRequest>)
    ensures r == [] <==> f.name == "" || f.email == "" || f.password == "" || f.role == ""
    ensures r != [] ==> r == [CreateUser(f.name, f.email, f.password, f.role)]
  {
    if f.name == "" || f.email == "" || f.password == "" || f.role == "" then []
    else [CreateUser(f.name, f.email, f.password, f.role)]
  }

  /**
   * handleEditSubmit: a selected user, a name, an email and a role are required; the
   * update is then followed by a password reset, whose guard `password || password === ''`
   * holds for every string.
   */
  function EditRequests(selected: Option<ListedUser>, f: UserForm): (r: seq<UserRequest>)
    ensures r == [] <==> selected.None? || f.name == "" || f.email == "" || f.role == ""
    ensures r != [] ==> |r| == 2 && r[0] == UpdateUser(selected.value.id, f.name, f.email, f.role)
  {
    if selected.None? || f.name == "" || f.email == "" || f.role == "" then []
    else
      var id := selected.value.id;
      [UpdateUser(id, f.name, f.email, f.role)] + (if Truthy(f.password) || f.password == "" then [ResetPassword(id, f.password)] else [])
  }

  /**
   * Every accepted edit also resets the password, to the empty string when the password
   * field was left blank.
   */
  lemma EditAlwaysResetsPassword(selected: Option<ListedUser>, f: UserForm)
    requires EditRequests(selected, f) != []
    ensures EditRequests(selected, f)[1] == ResetPassword(selected.value.id, f.password)
  {
  }

  /** An edit only needs a password where a creation does: a blank password still edits. */
  lemma BlankPasswordStillEdits(u: ListedUser)
    requires u.name != "" && u.email != "" && u.role != ""
    ensures CreateRequests(UserForm(u.name, u.email, "", u.role)) == []
    ensures EditRequests(Some(u), UserForm(u.name, u.email, "", u.role)) ==
              [UpdateUser(u.id, u.name, u.email, u.role), ResetPassword(u.id, "")]
  {
  }

  // ---------------------------------------------------------------- the users router

  datatype Verb = GET | POST | PUT | PATCH | DELETE

  /** The handlers of routes/user.routes.js, with the `:id` segment they receive. */
  datatype UserHandler =
    | GetAllUsers
    | GetUserById(id: string)
    | UpdateUserById(id: string)
    | DeleteUserById(id: string)
    | ChangeOwnPassword

  /**
   * Express's choice among the users router's routes for a path below /api/users, as a
   * list of segments. `:id` matches one non-empty segment. None is a request no route
   * handles.
   */
  function UsersRoute(verb: Verb, path: seq<string>): (h: Option<UserHandler>)
    ensures h.Some? ==> |path| <= 1
    ensures h == Some(ChangeOwnPassword) <==> verb == POST && path == ["change-password"]
    ensures verb == PATCH ==> h.None?
  {
    if verb == GET && path == [] then Some(GetAllUsers)
    else if |path| == 1 && path[0] != "" then
      match verb
      case GET => Some(GetUserById(path[0]))
      case PUT => Some(UpdateUserById(path[0]))
      case DELETE => Some(DeleteUserById(path[0]))
      case POST => if path[0] == "change-password" then Some(ChangeOwnPassword) else None
      case PATCH => None
    else None
  }

  /** The method and path below /api/users of each request the page builds. */
  function RouteOf(r: UserRequest): (Verb, seq<string>)
  {
    match r
    case CreateUser(_, _, _, _) => (POST, ["sub-admin"])
    case UpdateUser(id, _, _, _) => (PUT, [IntToDecimal(id)])
    case ResetPassword(id, _) => (PATCH, [IntToDecimal(id), "password"])
    case DeleteUser(id) => (DELETE, [IntToDecimal(id)])
  }

  function Handler(r: UserRequest): Option<UserHandler>
  {
    UsersRoute(RouteOf(r).0, RouteOf(r).1)
  }

  /**
   * The create and password-reset requests reach no handler of the users router: the
   * page calls routes the backend does not define. Updates and deletes reach their
   * handler with an id parameter that parses back to the user's id.
   */
  lemma {:induction false} WhereTheRequestsGo(r: UserRequest)
    ensures r.CreateUser? || r.ResetPassword? ==> Handler(r).None?
    ensures r.UpdateUser? ==>
              Handler(r).Some? && Handler(r).value.UpdateUserById?
              && ParseInt(Handler(r).value.id, false) == Some(r.id)
    ensures r.DeleteUser? ==>
              Handler(r).Some? && Handler(r).value.DeleteUserById?
              && ParseInt(Handler(r).value.id, false) == Some(r.id)
  {
    match r
    case CreateUser(_, _, _, _) =>
    case ResetPassword(_, _) =>
    case UpdateUser(id, _, _, _) =>
      IntRoundTrip(id, false);
      assert IntToDecimal(id) != "";
    case DeleteUser(id) =>
      IntRoundTrip(id, false);
      assert IntToDecimal(id) != "";
  }

  /** handleDeleteClick: the delete is sent only once the confirmation dialog is accepted. */
  function DeleteRequests(id: int, confirmed: bool): (r: seq<UserRequest>)
    ensures r != [] <==> confirmed
    ensures r != [] ==> Handler(r[0]).Some? && Handler(r[0]).value.DeleteUserById?
  {
    WhereTheRequestsGo(DeleteUser(id));
    if confirmed then [DeleteUser(id)] else []
  }

  /**
   * The page's dialog state. `created`, `updated` and `passwordChanged` say whether the
   * server accepted the corresponding request; either success of an edit closes the
   * dialog, clears the selection and blanks the form.
   */
  class UserManagementView {
    var createOpen: bool
    var editOpen: bool
    var selectedUser: Option<ListedUser>
    var formData: UserForm

    constructor ()
      ensures !createOpen && !editOpen && selectedUser.None? && formData == BLANK_FORM
    {
      createOpen := false;
      editOpen := false;
      selectedUser := None;
      formData := BLANK_FORM;
    }

    method OpenCreate()
      modifies this
      ensures createOpen && editOpen == old(editOpen)
      ensures selectedUser == old(selectedUser) && formData == old(formData)
    {
      createOpen := true;
    }

    /** handleEditClick: the form takes the user's name, email and role, and a blank password. */
    method HandleEditClick(user: ListedUser)
      modifies this
      ensures selectedUser == Some(user) && editOpen && createOpen == old(createOpen)
      ensures formData == UserForm(user.name, user.email, "", user.role)
    {
      selectedUser := Some(user);
      formData := UserForm(user.name, user.email, "", user.role);
      editOpen := true;
    }

    method HandleCreateSubmit(created: bool) returns (requests: seq<UserRequest>)
      modifies this
      ensures requests == CreateRequests(old(formData))
      ensures requests != [] && created ==> !createOpen && formData == BLANK_FORM
      ensures !(requests != [] && created) ==> createOpen == old(createOpen) && formData == old(formData)
      ensures editOpen == old(editOpen) && selectedUser == old(selectedUser)
    {
      requests := CreateRequests(formData);
      if requests != [] && created {
        createOpen := false;
        formData := BLANK_FORM;
      }
    }

    method HandleEditSubmit(updated: bool, passwordChanged: bool) returns (requests: seq<UserRequest>)
      modifies this
      ensures requests == EditRequests(old(selectedUser), old(formData))
      ensures requests != [] && (updated || passwordChanged) ==>
                !editOpen && selectedUser.None? && formData == BLANK_FORM
      ensures !(requests != [] && (updated || passwordChanged)) ==>
                editOpen == old(editOpen) && selectedUser == old(selectedUser) && formData == old(formData)
      ensures createOpen == old(createOpen)
    {
      requests := EditRequests(selectedUser, formData);
      if requests != [] && (updated || passwordChanged) {
        editOpen := false;
        selectedUser := None;
        formData := BLANK_FORM;
      }
    }
  }

  // ---------------------------------------------------------------- settings

  /** The account form; `id` stays null until /api/auth/me answers. */
  datatype Profile = Profile(id: Option<int>, name: string, email: string, role: string)

  datatype PasswordForm = PasswordForm(oldPassword: string, newPassword: string, confirmPassword: string)

  const BLANK_PASSWORDS: PasswordForm := PasswordForm("", "", "")

  /** The `id`s of the inputs wired to each handler. */
  datatype ProfileInput = NameInput | EmailInput
  datatype PasswordInput = OldInput | NewInput | ConfirmInput

  /** The /api/auth/me body; a missing or falsy name, email or role reads as "". */
  datatype MeReply = MeReply(id: int, name: string, email: string, role: string)

  datatype SaveRequest = SaveRequest(id: int, name: string, email: string, role: string)

  /** The outcome of handleChangePassword's checks, in the order it makes them. */
  datatype PasswordCheck =
    | MissingField
    | Mismatch
    | TooShort
    | NoToken
    | Send(oldPassword: string, newPassword: string)

  /**
   * The first check that fails decides: all three fields filled, the new password typed
   * twice alike, at least 8 UTF-16 code units, and a stored token.
   */
  function CheckPasswordChange(f: PasswordForm, token: Option<string>): (c: PasswordCheck)
    ensures c == MissingField <==> f.oldPassword == "" || f.newPassword == "" || f.confirmPassword == ""
    ensures c == Mismatch <==>
              f.oldPassword != "" && f.newPassword != "" && f.confirmPassword != ""
              && f.newPassword != f.confirmPassword
    ensures c == TooShort ==> f.newPassword == f.confirmPassword && JsLength(f.newPassword) < 8
    ensures c.Send? <==>
              f.oldPassword != "" && f.newPassword == f.confirmPassword
              && JsLength(f.newPassword) >= 8 && Present(token)
    ensures c.Send? ==> c == Send(f.oldPassword, f.newPassword)
  {
    if f.oldPassword == "" || f.newPassword == "" || f.confirmPassword == "" then MissingField
    else if f.newPassword != f.confirmPassword then Mismatch
    else if JsLength(f.newPassword) < 8 then TooShort
    else if !Present(token) then NoToken
    else Send(f.oldPassword, f.newPassword)
  }

  /**
   * Whatever the page sends passes the server's own input checks of changePassword:
   * the page asks for the same minimum length, counted the same way.
   */
  lemma SentPasswordsPassServerChecks(f: PasswordForm, token: Option<string>)
    requires CheckPasswordChange(f, token).Send?
    ensures Users.PasswordInputError(Str(f.oldPassword), Str(f.newPassword)).None?
  {
    assert Users.MIN_PASSWORD_LENGTH == 8;
  }

  class SettingsPage {
    var isLoading: bool
    var userData: Profile
    var passwordData: PasswordForm

    constructor ()
      ensures !isLoading && userData == Profile(None, "", "", "") && passwordData == BLANK_PASSWORDS
    {
      isLoading := false;
      userData := Profile(None, "", "", "");
      passwordData := BLANK_PASSWORDS;
    }

    /** fetchUserData on mount: without a token, or when the request fails, nothing changes. */
    method FetchUserData(token: Option<string>, reply: Option<MeReply>)
      modifies this
      ensures Present(token) && reply.Some? ==>
                userData == Profile(Some(reply.value.id), reply.value.name, reply.value.email, reply.value.role)
      ensures !(Present(token) && reply.Some?) ==> userData == old(userData)
      ensures isLoading == old(isLoading) && passwordData == old(passwordData)
    {
      if !Present(token) {
        return;
      }
      if reply.Some? {
        var data := reply.value;
        userData := Profile(Some(data.id), data.name, data.email, data.role);
      }
    }

    /** handleInputChange: only the field named by the input's id takes the value. */
    method HandleInputChange(input: ProfileInput, value: string)
      modifies this
      ensures input == NameInput ==> userData == old(userData).(name := value)
      ensures input == EmailInput ==> userData == old(userData).(email := value)
      ensures isLoading == old(isLoading) && passwordData == old(passwordData)
    {
      match input
      case NameInput => userData := userData.(name := value);
      case EmailInput => userData := userData.(email := value);
    }

    /** handlePasswordChange: only the password field named by the input's id changes. */
    method HandlePasswordChange(input: PasswordInput, value: string)
      modifies this
      ensures input == OldInput ==> passwordData == old(passwordData).(oldPassword := value)
      ensures input == NewInput ==> passwordData == old(passwordData).(newPassword := value)
      ensures input == ConfirmInput ==> passwordData == old(passwordData).(confirmPassword := value)
      ensures isLoading == old(isLoading) && userData == old(userData)
    {
      match input
      case OldInput => passwordData := passwordData.(oldPassword := value);
      case NewInput => passwordData := passwordData.(newPassword := value);
      case ConfirmInput => passwordData := passwordData.(confirmPassword := value);
    }

    /**
     * handleSave: a stored token and a truthy user id are required before the PUT, which
     * carries the form's name, email and role. The loading flag is down again on every
     * path out.
     */
    method HandleSave(token: Option<string>) returns (request: Option<SaveRequest>)
      modifies this
      ensures request.Some? <==> Present(token) && TruthyId(old(userData).id)
      ensures request.Some? ==>
                && userData.id.Some?
                && request.value == SaveRequest(userData.id.value, userData.name, userData.email, userData.role)
      ensures !isLoading && userData == old(userData) && passwordData == old(passwordData)
    {
      isLoading := true;
      if !Present(token) {
        isLoading := false;
        return None;
      }
      if !TruthyId(userData.id) {
        isLoading := false;
        return None;
      }
      request := Some(SaveRequest(userData.id.value, userData.name, userData.email, userData.role));
      isLoading := false;
    }

    /**
     * handleChangePassword: the checks of CheckPasswordChange, then the POST; the three
     * fields are blanked only when the server accepts (`accepted`). The loading flag is
     * down again on every path out.
     */
    method HandleChangePassword(token: Option<string>, accepted: bool) returns (check: PasswordCheck)
      modifies this
      ensures check == CheckPasswordChange(old(passwordData), token)
      ensures passwordData == (if check.Send? && accepted then BLANK_PASSWORDS else old(passwordData))
      ensures !isLoading && userData == old(userData)
    {
      isLoading := true;
      check := CheckPasswordChange(passwordData, token);
      if check.Send? && accepted {
        passwordData := BLANK_PASSWORDS;
      }
      isLoading := false;
    }
  }
}
