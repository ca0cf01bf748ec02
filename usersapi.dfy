// The user-administration controller (controllers/user.controller.js): reading and editing
// a user, and changing the caller's password. bcrypt's compare and hash are parameters.
// Every route of routes/user.routes.js sits behind `router.use(auth, requireRole('ADMIN'))`,
// which runs before the route-level `auth` of change-password, so only an ADMIN principal
// reaches any of these handlers.
module UserController {
  import opened Common
  import opened Text
  import opened Auth
  import opened Store

  /** The columns getUserById and updateUser select: never the password. */
  datatype PublicUser = PublicUser(id: int, name: string, email: string, role: string)

  function PublicView(u: User): PublicUser
  {
    PublicUser(u.id, u.name, u.email, u.role)
  }

  /** The position of the row `findUnique({ where: { id } })` and `update({ where: { id } })` address. */
  function UserIndex(t: Tables, id: int): (j: Option<nat>)
    ensures j.Some? ==> j.value < |t.users| && t.users[j.value].id == id
    ensures j.None? <==> FindUser(t, id).None?
    ensures j.Some? ==> FindUser(t, id) == Some(t.users[j.value])
  {
    First(t.users, UserWithId(id))
  }

  /** The values of the Role enum column. */
  predicate IsRole(s: string)
  {
    s == ADMIN || s == SUB_ADMIN || s == USER
  }

  /**
   * The only way a principal reaches a handler of this controller: the router-level
   * requireRole('ADMIN') passes exactly the ADMIN role, so change-password, although
   * declared with `auth` only, is closed to SUB_ADMIN and USER principals.
   */
  lemma {:induction false} UserRoutesAreAdminOnly(user: Option<Claims>)
    ensures RequireRole(ADMIN, user) == Next <==> user.Some? && user.value.role == ADMIN
    ensures user.Some? && user.value.role == SUB_ADMIN ==> RequireRole(ADMIN, user) == Deny(403)
    ensures user.Some? && user.value.role == USER ==> RequireRole(ADMIN, user) == Deny(403)
  {
    if user.Some? && user.value.role == ADMIN {
      AdminPassesEverything(ADMIN, user.value.id);
    }
  }

  // ---------------------------------------------------------------- getUserById

  /**
   * GET /users/:id. `parseInt(id, 10)`; a NaN id makes the query throw, which goes to
   * next(err). An unknown id is 404.
   */
  method GetUserById(db: Database, idParam: string) returns (outcome: Outcome, user: Option<PublicUser>)
    ensures ParseInt(idParam, false).None? ==> outcome == Forwarded
    ensures ParseInt(idParam, false).Some? ==>
              (outcome == Reply(404) <==> FindUser(db.tables, ParseInt(idParam, false).value).None?)
    ensures outcome == Reply(200) <==> user.Some?
    ensures outcome in {Forwarded, Reply(404), Reply(200)}
    ensures user.Some? ==> exists j :: 0 <= j < |db.tables.users| && db.tables.users[j].id == user.value.id
                                       && PublicView(db.tables.users[j]) == user.value
                                       && Some(user.value.id) == ParseInt(idParam, false)
  {
    var id := ParseInt(idParam, false);
    if id.None? {
      return Forwarded, None;
    }
    var j := UserIndex(db.tables, id.value);
    if j.None? {
      return Reply(404), None;
    }
    return Reply(200), Some(PublicView(db.tables.users[j.value]));
  }

  // ---------------------------------------------------------------- updateUser

  /** `findFirst({ where: { email, id: { not: id } } })` finds a row: another user has the email. */
  predicate EmailTaken(t: Tables, email: string, id: int)
  {
    exists j :: 0 <= j < |t.users| && t.users[j].email == email && t.users[j].id != id
  }

  /** A user whose email no other row has is never refused for keeping it. */
  lemma {:induction false} OwnEmailIsFree(t: Tables, id: int, j: nat)
    requires j < |t.users| && t.users[j].id == id
    requires forall k :: 0 <= k < |t.users| && t.users[k].email == t.users[j].email ==> t.users[k].id == id
    ensures !EmailTaken(t, t.users[j].email, id)
  {
  }

  /**
   * The row after `update({ data: { name, email, role: role || undefined } })`: name and
   * email replaced, the role replaced only by a truthy role, everything else kept.
   */
  function Edited(u: User, name: string, email: string, role: JsValue): (r: User)
    requires !JsTruthy(role) || role.Str?
    ensures r.id == u.id && r.password == u.password && r.isAnonymous == u.isAnonymous
    ensures r.name == name && r.email == email
    ensures !JsTruthy(role) ==> r.role == u.role
    ensures JsTruthy(role) ==> r.role == role.s
  {
    u.(name := name, email := email, role := if JsTruthy(role) then role.s else u.role)
  }

  /**
   * PUT /users/:id, in the source's order: 400 when name or email is falsy; the
   * uniqueness query throws for a non-string email or a NaN id; 409 when another user
   * has the email; the update throws for a missing row (Prisma P2025), a non-string
   * name or a truthy role outside the Role enum. Every throw goes to next(err).
   */
  method UpdateUser(db: Database, idParam: string, name: JsValue, email: JsValue, role: JsValue)
    returns (outcome: Outcome, updated: Option<PublicUser>)
    modifies db
    ensures var id := ParseInt(idParam, false);
            && (!JsTruthy(name) || !JsTruthy(email) ==> outcome == Reply(400))
            && (JsTruthy(name) && JsTruthy(email) && (!email.Str? || id.None?) ==> outcome == Forwarded)
            && (JsTruthy(name) && JsTruthy(email) && email.Str? && id.Some? ==>
                  (outcome == Reply(409) <==> EmailTaken(old(db.tables), email.s, id.value)))
    ensures var id := ParseInt(idParam, false);
            JsTruthy(name) && JsTruthy(email) && email.Str? && id.Some?
            && !EmailTaken(old(db.tables), email.s, id.value) ==>
              (outcome == Reply(200) <==>
                 UserIndex(old(db.tables), id.value).Some? && name.Str? && (!JsTruthy(role) || (role.Str? && IsRole(role.s))))
              && (outcome != Reply(200) ==> outcome == Forwarded)
    ensures outcome == Reply(200) ==>
              var j := UserIndex(old(db.tables), ParseInt(idParam, false).value).value;
              && db.tables == old(db.tables).(users := old(db.tables).users[j := Edited(old(db.tables).users[j], name.s, email.s, role)])
              && updated == Some(PublicView(db.tables.users[j]))
    ensures outcome != Reply(200) ==> db.tables == old(db.tables) && updated.None?
  {
    if !JsTruthy(name) || !JsTruthy(email) {
      return Reply(400), None;
    }
    var id := ParseInt(idParam, false);
    if !email.Str? || id.None? {
      return Forwarded, None;
    }
    if exists j :: 0 <= j < |db.tables.users| && db.tables.users[j].email == email.s && db.tables.users[j].id != id.value {
      return Reply(409), None;
    }
    var j := UserIndex(db.tables, id.value);
    if j.None? || !name.Str? || (JsTruthy(role) && !(role.Str? && IsRole(role.s))) {
      return Forwarded, None;
    }
    var row := Edited(db.tables.users[j.value], name.s, email.s, role);
    db.tables := db.tables.(users := db.tables.users[j.value := row]);
    return Reply(200), Some(PublicView(row));
  }

  // ---------------------------------------------------------------- changePassword

  const MIN_PASSWORD_LENGTH: nat := 8

  /**
   * The two input checks of changePassword, in order: both passwords present, then a
   * string newPassword of at least 8 UTF-16 code units (`.length`). A non-string
   * newPassword has no length and passes; None means the request goes on.
   */
  function PasswordInputError(oldPassword: JsValue, newPassword: JsValue): (status: Option<int>)
    ensures status.Some? ==> status.value == 400
    ensures status.None? <==>
              JsTruthy(oldPassword) && JsTruthy(newPassword)
              && (newPassword.Str? ==> JsLength(newPassword.s) >= MIN_PASSWORD_LENGTH)
  {
    if !JsTruthy(oldPassword) || !JsTruthy(newPassword) then Some(400)
    else if newPassword.Str? && JsLength(newPassword.s) < MIN_PASSWORD_LENGTH then Some(400)
    else None
  }

  /**
   * The length is counted in UTF-16 code units: four characters outside the Basic
   * Multilingual Plane already make a long-enough password.
   */
  lemma {:induction false} FourAstralCharactersSuffice(c: char)
    requires c as int > 0xFFFF
    ensures PasswordInputError(Str("x"), Str([c, c, c, c])).None?
  {
    assert [c][..0] == [];
    assert JsLength([c]) == 2;
    assert [c, c][..1] == [c];
    assert JsLength([c, c]) == 4;
    assert [c, c, c][..2] == [c, c];
    assert JsLength([c, c, c]) == 6;
    assert [c, c, c, c][..3] == [c, c, c];
  }

  /**
   * POST /users/change-password for `principal` (req.user). bcrypt's compare and hash
   * throw for a non-string argument, which goes to next(err); a missing row is 404 and
   * a wrong old password 401, both with no write. On success only that user's password
   * column changes, to the hash of newPassword.
   */
  method ChangePassword(db: Database, principal: Claims, oldPassword: JsValue, newPassword: JsValue,
                        compare: (string, string) -> bool, hash: string -> string)
    returns (outcome: Outcome)
    modifies db
    ensures PasswordInputError(oldPassword, newPassword).Some? ==> outcome == Reply(400)
    ensures PasswordInputError(oldPassword, newPassword).None? ==>
              (outcome == Reply(404) <==> FindUser(old(db.tables), principal.id).None?)
    ensures PasswordInputError(oldPassword, newPassword).None? && FindUser(old(db.tables), principal.id).Some? ==>
              var stored := FindUser(old(db.tables), principal.id).value.password;
              && (!oldPassword.Str? ==> outcome == Forwarded)
              && (oldPassword.Str? && !compare(oldPassword.s, stored) ==> outcome == Reply(401))
              && (oldPassword.Str? && compare(oldPassword.s, stored) ==>
                    outcome == (if newPassword.Str? then Reply(200) else Forwarded))
    ensures outcome == Reply(200) ==>
              var j := UserIndex(old(db.tables), principal.id).value;
              && db.tables == old(db.tables).(users := old(db.tables).users[j := old(db.tables).users[j].(password := hash(newPassword.s))])
    ensures outcome != Reply(200) ==> db.tables == old(db.tables)
  {
    if PasswordInputError(oldPassword, newPassword).Some? {
      return Reply(400);
    }
    var j := UserIndex(db.tables, principal.id);
    if j.None? {
      return Reply(404);
    }
    if !oldPassword.Str? {
      return Forwarded;
    }
    if !compare(oldPassword.s, db.tables.users[j.value].password) {
      return Reply(401);
    }
    if !newPassword.Str? {
      return Forwarded;
    }
    var u := db.tables.users[j.value];
    db.tables := db.tables.(users := db.tables.users[j.value := u.(password := hash(newPassword.s))]);
    return Reply(200);
  }

  /**
   * With a compare that accepts every password against its own hash, as bcrypt's does,
   * the password set by a successful change is the one the next change must present.
   */
  lemma {:induction false} NewPasswordIsTheOneChecked(t: Tables, j: nat, newPassword: string,
                                                      compare: (string, string) -> bool, hash: string -> string)
    requires j < |t.users|
    requires forall p: string :: compare(p, hash(p))
    ensures var r := t.(users := t.users[j := t.users[j].(password := hash(newPassword))]);
            compare(newPassword, r.users[j].password)
            && forall k :: 0 <= k < |t.users| && k != j ==> r.users[k] == t.users[k]
  {
    var r := t.(users := t.users[j := t.users[j].(password := hash(newPassword))]);
    assert r.users[j].password == hash(newPassword);
  }
}
