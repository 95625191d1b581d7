/**
 * The authentication routes: login, the current user, and the password
 * change. `compare` and `hash` stand for bcrypt, `sign` for signing a JSON
 * Web Token; `now` is the clock in milliseconds.
 */
module AuthRoutes {
  import opened Common
  import opened Strings
  import opened Model
  import opened Store
  import opened AuthMiddleware

  /** A user of either table. */
  datatype Account = FirmAccount(firm: FirmUser) | ClientAccount(client: ClientUser)
  {
    function Id(): Id {
      if FirmAccount? then firm.id else client.id
    }

    function Email(): string {
      if FirmAccount? then firm.email else client.email
    }

    function PasswordHash(): string {
      if FirmAccount? then firm.passwordHash else client.passwordHash
    }

    predicate Active() {
      if FirmAccount? then firm.isActive else client.isActive
    }

    function UserType(): string {
      if FirmAccount? then "firm" else "client"
    }
  }

  /** `firmUser.findUnique({ where: { email } })`: emails are unique, so at
      most one row matches. */
  function FirmByEmail(m: map<Id, FirmUser>, e: string): (r: Option<FirmUser>)
    requires forall k :: k in m ==> m[k].id == k
    requires forall a, b :: a in m && b in m && a != b ==> m[a].email != m[b].email
    ensures r.Some? <==> exists k :: k in m && m[k].email == e
    ensures r.Some? ==> r.value.email == e && r.value.id in m && m[r.value.id] == r.value
  {
    if exists k :: k in m && m[k].email == e then
      var k :| k in m && m[k].email == e;
      Some(m[k])
    else None
  }

  function ClientByEmail(m: map<Id, ClientUser>, e: string): (r: Option<ClientUser>)
    requires forall k :: k in m ==> m[k].id == k
    requires forall a, b :: a in m && b in m && a != b ==> m[a].email != m[b].email
    ensures r.Some? <==> exists k :: k in m && m[k].email == e
    ensures r.Some? ==> r.value.email == e && r.value.id in m && m[r.value.id] == r.value
  {
    if exists k :: k in m && m[k].email == e then
      var k :| k in m && m[k].email == e;
      Some(m[k])
    else None
  }

  /** The login lookup: firm users first; client users only when no firm
      user has the email. */
  function AccountByEmail(t: Tables, e: string): (r: Option<Account>)
    requires Consistent(t)
    ensures FirmByEmail(t.firmUsers, e).Some? ==> r == Some(FirmAccount(FirmByEmail(t.firmUsers, e).value))
    ensures FirmByEmail(t.firmUsers, e).None? ==>
      r == (if ClientByEmail(t.clientUsers, e).Some? then Some(ClientAccount(ClientByEmail(t.clientUsers, e).value)) else None)
    ensures r.Some? ==> Stored(t, r.value) && r.value.Email() == e
  {
    match FirmByEmail(t.firmUsers, e)
    case Some(u) => Some(FirmAccount(u))
    case None =>
      match ClientByEmail(t.clientUsers, e)
      case Some(u) => Some(ClientAccount(u))
      case None => None
  }

  /** The checks of a login: 400 without both fields; one 401 for an
      unknown email, an inactive user and a wrong password alike. */
  function CheckCredentials(t: Tables, email: Option<string>, password: Option<string>,
                            compare: (string, string) -> bool): (r: Response<Account>)
    requires Consistent(t)
    ensures !(Truthy(email) && Truthy(password)) ==> r == BadRequest("Email and password required")
    ensures r.Ok? || r == BadRequest("Email and password required") || r == Unauthorized("Invalid credentials")
    ensures r.Ok? <==>
      && Truthy(email) && Truthy(password) && AccountByEmail(t, email.value).Some?
      && AccountByEmail(t, email.value).value.Active()
      && compare(password.value, AccountByEmail(t, email.value).value.PasswordHash())
    ensures r.Ok? ==> r.body == AccountByEmail(t, email.value).value && Stored(t, r.body)
  {
    if !(Truthy(email) && Truthy(password)) then BadRequest("Email and password required")
    else
      var a := AccountByEmail(t, email.value);
      if a.None? || !a.value.Active() then Unauthorized("Invalid credentials")
      else if !compare(password.value, a.value.PasswordHash()) then Unauthorized("Invalid credentials")
      else Ok(a.value)
  }

  /** An email a firm user has always logs in as that firm user, never as
      a client user with the same email, and not at all while the firm user
      is inactive. */
  lemma FirmUserShadowsClient(t: Tables, f: FirmUser, password: string, compare: (string, string) -> bool)
    requires Consistent(t) && f.id in t.firmUsers && t.firmUsers[f.id] == f
    ensures var r := CheckCredentials(t, Some(f.email), Some(password), compare);
            && (r.Ok? ==> r.body == FirmAccount(f))
            && (!f.isActive ==> !r.Ok?)
  {
    var u := FirmByEmail(t.firmUsers, f.email);
    assert u.Some?;
    assert u.value.id == f.id;
  }

  /** The user part of the login answer: the firm for firm users, the
      client for client users, never both. */
  datatype LoginUser = LoginUser(
    id: Id, email: string, firstName: string, lastName: string, role: string, userType: string,
    lawFirmId: Option<Id>, clientId: Option<Id>)

  function LoginUserOf(a: Account): (u: LoginUser)
    ensures u.id == a.Id() && u.userType == a.UserType()
    ensures u.lawFirmId.Some? <==> a.FirmAccount?
    ensures u.clientId.Some? <==> a.ClientAccount?
  {
    match a
    case FirmAccount(f) => LoginUser(f.id, f.email, f.firstName, f.lastName, f.role, "firm", Some(f.lawFirmId), None)
    case ClientAccount(c) => LoginUser(c.id, c.email, c.firstName, c.lastName, c.role, "client", None, Some(c.clientId))
  }

  datatype Session = Session(token: string, user: LoginUser)

  /** The account after a login: its last login stamped. */
  function Stamped(a: Account, now: int): (r: Account)
    ensures r.Id() == a.Id() && r.Email() == a.Email() && r.PasswordHash() == a.PasswordHash()
    ensures r.Active() == a.Active() && r.UserType() == a.UserType()
  {
    match a
    case FirmAccount(f) => FirmAccount(f.(lastLogin := Some(now)))
    case ClientAccount(c) => ClientAccount(c.(lastLogin := Some(now)))
  }

  /** Stores an account row back in its table. */
  function Saved(t: Tables, a: Account): Tables {
    match a
    case FirmAccount(f) => t.(firmUsers := t.firmUsers[f.id := f])
    case ClientAccount(c) => t.(clientUsers := t.clientUsers[c.id := c])
  }

  /** The account is the current row of its table. */
  predicate Stored(t: Tables, a: Account) {
    if a.FirmAccount? then a.firm.id in t.firmUsers && t.firmUsers[a.firm.id] == a.firm
    else a.client.id in t.clientUsers && t.clientUsers[a.client.id] == a.client
  }

  /** Writing back a stored account with only its last login or password
      hash changed keeps the database consistent and stores the new row. */
  lemma SavedKeeps(t: Tables, a: Account, a1: Account)
    requires Consistent(t) && Stored(t, a)
    requires a1.FirmAccount? == a.FirmAccount?
    requires a.FirmAccount? ==> a1.firm == a.firm.(lastLogin := a1.firm.lastLogin, passwordHash := a1.firm.passwordHash)
    requires a.ClientAccount? ==> a1.client == a.client.(lastLogin := a1.client.lastLogin, passwordHash := a1.client.passwordHash)
    ensures Consistent(Saved(t, a1)) && Stored(Saved(t, a1), a1)
    ensures Saved(t, a1).firmUsers.Keys == t.firmUsers.Keys && Saved(t, a1).clientUsers.Keys == t.clientUsers.Keys
    ensures a1.ClientAccount? ==> Saved(t, a1).firmUsers == t.firmUsers
  {
    var t1 := Saved(t, a1);
    if a.FirmAccount? {
      assert FirmUserRows(t1.firmUsers, t1.lawFirms) by {
        forall x, y | x in t1.firmUsers && y in t1.firmUsers && x != y
          ensures t1.firmUsers[x].email != t1.firmUsers[y].email
        {
          assert t.firmUsers[x].email == t1.firmUsers[x].email;
          assert t.firmUsers[y].email == t1.firmUsers[y].email;
        }
      }
    } else {
      assert ClientUserRows(t1.clientUsers, t1.clients) by {
        forall x, y | x in t1.clientUsers && y in t1.clientUsers && x != y
          ensures t1.clientUsers[x].email != t1.clientUsers[y].email
        {
          assert t.clientUsers[x].email == t1.clientUsers[x].email;
          assert t.clientUsers[y].email == t1.clientUsers[y].email;
        }
      }
    }
  }

  /** A stored, active account with an email logs in with exactly the
      passwords its hash accepts, unless it is a client user whose email a
      firm user also has. */
  lemma StoredAccountLogsIn(t: Tables, a: Account, p: string, compare: (string, string) -> bool)
    requires Consistent(t) && Stored(t, a) && a.Active() && a.Email() != "" && p != ""
    requires a.ClientAccount? ==> FirmByEmail(t.firmUsers, a.Email()).None?
    ensures var r := CheckCredentials(t, Some(a.Email()), Some(p), compare);
            (r.Ok? <==> compare(p, a.PasswordHash())) && (r.Ok? ==> r.body == a)
  {
    if a.FirmAccount? {
      var u := FirmByEmail(t.firmUsers, a.Email());
      assert a.firm.id in t.firmUsers && t.firmUsers[a.firm.id].email == a.Email();
      var k :| k in t.firmUsers && t.firmUsers[k] == u.value;
      assert k == a.firm.id;
    } else {
      var u := ClientByEmail(t.clientUsers, a.Email());
      assert a.client.id in t.clientUsers && t.clientUsers[a.client.id].email == a.Email();
      var k :| k in t.clientUsers && t.clientUsers[k] == u.value;
      assert k == a.client.id;
    }
  }

  /** POST /auth/login: on success the last login is stamped and a token
      naming the user and its type is signed. */
  method Login(db: Db, email: Option<string>, password: Option<string>, compare: (string, string) -> bool,
               sign: Claims -> string, now: int) returns (res: Response<Session>)
    requires db.Valid()
    modifies db
    ensures db.Valid()
    ensures var c := CheckCredentials(old(db.tables), email, password, compare);
      && (c.BadRequest? ==> res == BadRequest(c.error) && db.tables == old(db.tables))
      && (c.Unauthorized? ==> res == Unauthorized(c.error) && db.tables == old(db.tables))
      && (c.Ok? ==>
            && res == Ok(Session(sign(Claims(c.body.Id(), c.body.UserType())), LoginUserOf(c.body)))
            && db.tables == Saved(old(db.tables), Stamped(c.body, now))
            && Stored(db.tables, Stamped(c.body, now)))
  {
    var c := CheckCredentials(db.tables, email, password, compare);
    if c.BadRequest? {
      return BadRequest(c.error);
    } else if !c.Ok? {
      return Unauthorized(c.error);
    }
    var a := c.body;
    SavedKeeps(db.tables, a, Stamped(a, now));
    db.tables := Saved(db.tables, Stamped(a, now));
    res := Ok(Session(sign(Claims(a.Id(), a.UserType())), LoginUserOf(a)));
  }

  /** A token signed for a stored, active account lets its holder through
      `authenticate` as that account, when it verifies back to its claims. */
  lemma LoginTokenAuthenticates(t: Tables, a: Account, sign: Claims -> string, verify: string -> Option<Claims>)
    requires Consistent(t) && Stored(t, a) && a.Active()
    requires sign(Claims(a.Id(), a.UserType())) != ""
    requires verify(sign(Claims(a.Id(), a.UserType()))) == Some(Claims(a.Id(), a.UserType()))
    ensures var r := Authenticate(Some("Bearer " + sign(Claims(a.Id(), a.UserType()))), verify, t.firmUsers, t.clientUsers);
            r.Ok? && r.body.id == a.Id() && r.body.UserType() == a.UserType()
  {
    var token := sign(Claims(a.Id(), a.UserType()));
    assert StartsWith("Bearer " + token, "Bearer ");
    assert ("Bearer " + token)[7..] == token;
  }

  // ---------------------------------------------------------------- current user

  /** The organisation reference of GET /auth/me. */
  datatype OrgRef = OrgRef(id: Id, name: string)

  /** The selected columns of the principal's row, with its firm (firm
      users) or its client (client users). */
  datatype MeUser = MeUser(id: Id, email: string, firstName: string, lastName: string, role: string, organisation: OrgRef)

  /** The answer: the row, null when it is gone, and the principal's type. */
  datatype Me = Me(user: Option<MeUser>, userType: string)

  /** GET /auth/me as written: the query passes both `include` and
      `select`, which Prisma refuses before reaching the database, so every
      call ends in the catch whatever the tables hold. */
  function GetMeAsWritten(t: Tables, user: Principal): (r: Response<Me>)
    ensures !r.Ok? && r == ServerError("Failed to fetch user")
  {
    ServerError("Failed to fetch user")
  }

  /** Even a signed-in firm user whose row exists gets no answer. */
  lemma MeNeverAnswers(t: Tables, user: Principal)
    requires Consistent(t) && user.Firm? && user.id in t.firmUsers
    ensures GetMeAsWritten(t, user) == ServerError("Failed to fetch user")
    ensures GetMe(t, user).Ok? && GetMe(t, user).body.user.Some?
  {
  }

  /** GET /auth/me with the `select` alone: the principal's row and its
      firm or client, null when the row is gone. */
  function GetMe(t: Tables, user: Principal): (r: Response<Me>)
    requires Consistent(t)
    ensures r.Ok? && r.body.userType == user.UserType()
    ensures r.body.user.Some? <==> (if user.Firm? then user.id in t.firmUsers else user.id in t.clientUsers)
    ensures r.body.user.Some? ==> r.body.user.value.id == user.id
    ensures r.body.user.Some? && user.Firm? ==>
      var u := t.firmUsers[user.id];
      r.body.user.value == MeUser(u.id, u.email, u.firstName, u.lastName, u.role, OrgRef(u.lawFirmId, t.lawFirms[u.lawFirmId].name))
    ensures r.body.user.Some? && user.Client? ==>
      var u := t.clientUsers[user.id];
      r.body.user.value == MeUser(u.id, u.email, u.firstName, u.lastName, u.role, OrgRef(u.clientId, t.clients[u.clientId].name))
  {
    if user.Firm? then
      if user.id !in t.firmUsers then Ok(Me(None, "firm"))
      else
        var u := t.firmUsers[user.id];
        Ok(Me(Some(MeUser(u.id, u.email, u.firstName, u.lastName, u.role, OrgRef(u.lawFirmId, t.lawFirms[u.lawFirmId].name))), "firm"))
    else
      if user.id !in t.clientUsers then Ok(Me(None, "client"))
      else
        var u := t.clientUsers[user.id];
        Ok(Me(Some(MeUser(u.id, u.email, u.firstName, u.lastName, u.role, OrgRef(u.clientId, t.clients[u.clientId].name))), "client"))
  }

  // ---------------------------------------------------------------- password change

  /** The principal's own account, looked up in its table. */
  function AccountOf(t: Tables, user: Principal): (r: Option<Account>)
    requires forall k :: k in t.firmUsers ==> t.firmUsers[k].id == k
    requires forall k :: k in t.clientUsers ==> t.clientUsers[k].id == k
    ensures r.None? <==> (if user.Firm? then user.id !in t.firmUsers else user.id !in t.clientUsers)
    ensures r.Some? ==> r.value.Id() == user.id && r.value.UserType() == user.UserType() && Stored(t, r.value)
  {
    if user.Firm? then (if user.id in t.firmUsers then Some(FirmAccount(t.firmUsers[user.id])) else None)
    else (if user.id in t.clientUsers then Some(ClientAccount(t.clientUsers[user.id])) else None)
  }

  /** The account with a new password hash. */
  function Rehashed(a: Account, h: string): (r: Account)
    ensures r.Id() == a.Id() && r.Email() == a.Email() && r.Active() == a.Active() && r.UserType() == a.UserType()
    ensures r.PasswordHash() == h
  {
    match a
    case FirmAccount(f) => FirmAccount(f.(passwordHash := h))
    case ClientAccount(c) => ClientAccount(c.(passwordHash := h))
  }

  /** The `length` JavaScript reports for a string: its UTF-16 code units,
      two for each character outside the Basic Multilingual Plane. */
  function Utf16Length(s: string): (n: nat)
    ensures |s| <= n <= 2 * |s|
    ensures (forall i :: 0 <= i < |s| ==> s[i] < 0x10000 as char) ==> n == |s|
  {
    if s == [] then 0 else (if s[0] < 0x10000 as char then 1 else 2) + Utf16Length(s[1..])
  }

  /** Four characters outside the Basic Multilingual Plane make a new
      password of length 8, which the check lets through. */
  lemma AstralPasswordLength()
    ensures var p := "\U{1F511}\U{1F511}\U{1F511}\U{1F511}"; |p| == 4 && Utf16Length(p) == 8
  {
    var p := "\U{1F511}\U{1F511}\U{1F511}\U{1F511}";
    assert p[1..][1..][1..][1..] == [];
  }

  /** POST /auth/change-password: 400 without both passwords or for a new
      one shorter than 8 UTF-16 code units, 404 when the principal's row is gone,
      401 for a wrong current password; otherwise the new hash is stored. */
  method ChangePassword(db: Db, user: Principal, currentPassword: Option<string>, newPassword: Option<string>,
                        compare: (string, string) -> bool, hash: string -> string) returns (res: Response<string>)
    requires db.Valid()
    modifies db
    ensures db.Valid()
    ensures !res.Ok? ==> db.tables == old(db.tables)
    ensures !(Truthy(currentPassword) && Truthy(newPassword)) ==> res == BadRequest("Current and new password required")
    ensures Truthy(currentPassword) && Truthy(newPassword) && Utf16Length(newPassword.value) < 8 ==>
      res == BadRequest("Password must be at least 8 characters")
    ensures res.Ok? <==>
      && Truthy(currentPassword) && Truthy(newPassword) && Utf16Length(newPassword.value) >= 8
      && AccountOf(old(db.tables), user).Some?
      && compare(currentPassword.value, AccountOf(old(db.tables), user).value.PasswordHash())
    ensures Truthy(currentPassword) && Truthy(newPassword) && Utf16Length(newPassword.value) >= 8 &&
            AccountOf(old(db.tables), user).None? ==>
      res == NotFound("User not found")
    ensures Truthy(currentPassword) && Truthy(newPassword) && Utf16Length(newPassword.value) >= 8 &&
            AccountOf(old(db.tables), user).Some? &&
            !compare(currentPassword.value, AccountOf(old(db.tables), user).value.PasswordHash()) ==>
      res == Unauthorized("Current password incorrect")
    ensures res.Ok? ==>
      && res.body == "Password updated successfully"
      && db.tables == Saved(old(db.tables), Rehashed(AccountOf(old(db.tables), user).value, hash(newPassword.value)))
  {
    if !(Truthy(currentPassword) && Truthy(newPassword)) {
      return BadRequest("Current and new password required");
    }
    if Utf16Length(newPassword.value) < 8 {
      return BadRequest("Password must be at least 8 characters");
    }
    var a := AccountOf(db.tables, user);
    if a.None? {
      return NotFound("User not found");
    }
    if !compare(currentPassword.value, a.value.PasswordHash()) {
      return Unauthorized("Current password incorrect");
    }
    var a1 := Rehashed(a.value, hash(newPassword.value));
    SavedKeeps(db.tables, a.value, a1);
    db.tables := Saved(db.tables, a1);
    res := Ok("Password updated successfully");
  }

  /** After a password change the new password logs in and the old one no
      longer does, when the hash tells the two apart. */
  lemma {:induction false} NewPasswordLogsIn(t: Tables, a: Account, oldPassword: string, newPassword: string,
                                             compare: (string, string) -> bool, hash: string -> string)
    requires Consistent(t) && Stored(t, a) && a.Active() && a.Email() != ""
    requires a.ClientAccount? ==> FirmByEmail(t.firmUsers, a.Email()).None?
    requires newPassword != "" && oldPassword != ""
    requires compare(newPassword, hash(newPassword)) && !compare(oldPassword, hash(newPassword))
    ensures var t1 := Saved(t, Rehashed(a, hash(newPassword)));
            && Consistent(t1)
            && CheckCredentials(t1, Some(a.Email()), Some(newPassword), compare).Ok?
            && !CheckCredentials(t1, Some(a.Email()), Some(oldPassword), compare).Ok?
  {
    var a1 := Rehashed(a, hash(newPassword));
    SavedKeeps(t, a, a1);
    var t1 := Saved(t, a1);
    StoredAccountLogsIn(t1, a1, newPassword, compare);
    StoredAccountLogsIn(t1, a1, oldPassword, compare);
  }
}
