/**
 * The user routes: the firm's staff and the users of one of its clients,
 * the creation of either, and the update that first strips any password
 * from the request. `hash` stands for bcrypt.
 */
module Users {
  import opened Common
  import opened Model
  import opened Store
  import opened Query
  import opened AuthMiddleware

  /** The columns a user listing selects. */
  datatype UserListing = UserListing(
    id: Id, email: string, firstName: string, lastName: string, role: string,
    isActive: bool, lastLogin: Option<int>)

  /** The columns create and update answer with. */
  datatype UserView = UserView(id: Id, email: string, firstName: string, lastName: string, role: string, isActive: bool)

  function FirmListing(u: FirmUser): UserListing {
    UserListing(u.id, u.email, u.firstName, u.lastName, u.role, u.isActive, u.lastLogin)
  }

  function ClientListing(u: ClientUser): UserListing {
    UserListing(u.id, u.email, u.firstName, u.lastName, u.role, u.isActive, u.lastLogin)
  }

  function FirmView(u: FirmUser): UserView {
    UserView(u.id, u.email, u.firstName, u.lastName, u.role, u.isActive)
  }

  function ClientView(u: ClientUser): UserView {
    UserView(u.id, u.email, u.firstName, u.lastName, u.role, u.isActive)
  }

  function FirmByLastName(u: FirmUser): Key {
    [Query.Str(u.lastName)]
  }

  function ClientByLastName(u: ClientUser): Key {
    [Query.Str(u.lastName)]
  }

  // ---------------------------------------------------------------- lists

  /** GET /users/firm: the staff of the caller's firm by last name. */
  method ListFirmUsers(db: Db, user: Principal) returns (res: Response<seq<UserListing>>)
    ensures !user.Firm? ==> res == Forbidden("Firm user access required")
    ensures user.Firm? ==> res.Ok?
    ensures res.Ok? ==> exists rows ::
      && IsListing(rows, db.tables.firmUsers, (u: FirmUser) => u.lawFirmId == user.lawFirmId, FirmByLastName)
      && res.body == MapAll(rows, FirmListing)
  {
    var gate := RequireFirmUser(Some(user));
    if !gate.Ok? {
      return Relay(gate);
    }
    var rows := Select(db.tables.firmUsers, (u: FirmUser) => u.lawFirmId == user.lawFirmId, FirmByLastName);
    res := Ok(MapAll(rows, FirmListing));
  }

  /** A user of the named client, when that client belongs to the firm. */
  predicate ClientUserOf(clients: map<Id, MgmtClient>, lawFirmId: Id, clientId: Id, u: ClientUser) {
    u.clientId == clientId && u.clientId in clients && clients[u.clientId].lawFirmId == lawFirmId
  }

  /** GET /users/client?clientId=: 400 without a client id; otherwise that
      client's users, none when the client is another firm's. */
  method ListClientUsers(db: Db, user: Principal, clientId: Option<string>) returns (res: Response<seq<UserListing>>)
    ensures !user.Firm? ==> res == Forbidden("Firm user access required")
    ensures user.Firm? && !Truthy(clientId) ==> res == BadRequest("Client ID is required")
    ensures res.Ok? <==> user.Firm? && Truthy(clientId)
    ensures res.Ok? ==> var clients := db.tables.clients; exists rows ::
      && IsListing(rows, db.tables.clientUsers, (u: ClientUser) => ClientUserOf(clients, user.lawFirmId, clientId.value, u),
                   ClientByLastName)
      && res.body == MapAll(rows, ClientListing)
  {
    var gate := RequireFirmUser(Some(user));
    if !gate.Ok? {
      return Relay(gate);
    }
    if !Truthy(clientId) {
      return BadRequest("Client ID is required");
    }
    var clients := db.tables.clients;
    var rows := Select(db.tables.clientUsers, (u: ClientUser) => ClientUserOf(clients, user.lawFirmId, clientId.value, u),
                       ClientByLastName);
    res := Ok(MapAll(rows, ClientListing));
  }

  /** Asking for another firm's client lists nobody. */
  lemma OtherFirmsClientListsNobody(t: Tables, lawFirmId: Id, clientId: Id, rows: seq<ClientUser>)
    requires clientId in t.clients && t.clients[clientId].lawFirmId != lawFirmId
    requires IsListing(rows, t.clientUsers, (u: ClientUser) => ClientUserOf(t.clients, lawFirmId, clientId, u), ClientByLastName)
    ensures rows == []
  {
  }

  // ---------------------------------------------------------------- create

  /** The fields of a create request; `None` is a missing field. */
  datatype NewUser = NewUser(
    email: Option<string>, password: Option<string>, firstName: Option<string>,
    lastName: Option<string>, role: Option<string>, clientId: Option<string>)

  predicate EmailTaken<R>(m: map<Id, R>, email: R -> string, e: string) {
    exists k :: k in m && email(m[k]) == e
  }

  function FirmEmail(u: FirmUser): string { u.email }
  function ClientEmail(u: ClientUser): string { u.email }

  /** A new firm user: active, never logged in, in the caller's firm. */
  function NewFirmUser(id: Id, q: NewUser, lawFirmId: Id, hash: string -> string): (u: FirmUser)
    requires q.email.Some? && q.password.Some? && q.firstName.Some? && q.lastName.Some? && q.role.Some?
    ensures u.id == id && u.email == q.email.value && u.passwordHash == hash(q.password.value)
    ensures u.lawFirmId == lawFirmId && u.role == q.role.value && u.isActive && u.lastLogin.None?
  {
    FirmUser(id, q.email.value, hash(q.password.value), q.firstName.value, q.lastName.value, q.role.value,
             lawFirmId, true, None)
  }

  /** Adding a firm user of an existing firm under a fresh email keeps the
      database consistent. */
  lemma AddFirmUserKeeps(t: Tables, u: FirmUser)
    requires Consistent(t) && u.id !in t.firmUsers && u.lawFirmId in t.lawFirms
    requires !EmailTaken(t.firmUsers, FirmEmail, u.email)
    ensures Consistent(t.(firmUsers := t.firmUsers[u.id := u]))
  {
    var m := t.firmUsers[u.id := u];
    forall a, b | a in m && b in m && a != b ensures m[a].email != m[b].email {
      if a == u.id {
        assert FirmEmail(t.firmUsers[b]) == t.firmUsers[b].email;
      } else if b == u.id {
        assert FirmEmail(t.firmUsers[a]) == t.firmUsers[a].email;
      }
    }
  }

  /** POST /users/firm: law-firm admins only; 400 unless all five fields
      are given or when the email is taken; the new user joins the caller's
      firm. */
  method CreateFirmUser(db: Db, user: Principal, q: NewUser, hash: string -> string) returns (res: Response<UserView>)
    requires db.Valid()
    modifies db
    ensures db.Valid()
    ensures user.role != "LAW_FIRM_ADMIN" ==> res == Forbidden("Insufficient permissions")
    ensures user.role == "LAW_FIRM_ADMIN" &&
            !(Truthy(q.email) && Truthy(q.password) && Truthy(q.firstName) && Truthy(q.lastName) && Truthy(q.role)) ==>
      res == BadRequest("All fields are required")
    ensures res == BadRequest("User with this email already exists") <==>
      && user.role == "LAW_FIRM_ADMIN"
      && Truthy(q.email) && Truthy(q.password) && Truthy(q.firstName) && Truthy(q.lastName) && Truthy(q.role)
      && EmailTaken(old(db.tables.firmUsers), FirmEmail, q.email.value)
    ensures !res.Created? ==> db.tables == old(db.tables)
    ensures res.Created? <==>
      && user.Firm? && user.role == "LAW_FIRM_ADMIN" && user.lawFirmId in old(db.tables.lawFirms)
      && Truthy(q.email) && Truthy(q.password) && Truthy(q.firstName) && Truthy(q.lastName) && Truthy(q.role)
      && !EmailTaken(old(db.tables.firmUsers), FirmEmail, q.email.value)
    ensures res.Created? ==>
      && var u := NewFirmUser(FreshId(old(db.tables.firmUsers).Keys), q, user.lawFirmId, hash);
         && res.body == FirmView(u)
         && db.tables == old(db.tables).(firmUsers := old(db.tables.firmUsers)[u.id := u])
  {
    var gate := Authorize(Some(user), ["LAW_FIRM_ADMIN"]);
    if !gate.Ok? {
      return Relay(gate);
    }
    if !(Truthy(q.email) && Truthy(q.password) && Truthy(q.firstName) && Truthy(q.lastName) && Truthy(q.role)) {
      return BadRequest("All fields are required");
    }
    if exists k :: k in db.tables.firmUsers && FirmEmail(db.tables.firmUsers[k]) == q.email.value {
      return BadRequest("User with this email already exists");
    }
    if !user.Firm? || user.lawFirmId !in db.tables.lawFirms {
      // a principal without a firm, or a firm that is gone: the insert fails
      return ServerError("Failed to create user");
    }
    var u := NewFirmUser(FreshId(db.tables.firmUsers.Keys), q, user.lawFirmId, hash);
    AddFirmUserKeeps(db.tables, u);
    db.tables := db.tables.(firmUsers := db.tables.firmUsers[u.id := u]);
    res := Created(FirmView(u));
  }

  /** A client user's role: the one asked for, CLIENT_USER by default. */
  function ClientRole(role: Option<string>): (r: string)
    ensures Truthy(role) ==> r == role.value
    ensures !Truthy(role) ==> r == "CLIENT_USER"
  {
    OrElse(role, "CLIENT_USER")
  }

  function NewClientUser(id: Id, q: NewUser, hash: string -> string): (u: ClientUser)
    requires q.email.Some? && q.password.Some? && q.firstName.Some? && q.lastName.Some? && q.clientId.Some?
    ensures u.id == id && u.email == q.email.value && u.passwordHash == hash(q.password.value)
    ensures u.clientId == q.clientId.value && u.role == ClientRole(q.role) && u.isActive && u.lastLogin.None?
  {
    ClientUser(id, q.email.value, hash(q.password.value), q.firstName.value, q.lastName.value, ClientRole(q.role),
               q.clientId.value, true, None)
  }

  lemma AddClientUserKeeps(t: Tables, u: ClientUser)
    requires Consistent(t) && u.id !in t.clientUsers && u.clientId in t.clients
    requires !EmailTaken(t.clientUsers, ClientEmail, u.email)
    ensures Consistent(t.(clientUsers := t.clientUsers[u.id := u]))
  {
    var m := t.clientUsers[u.id := u];
    forall a, b | a in m && b in m && a != b ensures m[a].email != m[b].email {
      if a == u.id {
        assert ClientEmail(t.clientUsers[b]) == t.clientUsers[b].email;
      } else if b == u.id {
        assert ClientEmail(t.clientUsers[a]) == t.clientUsers[a].email;
      }
    }
  }

  /** Whether the client exists and belongs to the firm. */
  predicate FirmClient(t: Tables, lawFirmId: Id, clientId: Id) {
    clientId in t.clients && t.clients[clientId].lawFirmId == lawFirmId
  }

  /** POST /users/client: 400 unless the email, password, names and client
      are given; 404 for a client outside the caller's firm; 400 when the
      email is taken. */
  method CreateClientUser(db: Db, user: Principal, q: NewUser, hash: string -> string) returns (res: Response<UserView>)
    requires db.Valid()
    modifies db
    ensures db.Valid()
    ensures !user.Firm? ==> res == Forbidden("Firm user access required")
    ensures user.Firm? && !(Truthy(q.email) && Truthy(q.password) && Truthy(q.firstName) && Truthy(q.lastName) &&
                            Truthy(q.clientId)) ==>
      res == BadRequest("All fields are required")
    ensures res == NotFound("Client not found") <==>
      && user.Firm? && Truthy(q.email) && Truthy(q.password) && Truthy(q.firstName) && Truthy(q.lastName)
      && Truthy(q.clientId) && !FirmClient(old(db.tables), user.lawFirmId, q.clientId.value)
    ensures res == BadRequest("User with this email already exists") ==>
      EmailTaken(old(db.tables.clientUsers), ClientEmail, q.email.value)
    ensures && user.Firm? && Truthy(q.email) && Truthy(q.password) && Truthy(q.firstName) && Truthy(q.lastName)
            && Truthy(q.clientId) && FirmClient(old(db.tables), user.lawFirmId, q.clientId.value)
            && EmailTaken(old(db.tables.clientUsers), ClientEmail, q.email.value) ==>
      res == BadRequest("User with this email already exists")
    ensures !res.Created? ==> db.tables == old(db.tables)
    ensures res.Created? <==>
      && user.Firm? && Truthy(q.email) && Truthy(q.password) && Truthy(q.firstName) && Truthy(q.lastName)
      && Truthy(q.clientId) && FirmClient(old(db.tables), user.lawFirmId, q.clientId.value)
      && !EmailTaken(old(db.tables.clientUsers), ClientEmail, q.email.value)
    ensures res.Created? ==>
      var u := NewClientUser(FreshId(old(db.tables.clientUsers).Keys), q, hash);
      && res.body == ClientView(u)
      && db.tables == old(db.tables).(clientUsers := old(db.tables.clientUsers)[u.id := u])
  {
    var gate := RequireFirmUser(Some(user));
    if !gate.Ok? {
      return Relay(gate);
    }
    if !(Truthy(q.email) && Truthy(q.password) && Truthy(q.firstName) && Truthy(q.lastName) && Truthy(q.clientId)) {
      return BadRequest("All fields are required");
    }
    if !FirmClient(db.tables, user.lawFirmId, q.clientId.value) {
      return NotFound("Client not found");
    }
    if exists k :: k in db.tables.clientUsers && ClientEmail(db.tables.clientUsers[k]) == q.email.value {
      return BadRequest("User with this email already exists");
    }
    var u := NewClientUser(FreshId(db.tables.clientUsers.Keys), q, hash);
    AddClientUserKeeps(db.tables, u);
    db.tables := db.tables.(clientUsers := db.tables.clientUsers[u.id := u]);
    res := Created(ClientView(u));
  }

  // ---------------------------------------------------------------- update

  /** The body an update writes: the password fields removed. */
  function Stripped(p: Body): (r: Body)
    ensures "password" !in r && "passwordHash" !in r
    ensures forall k :: k in p && k != "password" && k != "passwordHash" ==> k in r && r[k] == p[k]
    ensures r.Keys <= p.Keys
  {
    p - {"password", "passwordHash"}
  }

  /** Whether Prisma accepts `v` for user column `k`; `owner` is the
      foreign-key column of the table (lawFirmId or clientId). */
  predicate UserFieldAccepts(owner: string, k: string, v: Value) {
    if k in {"email", "firstName", "lastName", "role", "passwordHash"} || k == owner then v.VStr?
    else if k == "isActive" then v.VBool?
    else if k == "lastLogin" then v.VNum? || v.VNull?
    else false
  }

  function SetString(p: Body, k: string, d: string): string {
    if k in p && p[k].VStr? then p[k].s else d
  }

  function SetBool(p: Body, k: string, d: bool): bool {
    if k in p && p[k].VBool? then p[k].b else d
  }

  function SetInstant(p: Body, k: string, d: Option<int>): Option<int> {
    if k in p then (if p[k].VNum? then Some(p[k].n) else None) else d
  }

  /** `firmUser.update({ data })`: every key writes its column; an unknown
      key or a value of the wrong type makes Prisma throw. */
  function PatchFirmUser(u: FirmUser, p: Body): (r: Option<FirmUser>)
    ensures r.Some? <==> forall k :: k in p ==> UserFieldAccepts("lawFirmId", k, p[k])
    ensures r.Some? ==> r.value.id == u.id
    ensures r.Some? && "passwordHash" !in p ==> r.value.passwordHash == u.passwordHash
    ensures r.Some? && "passwordHash" in p ==> r.value.passwordHash == p["passwordHash"].s
    ensures r.Some? && p == map[] ==> r.value == u
  {
    if exists k :: k in p && !UserFieldAccepts("lawFirmId", k, p[k]) then None
    else Some(u.(
      email := SetString(p, "email", u.email),
      passwordHash := SetString(p, "passwordHash", u.passwordHash),
      firstName := SetString(p, "firstName", u.firstName),
      lastName := SetString(p, "lastName", u.lastName),
      role := SetString(p, "role", u.role),
      lawFirmId := SetString(p, "lawFirmId", u.lawFirmId),
      isActive := SetBool(p, "isActive", u.isActive),
      lastLogin := SetInstant(p, "lastLogin", u.lastLogin)))
  }

  /** `clientUser.update({ data })`, as for firm users. */
  function PatchClientUser(u: ClientUser, p: Body): (r: Option<ClientUser>)
    ensures r.Some? <==> forall k :: k in p ==> UserFieldAccepts("clientId", k, p[k])
    ensures r.Some? ==> r.value.id == u.id
    ensures r.Some? && "passwordHash" !in p ==> r.value.passwordHash == u.passwordHash
    ensures r.Some? && "passwordHash" in p ==> r.value.passwordHash == p["passwordHash"].s
    ensures r.Some? && p == map[] ==> r.value == u
  {
    if exists k :: k in p && !UserFieldAccepts("clientId", k, p[k]) then None
    else Some(u.(
      email := SetString(p, "email", u.email),
      passwordHash := SetString(p, "passwordHash", u.passwordHash),
      firstName := SetString(p, "firstName", u.firstName),
      lastName := SetString(p, "lastName", u.lastName),
      role := SetString(p, "role", u.role),
      clientId := SetString(p, "clientId", u.clientId),
      isActive := SetBool(p, "isActive", u.isActive),
      lastLogin := SetInstant(p, "lastLogin", u.lastLogin)))
  }

  /** Without the stripping a body could overwrite the stored hash; with it
      no update changes a password. */
  lemma StrippingGuardsPasswords(u: FirmUser, p: Body)
    ensures PatchFirmUser(u, Stripped(p)).Some? ==> PatchFirmUser(u, Stripped(p)).value.passwordHash == u.passwordHash
    ensures p == map["passwordHash" := VStr("x")] && u.passwordHash != "x" ==>
      PatchFirmUser(u, p).Some? && PatchFirmUser(u, p).value.passwordHash != u.passwordHash
  {
    if p == map["passwordHash" := VStr("x")] {
      assert forall k :: k in p ==> k == "passwordHash";
    }
  }

  /** The update is gated on the firm alone, not on the role: any firm user
      may set any colleague's role, their own included. */
  lemma AnyColleagueMayPromote(u: FirmUser)
    ensures var p := Stripped(map["role" := VStr("LAW_FIRM_ADMIN")]);
            PatchFirmUser(u, p).Some? && PatchFirmUser(u, p).value.role == "LAW_FIRM_ADMIN"
  {
    var p := Stripped(map["role" := VStr("LAW_FIRM_ADMIN")]);
    assert p == map["role" := VStr("LAW_FIRM_ADMIN")];
  }

  /** A rewritten firm user whose firm exists and whose email no other user
      has keeps the database consistent. */
  lemma ReplaceFirmUserKeeps(t: Tables, u: FirmUser)
    requires Consistent(t) && u.id in t.firmUsers && u.lawFirmId in t.lawFirms
    requires forall k :: k in t.firmUsers && k != u.id ==> t.firmUsers[k].email != u.email
    ensures Consistent(t.(firmUsers := t.firmUsers[u.id := u]))
  {
  }

  lemma ReplaceClientUserKeeps(t: Tables, u: ClientUser)
    requires Consistent(t) && u.id in t.clientUsers && u.clientId in t.clients
    requires forall k :: k in t.clientUsers && k != u.id ==> t.clientUsers[k].email != u.email
    ensures Consistent(t.(clientUsers := t.clientUsers[u.id := u]))
  {
  }

  /** Whether the database takes the rewritten firm user: its firm exists
      and its email stays unique. */
  predicate FirmUserStorable(t: Tables, u: FirmUser) {
    u.lawFirmId in t.lawFirms && forall k :: k in t.firmUsers && k != u.id ==> t.firmUsers[k].email != u.email
  }

  predicate ClientUserStorable(t: Tables, u: ClientUser) {
    u.clientId in t.clients && forall k :: k in t.clientUsers && k != u.id ==> t.clientUsers[k].email != u.email
  }

  /** PUT /users/:id: firm users are looked up first, then client users;
      403 for a user of another firm or of another firm's client, 404 when
      neither table has the id, and the stripped body written otherwise. */
  method UpdateUser(db: Db, user: Principal, id: Id, body: Body) returns (res: Response<UserView>)
    requires db.Valid()
    modifies db
    ensures db.Valid()
    ensures !user.Firm? ==> res == Forbidden("Firm user access required")
    ensures !res.Ok? ==> db.tables == old(db.tables)
    ensures user.Firm? && id in old(db.tables.firmUsers) ==>
      var u := old(db.tables.firmUsers)[id];
      var p := PatchFirmUser(u, Stripped(body));
      && (u.lawFirmId != user.lawFirmId ==> res == Forbidden("Access denied"))
      && (u.lawFirmId == user.lawFirmId && p.Some? && FirmUserStorable(old(db.tables), p.value) ==>
            res == Ok(FirmView(p.value)) && db.tables == old(db.tables).(firmUsers := old(db.tables.firmUsers)[id := p.value]))
      && (u.lawFirmId == user.lawFirmId && !(p.Some? && FirmUserStorable(old(db.tables), p.value)) ==>
            res == ServerError("Failed to update user"))
    ensures user.Firm? && id !in old(db.tables.firmUsers) && id !in old(db.tables.clientUsers) ==>
      res == NotFound("User not found")
    ensures user.Firm? && id !in old(db.tables.firmUsers) && id in old(db.tables.clientUsers) ==>
      var u := old(db.tables.clientUsers)[id];
      var p := PatchClientUser(u, Stripped(body));
      && (old(db.tables.clients)[u.clientId].lawFirmId != user.lawFirmId ==> res == Forbidden("Access denied"))
      && (old(db.tables.clients)[u.clientId].lawFirmId == user.lawFirmId && p.Some? &&
          ClientUserStorable(old(db.tables), p.value) ==>
            res == Ok(ClientView(p.value)) &&
            db.tables == old(db.tables).(clientUsers := old(db.tables.clientUsers)[id := p.value]))
      && (old(db.tables.clients)[u.clientId].lawFirmId == user.lawFirmId &&
          !(p.Some? && ClientUserStorable(old(db.tables), p.value)) ==>
            res == ServerError("Failed to update user"))
  {
    var gate := RequireFirmUser(Some(user));
    if !gate.Ok? {
      return Relay(gate);
    }
    var data := Stripped(body);
    if id in db.tables.firmUsers {
      res := UpdateFirmUser(db, user.lawFirmId, db.tables.firmUsers[id], data);
    } else if id !in db.tables.clientUsers {
      res := NotFound("User not found");
    } else {
      res := UpdateClientUser(db, user.lawFirmId, db.tables.clientUsers[id], data);
    }
  }

  /** The firm-user half of PUT /users/:id. */
  method UpdateFirmUser(db: Db, lawFirmId: Id, u: FirmUser, data: Body) returns (res: Response<UserView>)
    requires db.Valid() && u.id in db.tables.firmUsers && db.tables.firmUsers[u.id] == u
    modifies db
    ensures db.Valid()
    ensures !res.Ok? ==> db.tables == old(db.tables)
    ensures u.lawFirmId != lawFirmId ==> res == Forbidden("Access denied")
    ensures u.lawFirmId == lawFirmId ==>
      var p := PatchFirmUser(u, data);
      && (p.Some? && FirmUserStorable(old(db.tables), p.value) ==>
            res == Ok(FirmView(p.value)) && db.tables == old(db.tables).(firmUsers := old(db.tables.firmUsers)[u.id := p.value]))
      && (!(p.Some? && FirmUserStorable(old(db.tables), p.value)) ==> res == ServerError("Failed to update user"))
  {
    if u.lawFirmId != lawFirmId {
      return Forbidden("Access denied");
    }
    var p := PatchFirmUser(u, data);
    if p.None? || !FirmUserStorable(db.tables, p.value) {
      return ServerError("Failed to update user");
    }
    ReplaceFirmUserKeeps(db.tables, p.value);
    db.tables := db.tables.(firmUsers := db.tables.firmUsers[u.id := p.value]);
    res := Ok(FirmView(p.value));
  }

  /** The client-user half of PUT /users/:id. */
  method UpdateClientUser(db: Db, lawFirmId: Id, u: ClientUser, data: Body) returns (res: Response<UserView>)
    requires db.Valid() && u.id in db.tables.clientUsers && db.tables.clientUsers[u.id] == u
    modifies db
    ensures db.Valid()
    ensures !res.Ok? ==> db.tables == old(db.tables)
    ensures u.clientId in old(db.tables.clients)
    ensures old(db.tables.clients)[u.clientId].lawFirmId != lawFirmId ==> res == Forbidden("Access denied")
    ensures old(db.tables.clients)[u.clientId].lawFirmId == lawFirmId ==>
      var p := PatchClientUser(u, data);
      && (p.Some? && ClientUserStorable(old(db.tables), p.value) ==>
            res == Ok(ClientView(p.value)) &&
            db.tables == old(db.tables).(clientUsers := old(db.tables.clientUsers)[u.id := p.value]))
      && (!(p.Some? && ClientUserStorable(old(db.tables), p.value)) ==> res == ServerError("Failed to update user"))
  {
    if db.tables.clients[u.clientId].lawFirmId != lawFirmId {
      return Forbidden("Access denied");
    }
    var p := PatchClientUser(u, data);
    if p.None? || !ClientUserStorable(db.tables, p.value) {
      return ServerError("Failed to update user");
    }
    ReplaceClientUserKeeps(db.tables, p.value);
    db.tables := db.tables.(clientUsers := db.tables.clientUsers[u.id := p.value]);
    res := Ok(ClientView(p.value));
  }
}
