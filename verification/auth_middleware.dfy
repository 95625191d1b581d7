/**
 * The authentication middleware: bearer-token extraction, principal
 * construction from the user tables, and the `authorize`,
 * `requireFirmUser` and `requireClientUser` gates.
 */
module AuthMiddleware {
  import opened Common
  import opened Strings
  import opened Model
  import opened Store

  /** The payload of a verified JSON Web Token. */
  datatype Claims = Claims(userId: Id, userType: string)

  /** `authorization?.replace('Bearer ', '')`: the first occurrence of the
      prefix is removed, wherever it is; a missing header gives no token. */
  function Token(header: Option<string>): (t: Option<string>)
    ensures header.None? <==> t.None?
    ensures header.Some? && StartsWith(header.value, "Bearer ") ==> t == Some(header.value[7..])
    ensures header.Some? && !Contains(header.value, "Bearer ") ==> t == header
  {
    if header.None? then None
    else
      var h := header.value;
      if StartsWith(h, "Bearer ") then
        assert OccursAt(h, "Bearer ", 0);
        assert IndexOf(h, "Bearer ") == Some(0);
        assert |"Bearer "| == 7;
        assert h[..0] + "" + h[7..] == h[7..];
        Some(ReplaceFirst(h, "Bearer ", ""))
      else Some(ReplaceFirst(h, "Bearer ", ""))
  }

  /** `authenticate`: `verify` stands for `jwt.verify` (None when the token
      does not verify). A token naming user type 'firm' is looked up among
      firm users, any other among client users. */
  function Authenticate(header: Option<string>, verify: string -> Option<Claims>,
                        firmUsers: map<Id, FirmUser>, clientUsers: map<Id, ClientUser>): (r: Response<Principal>)
    requires forall k :: k in firmUsers ==> firmUsers[k].id == k
    requires forall k :: k in clientUsers ==> clientUsers[k].id == k
    ensures r.Ok? || r.Unauthorized?
    ensures !Truthy(Token(header)) ==> r == Unauthorized("Authentication required")
    ensures r.Ok? <==>
      Truthy(Token(header)) && verify(Token(header).value).Some? &&
      (var c := verify(Token(header).value).value;
       if c.userType == "firm" then c.userId in firmUsers && firmUsers[c.userId].isActive
       else c.userId in clientUsers && clientUsers[c.userId].isActive)
    ensures r.Ok? && r.body.Firm? ==>
      r.body.id in firmUsers && firmUsers[r.body.id].isActive &&
      r.body.lawFirmId == firmUsers[r.body.id].lawFirmId && r.body.role == firmUsers[r.body.id].role
    ensures r.Ok? && r.body.Client? ==>
      r.body.id in clientUsers && clientUsers[r.body.id].isActive &&
      r.body.clientId == clientUsers[r.body.id].clientId && r.body.role == clientUsers[r.body.id].role
  {
    var token := Token(header);
    if !Truthy(token) then Unauthorized("Authentication required")
    else match verify(token.value)
      case None => Unauthorized("Invalid token")
      case Some(c) =>
        if c.userType == "firm" then
          if c.userId !in firmUsers || !firmUsers[c.userId].isActive then Unauthorized("Invalid or inactive user")
          else
            var u := firmUsers[c.userId];
            Ok(Firm(u.id, u.lawFirmId, u.role))
        else
          if c.userId !in clientUsers || !clientUsers[c.userId].isActive then Unauthorized("Invalid or inactive user")
          else
            var u := clientUsers[c.userId];
            Ok(Client(u.id, u.clientId, u.role))
  }

  /** `authorize(...roles)`: 401 without a user, 403 when the role is not allowed. */
  function Authorize(user: Option<Principal>, allowed: seq<string>): (r: Response<()>)
    ensures r.Ok? <==> user.Some? && user.value.role in allowed
    ensures user.None? ==> r.Unauthorized?
    ensures user.Some? && user.value.role !in allowed ==> r == Forbidden("Insufficient permissions")
  {
    if user.None? then Unauthorized("Authentication required")
    else if user.value.role !in allowed then Forbidden("Insufficient permissions")
    else Ok(())
  }

  /** `requireFirmUser`: passes exactly the firm principals; anything else is 403. */
  function RequireFirmUser(user: Option<Principal>): (r: Response<()>)
    ensures r.Ok? <==> user.Some? && user.value.UserType() == "firm"
    ensures !r.Ok? ==> r == Forbidden("Firm user access required")
  {
    if user.None? || user.value.UserType() != "firm" then Forbidden("Firm user access required") else Ok(())
  }

  /** `requireClientUser`: passes exactly the client principals; anything else is 403. */
  function RequireClientUser(user: Option<Principal>): (r: Response<()>)
    ensures r.Ok? <==> user.Some? && user.value.UserType() == "client"
    ensures !r.Ok? ==> r == Forbidden("Client user access required")
  {
    if user.None? || user.value.UserType() != "client" then Forbidden("Client user access required") else Ok(())
  }

  /** A firm principal carries a law firm and no client; a client principal
      the reverse: the two gates split the principals. */
  lemma GatesPartition(p: Principal)
    ensures RequireFirmUser(Some(p)).Ok? != RequireClientUser(Some(p)).Ok?
    ensures RequireFirmUser(Some(p)).Ok? <==> p.Firm?
  {
  }

  /** Passes a rejection on as a handler's response. */
  function Relay<T>(g: Response<()>): (r: Response<T>)
    requires !g.Success()
    ensures !r.Success()
  {
    match g
    case BadRequest(e) => BadRequest(e)
    case Unauthorized(e) => Unauthorized(e)
    case Forbidden(e) => Forbidden(e)
    case NotFound(e) => NotFound(e)
    case ServerError(e) => ServerError(e)
  }
}
