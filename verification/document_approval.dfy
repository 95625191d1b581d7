/**
 * The document approval routes: a firm user asks the client to review a
 * document, a client or firm user approves or rejects it, and either side
 * lists the documents still awaiting review. Notification emails are the
 * addresses a handler sends to; the mail transport is not modelled.
 */
module DocumentApproval {
  import opened Common
  import opened Model
  import opened Store
  import opened Query
  import opened AuthMiddleware
  import opened Cases

  /** The notification loop of a handler: one message to the address of
      every row of `users` that `keep` selects. Addresses are unique in
      both user tables, so nobody is written to twice. */
  method Recipients<U>(users: map<Id, U>, keep: U -> bool, email: U -> string) returns (sent: seq<string>)
    requires forall a, b :: a in users && b in users && a != b ==> email(users[a]) != email(users[b])
    ensures Distinct(sent)
    ensures forall e :: e in sent <==> exists k :: k in users && keep(users[k]) && email(users[k]) == e
  {
    sent := [];
    var rest := users.Keys;
    while rest != {}
      invariant rest <= users.Keys
      invariant Distinct(sent)
      invariant forall e :: e in sent <==> exists k :: k in users && k !in rest && keep(users[k]) && email(users[k]) == e
      decreases |rest|
    {
      var k :| k in rest;
      if keep(users[k]) {
        forall e | e in sent ensures e != email(users[k]) {
          var j :| j in users && j !in rest && keep(users[j]) && email(users[j]) == e;
          assert j != k;
        }
        var next := sent + [email(users[k])];
        assert forall i :: 0 <= i < |sent| ==> next[i] == sent[i] && sent[i] in sent;
        sent := next;
      }
      rest := rest - {k};
    }
  }

  /** The client users a review request goes to: the active CLIENT_ADMIN
      and CLIENT_USER accounts of the case's client with a non-empty
      address (`.filter(Boolean)`). */
  predicate ClientNotified(clientId: Id, u: ClientUser) {
    u.clientId == clientId && u.isActive && (u.role == "CLIENT_ADMIN" || u.role == "CLIENT_USER") && u.email != ""
  }

  /** Rewriting a document row in place, under the same case, keeps the
      database consistent. */
  lemma ReplaceDocumentKeeps(t: Tables, d: Document)
    requires Consistent(t) && d.id in t.documents && d.caseId == t.documents[d.id].caseId
    ensures Consistent(t.(documents := t.documents[d.id := d]))
  {
    var u := t.(documents := t.documents[d.id := d]);
    assert DocumentRows(u.documents, u.cases);
  }

  /** The client users a request for approval notifies, each email once. */
  method ClientRecipients(users: map<Id, ClientUser>, clientId: Id) returns (sent: seq<string>)
    requires forall a, b :: a in users && b in users && a != b ==> users[a].email != users[b].email
    ensures Distinct(sent)
    ensures forall e :: e in sent <==> exists k :: k in users && ClientNotified(clientId, users[k]) && users[k].email == e
  {
    sent := Recipients(users, (u: ClientUser) => ClientNotified(clientId, u), (u: ClientUser) => u.email);
  }

  /** The firm users a client's approval notifies, each email once. */
  method FirmRecipients(users: map<Id, FirmUser>, lawFirmId: Id) returns (sent: seq<string>)
    requires forall a, b :: a in users && b in users && a != b ==> users[a].email != users[b].email
    ensures Distinct(sent)
    ensures forall e :: e in sent <==> exists k :: k in users && FirmNotified(lawFirmId, users[k]) && users[k].email == e
  {
    sent := Recipients(users, (u: FirmUser) => FirmNotified(lawFirmId, u), (u: FirmUser) => u.email);
  }

  /** POST /approvals/documents/:id/request-approval. */
  method RequestApproval(db: Db, user: Principal, id: Id) returns (res: Response<Document>, sent: seq<string>)
    requires db.Valid()
    modifies db
    ensures db.Valid()
    ensures !user.Firm? ==> res == Forbidden("Firm user access required")
    ensures user.Firm? && id !in old(db.tables.documents) ==> res == NotFound("Document not found")
    ensures res.Ok? <==> user.Firm? && id in old(db.tables.documents)
    ensures !res.Ok? ==> db.tables == old(db.tables) && sent == []
    ensures res.Ok? ==>
      && res.body == old(db.tables.documents)[id].(approvalRequired := true, approvalStatus := Some("PENDING"))
      && db.tables == old(db.tables).(documents := old(db.tables.documents)[id := res.body])
    ensures res.Ok? ==>
      var clientId := old(db.tables.cases)[old(db.tables.documents)[id].caseId].clientId;
      && Distinct(sent)
      && forall e :: e in sent <==> exists k :: k in db.tables.clientUsers && ClientNotified(clientId, db.tables.clientUsers[k])
                                                && db.tables.clientUsers[k].email == e
  {
    var gate := RequireFirmUser(Some(user));
    if !gate.Ok? {
      return Relay(gate), [];
    }
    if id !in db.tables.documents {
      return NotFound("Document not found"), [];
    }
    var doc := db.tables.documents[id];
    var clientId := db.tables.cases[doc.caseId].clientId;
    var updated := doc.(approvalRequired := true, approvalStatus := Some("PENDING"));
    sent := ClientRecipients(db.tables.clientUsers, clientId);
    ReplaceDocumentKeeps(db.tables, updated);
    db.tables := db.tables.(documents := db.tables.documents[id := updated]);
    res := Ok(updated);
  }

  /** The columns an approval writes: the approver is recorded only for a
      firm principal. */
  function Approved(d: Document, user: Principal, now: int): (r: Document)
    ensures r.approvalStatus == Some("APPROVED") && r.approvedAt == Some(now)
    ensures user.Firm? ==> r.approvedById == Some(user.id)
    ensures user.Client? ==> r.approvedById == d.approvedById
    ensures r.(approvalStatus := d.approvalStatus, approvedAt := d.approvedAt, approvedById := d.approvedById) == d
  {
    d.(approvalStatus := Some("APPROVED"), approvedAt := Some(now),
       approvedById := if user.Firm? then Some(user.id) else d.approvedById)
  }

  /** The columns a rejection writes. */
  function Rejected(d: Document, reason: string): (r: Document)
    ensures r.approvalStatus == Some("REJECTED") && r.rejectionReason == Some(reason)
    ensures r.(approvalStatus := d.approvalStatus, rejectionReason := d.rejectionReason) == d
  {
    d.(approvalStatus := Some("REJECTED"), rejectionReason := Some(reason))
  }

  /** POST /approvals/documents/:id/approve, as written: any principal in
      scope may approve, whatever the current status. After the write, a
      client principal's request reads the law firm of a case whose client
      was never loaded, so it throws and answers 500 although the document
      is already approved. */
  method Approve(db: Db, user: Principal, id: Id, now: int) returns (res: Response<Document>)
    requires db.Valid()
    modifies db
    ensures db.Valid()
    ensures id !in old(db.tables.documents) ==> res == NotFound("Document not found")
    ensures id in old(db.tables.documents) &&
            !InClientScope(user, old(db.tables.cases)[old(db.tables.documents)[id].caseId].clientId) ==>
      res == Forbidden("Access denied")
    ensures res.NotFound? || res.Forbidden? ==> db.tables == old(db.tables)
    ensures res.Ok? <==> user.Firm? && id in old(db.tables.documents)
    ensures res.ServerError? <==>
      user.Client? && id in old(db.tables.documents) &&
      InClientScope(user, old(db.tables.cases)[old(db.tables.documents)[id].caseId].clientId)
    ensures res.ServerError? ==> res.error == "Failed to approve document"
    ensures res.Ok? || res.ServerError? ==>
      db.tables == old(db.tables).(documents := old(db.tables.documents)[id := Approved(old(db.tables.documents)[id], user, now)])
    ensures res.Ok? ==> res.body == Approved(old(db.tables.documents)[id], user, now)
  {
    if id !in db.tables.documents {
      return NotFound("Document not found");
    }
    var doc := db.tables.documents[id];
    if user.Client? && db.tables.cases[doc.caseId].clientId != user.clientId {
      return Forbidden("Access denied");
    }
    var updated := Approved(doc, user, now);
    ReplaceDocumentKeeps(db.tables, updated);
    db.tables := db.tables.(documents := db.tables.documents[id := updated]);
    if user.Client? {
      // `document.case.client.lawFirmId` with only `case` included.
      return ServerError("Failed to approve document");
    }
    res := Ok(updated);
  }

  /** POST /approvals/documents/:id/reject, as written: a missing or empty
      reason is refused before anything is read; otherwise as for approval,
      a client principal's request throws after the write. */
  method Reject(db: Db, user: Principal, id: Id, reason: Option<string>) returns (res: Response<Document>)
    requires db.Valid()
    modifies db
    ensures db.Valid()
    ensures !Truthy(reason) ==> res == BadRequest("Rejection reason is required")
    ensures Truthy(reason) && id !in old(db.tables.documents) ==> res == NotFound("Document not found")
    ensures Truthy(reason) && id in old(db.tables.documents) &&
            !InClientScope(user, old(db.tables.cases)[old(db.tables.documents)[id].caseId].clientId) ==>
      res == Forbidden("Access denied")
    ensures res.BadRequest? || res.NotFound? || res.Forbidden? ==> db.tables == old(db.tables)
    ensures res.Ok? <==> Truthy(reason) && user.Firm? && id in old(db.tables.documents)
    ensures res.ServerError? <==>
      Truthy(reason) && user.Client? && id in old(db.tables.documents) &&
      InClientScope(user, old(db.tables.cases)[old(db.tables.documents)[id].caseId].clientId)
    ensures res.ServerError? ==> res.error == "Failed to reject document"
    ensures res.Ok? || res.ServerError? ==>
      db.tables == old(db.tables).(documents := old(db.tables.documents)[id := Rejected(old(db.tables.documents)[id], reason.value)])
    ensures res.Ok? ==> res.body == Rejected(old(db.tables.documents)[id], reason.value)
  {
    if !Truthy(reason) {
      return BadRequest("Rejection reason is required");
    }
    if id !in db.tables.documents {
      return NotFound("Document not found");
    }
    var doc := db.tables.documents[id];
    if user.Client? && db.tables.cases[doc.caseId].clientId != user.clientId {
      return Forbidden("Access denied");
    }
    var updated := Rejected(doc, reason.value);
    ReplaceDocumentKeeps(db.tables, updated);
    db.tables := db.tables.(documents := db.tables.documents[id := updated]);
    if user.Client? {
      // `document.case.client.lawFirmId` with only `case` included.
      return ServerError("Failed to reject document");
    }
    res := Ok(updated);
  }

  /** The firm users a client's decision is meant to reach: the active
      users of the law firm that holds the client. */
  predicate FirmNotified(lawFirmId: Id, u: FirmUser) {
    u.lawFirmId == lawFirmId && u.isActive
  }

  /** Approval with the case's client loaded, as the handler evidently
      intends: the write is reported as a success to every principal in
      scope, and a client's approval notifies each active user of the law
      firm that holds the client. */
  method ApproveLoadingClient(db: Db, user: Principal, id: Id, now: int) returns (res: Response<Document>, sent: seq<string>)
    requires db.Valid()
    modifies db
    ensures db.Valid()
    ensures res.Ok? || res == NotFound("Document not found") || res == Forbidden("Access denied")
    ensures res.Ok? <==> id in old(db.tables.documents) &&
                         InClientScope(user, old(db.tables.cases)[old(db.tables.documents)[id].caseId].clientId)
    ensures !res.Ok? ==> db.tables == old(db.tables) && sent == []
    ensures res.Ok? ==>
      && res.body == Approved(old(db.tables.documents)[id], user, now)
      && db.tables == old(db.tables).(documents := old(db.tables.documents)[id := res.body])
    ensures res.Ok? && user.Firm? ==> sent == []
    ensures res.Ok? && user.Client? ==>
      var lawFirmId := old(db.tables.clients)[user.clientId].lawFirmId;
      && Distinct(sent)
      && forall e :: e in sent <==> exists k :: k in db.tables.firmUsers && FirmNotified(lawFirmId, db.tables.firmUsers[k])
                                                && db.tables.firmUsers[k].email == e
  {
    sent := [];
    if id !in db.tables.documents {
      return NotFound("Document not found"), [];
    }
    var doc := db.tables.documents[id];
    var c := db.tables.cases[doc.caseId];
    if user.Client? && c.clientId != user.clientId {
      return Forbidden("Access denied"), [];
    }
    var updated := Approved(doc, user, now);
    ReplaceDocumentKeeps(db.tables, updated);
    db.tables := db.tables.(documents := db.tables.documents[id := updated]);
    if user.Client? {
      var lawFirmId := db.tables.clients[c.clientId].lawFirmId;
      sent := FirmRecipients(db.tables.firmUsers, lawFirmId);
    }
    res := Ok(updated);
  }

  /** The `where` of the pending list: requested and still pending, and for
      a client principal only documents of its own client's cases. */
  predicate AwaitingReview(user: Principal, cases: map<Id, Case>, d: Document) {
    && d.approvalStatus == Some("PENDING") && d.approvalRequired
    && (user.Client? ==> d.caseId in cases && cases[d.caseId].clientId == user.clientId)
  }

  /** GET /approvals/documents/pending-approval, newest first. */
  method PendingApproval(db: Db, user: Principal) returns (res: Response<seq<Document>>)
    ensures res.Ok?
    ensures var cs := db.tables.cases;
      IsListing(res.body, db.tables.documents, (d: Document) => AwaitingReview(user, cs, d), DocumentNewestFirst)
    ensures forall d :: d in res.body ==> d.approvalStatus == Some("PENDING") && d.approvalRequired
    ensures user.Client? ==> forall d :: d in res.body ==> db.tables.cases[d.caseId].clientId == user.clientId
  {
    var cs := db.tables.cases;
    var rs := Select(db.tables.documents, (d: Document) => AwaitingReview(user, cs, d), DocumentNewestFirst);
    res := Ok(rs);
  }

  /** A requested document is on the pending list of the firm and of its
      own client, and an approval or rejection takes it off every list. */
  lemma ReviewLeavesPending(cases: map<Id, Case>, d: Document, user: Principal, now: int, reason: string)
    requires d.caseId in cases
    ensures var r := d.(approvalRequired := true, approvalStatus := Some("PENDING"));
      AwaitingReview(user, cases, r) <==> InClientScope(user, cases[d.caseId].clientId)
    ensures !AwaitingReview(user, cases, Approved(d, user, now))
    ensures !AwaitingReview(user, cases, Rejected(d, reason))
  {
  }
}
