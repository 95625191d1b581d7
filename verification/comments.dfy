/**
 * The comment route: a principal who can read a case adds a comment to its
 * timeline. Firm comments are internal by default; client comments never
 * are.
 */
module Comments {
  import opened Common
  import opened Model
  import opened Store
  import opened Cases

  /** Adding a comment on an existing case keeps the database consistent. */
  lemma AddCommentKeeps(t: Tables, m: Comment)
    requires Consistent(t) && m.caseId in t.cases
    ensures Consistent(t.(comments := t.comments[m.id := m]))
  {
    var u := t.(comments := t.comments[m.id := m]);
    assert CommentRows(u.comments, u.cases);
  }

  /** POST /comments/case/:caseId. `isInternal` is the body's field as
      sent (absent when not sent). */
  method AddComment(db: Db, user: Principal, caseId: Id, content: Option<string>, isInternal: Option<Value>, now: int)
    returns (res: Response<Comment>)
    requires db.Valid()
    modifies db
    ensures db.Valid()
    ensures !Truthy(content) ==> res == BadRequest("Comment content is required")
    ensures Truthy(content) && (caseId !in old(db.tables.cases) || !InClientScope(user, old(db.tables.cases)[caseId].clientId)) ==>
      res == NotFound("Case not found")
    ensures res.Created? || res.BadRequest? || res.NotFound?
    ensures res.Created? <==> Truthy(content) && caseId in old(db.tables.cases) && InClientScope(user, old(db.tables.cases)[caseId].clientId)
    ensures !res.Created? ==> db.tables == old(db.tables)
    ensures res.Created? ==>
      var m := res.body;
      && m.id == FreshId(old(db.tables.comments).Keys)
      && m.caseId == caseId && m.content == content.value && m.createdAt == now
      && (m.isInternal <==> user.Firm? && isInternal != Some(VBool(false)))
      && (m.firmUserId.Some? <==> user.Firm?) && (m.clientUserId.Some? <==> user.Client?)
      && (user.Firm? ==> m.firmUserId == Some(user.id)) && (user.Client? ==> m.clientUserId == Some(user.id))
      && m.authorType == user.UserType()
      && db.tables == old(db.tables).(comments := old(db.tables.comments)[m.id := m])
    ensures res.Created? && user.Client? ==> forall p: Principal :: CommentVisible(p, caseId, res.body)
  {
    if !Truthy(content) {
      return BadRequest("Comment content is required");
    }
    if caseId !in db.tables.cases || !InClientScope(user, db.tables.cases[caseId].clientId) {
      return NotFound("Case not found");
    }
    var internal := isInternal != Some(VBool(false)) && user.Firm?;
    var firmUserId: Option<Id> := None;
    var clientUserId: Option<Id> := None;
    var authorType: string;
    if user.Firm? {
      firmUserId := Some(user.id);
      authorType := "firm";
    } else {
      clientUserId := Some(user.id);
      authorType := "client";
      internal := false;
    }
    var m := Comment(FreshId(db.tables.comments.Keys), caseId, content.value, internal,
                     firmUserId, clientUserId, authorType, now);
    AddCommentKeeps(db.tables, m);
    db.tables := db.tables.(comments := db.tables.comments[m.id := m]);
    res := Created(m);
  }
}
