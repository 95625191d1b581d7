/**
 * The document routes: the upload filter, listing a case's documents,
 * upload, download, delete and generation from a template. Files in the
 * upload directory are the store's set of paths; their bytes are not
 * modelled.
 */
module Documents {
  import opened Common
  import opened Strings
  import opened Model
  import opened Store
  import opened Query
  import opened AuthMiddleware
  import opened Cases
  import DocumentGenerator

  // ---------------------------------------------------------------- upload filter

  /** The position of the last `c` of `s`. */
  function LastOf(s: string, c: char): (r: Option<nat>)
    ensures r.Some? ==> r.value < |s| && s[r.value] == c && c !in s[r.value + 1..]
    ensures r.None? ==> c !in s
  {
    if s == [] then None
    else if s[|s| - 1] == c then Some(|s| - 1)
    else
      var r := LastOf(s[..|s| - 1], c);
      assert s == s[..|s| - 1] + [s[|s| - 1]];
      r
  }

  /** A path without its trailing '/' characters. */
  function TrimSlashes(s: string): (r: string)
    ensures |r| <= |s| && r == s[..|r|]
    ensures r == [] || r[|r| - 1] != '/'
    ensures forall j :: |r| <= j < |s| ==> s[j] == '/'
  {
    if s != [] && s[|s| - 1] == '/' then TrimSlashes(s[..|s| - 1]) else s
  }

  /** The last component of a path, the part `path.extname` looks at:
      what follows the last '/' once trailing slashes are dropped. */
  function BaseName(s: string): (r: string)
    ensures '/' !in r
    ensures |r| <= |TrimSlashes(s)| && r == s[|TrimSlashes(s)| - |r|..|TrimSlashes(s)|]
    ensures '/' !in s ==> r == s
  {
    var t := TrimSlashes(s);
    match LastOf(t, '/')
    case None => t
    case Some(i) => t[i + 1..]
  }

  /** The tail of a path component from its last dot is an extension. */
  lemma ExtensionFrom(b: string, i: nat)
    requires i < |b| && b[i] == '.' && '.' !in b[i + 1..] && '/' !in b
    ensures b[i..][0] == '.' && '.' !in b[i..][1..] && '/' !in b[i..] && EndsWith(b, b[i..])
  {
    assert b[i..][1..] == b[i + 1..];
    assert b[|b| - |b[i..]|..] == b[i..];
    assert forall k :: 0 <= k < |b[i..]| ==> b[i..][k] == b[i + k];
  }

  /** Node's `path.extname`: from the last '.' of the last path component
      to its end, or nothing when that component has no dot, starts with
      its only dot, or is "..". */
  function ExtName(name: string): (r: string)
    ensures r == "" || (r[0] == '.' && '.' !in r[1..] && '/' !in r && EndsWith(BaseName(name), r))
    ensures '.' !in BaseName(name) ==> r == ""
  {
    var b := BaseName(name);
    match LastOf(b, '.')
    case None => ""
    case Some(i) =>
      if i == 0 || b == ".." then ""
      else
        ExtensionFrom(b, i);
        b[i..]
  }

  /** A name without a dot has no extension. */
  lemma NoDotNoExtension(name: string)
    requires '.' !in name
    ensures ExtName(name) == ""
  {
    var b := BaseName(name);
    var t := TrimSlashes(name);
    assert forall k :: 0 <= k < |b| ==> b[k] == name[|t| - |b| + k];
    assert '.' !in b;
  }

  /** The last `c` of `s` is the one with no `c` after it. */
  lemma {:induction false} LastOfAt(s: string, c: char, i: nat)
    requires i < |s| && s[i] == c && c !in s[i + 1..]
    ensures LastOf(s, c) == Some(i)
    decreases |s|
  {
    if i < |s| - 1 {
      assert s[|s| - 1] == s[i + 1..][|s| - 2 - i];
      assert s[..|s| - 1][i + 1..] == s[i + 1..|s| - 1];
      LastOfAt(s[..|s| - 1], c, i);
    }
  }

  /** For a file name without a '/', the extension starts at its last dot
      unless that dot is its first character or the name is "..": a
      leading run of dots before a later dot does not hide it. */
  lemma PlainNameExtension(name: string, i: nat)
    requires '/' !in name && i < |name| && name[i] == '.' && '.' !in name[i + 1..]
    ensures ExtName(name) == if i == 0 || name == ".." then "" else name[i..]
  {
    LastOfAt(name, '.', i);
  }

  /** Names that start with several dots: only ".." itself has no
      extension, so "..pdf" is a PDF by its name. */
  lemma DottedExtNames()
    ensures ExtName("..pdf") == ".pdf"
    ensures ExtName("...") == "."
    ensures ExtName("..") == ""
  {
    PlainNameExtension("..pdf", 1);
    PlainNameExtension("...", 2);
    PlainNameExtension("..", 1);
  }

  /** In a path only the last component counts. */
  lemma PathExtension()
    ensures ExtName("t/v.pdf") == ".pdf"
  {
    assert TrimSlashes("t/v.pdf") == "t/v.pdf";
    LastOfAt("t/v.pdf", '/', 1);
    PlainNameExtension("v.pdf", 1);
  }

  /** A dot in a directory name gives no extension. */
  lemma DirectoryDotIgnored()
    ensures ExtName("a.b/f") == ""
  {
    assert TrimSlashes("a.b/f") == "a.b/f";
    LastOfAt("a.b/f", '/', 3);
    NoDotNoExtension("f");
  }

  /** `/jpeg|jpg|png|pdf|doc|docx/.test(s)`: the pattern is not anchored,
      so any occurrence of one of the words matches. */
  predicate AllowedType(s: string)
    ensures AllowedType(s) <==>
      Contains(s, "jpeg") || Contains(s, "jpg") || Contains(s, "png") || Contains(s, "pdf") || Contains(s, "doc")
  {
    ContainsPrefix(s, "docx", "doc");
    Contains(s, "jpeg") || Contains(s, "jpg") || Contains(s, "png") || Contains(s, "pdf")
    || Contains(s, "doc") || Contains(s, "docx")
  }

  /** The multer `fileFilter`: both the lower-cased extension and the
      (case-sensitive) mimetype must match. */
  predicate Accepts(originalName: string, mimeType: string)
    ensures Accepts(originalName, mimeType) ==> ExtName(originalName) != "" && AllowedType(mimeType)
  {
    assert ToLower("") == "";
    AllowedType(ToLower(ExtName(originalName))) && AllowedType(mimeType)
  }

  /** A file whose name has no dot is refused whatever its type. */
  lemma NoExtensionRefused(originalName: string, mimeType: string)
    requires '.' !in originalName
    ensures !Accepts(originalName, mimeType)
  {
    NoDotNoExtension(originalName);
    assert ToLower("") == "";
    assert !OccursAt("", "jpeg", 0) && !OccursAt("", "jpg", 0) && !OccursAt("", "png", 0);
    assert !OccursAt("", "pdf", 0) && !OccursAt("", "doc", 0) && !OccursAt("", "docx", 0);
    assert forall i: nat, w: string :: w != "" ==> !OccursAt("", w, i);
  }

  /** Matching is by substring: any mimetype that contains one of the
      words passes, together with any extension that does. */
  lemma SubstringMatchAccepts(originalName: string, mimeType: string, w: string, v: string)
    requires w in {"jpeg", "jpg", "png", "pdf", "doc", "docx"} && v in {"jpeg", "jpg", "png", "pdf", "doc", "docx"}
    requires Contains(ToLower(ExtName(originalName)), w) && Contains(mimeType, v)
    ensures Accepts(originalName, mimeType)
  {
  }

  // ---------------------------------------------------------------- listing

  /** GET /documents/case/:caseId, newest first. */
  method ListCaseDocuments(db: Db, user: Principal, caseId: Id) returns (res: Response<seq<Document>>)
    ensures res.Ok? || res == NotFound("Case not found")
    ensures res.Ok? <==> caseId in db.tables.cases && InClientScope(user, db.tables.cases[caseId].clientId)
    ensures res.Ok? ==> IsListing(res.body, db.tables.documents, (d: Document) => d.caseId == caseId, DocumentNewestFirst)
  {
    if caseId !in db.tables.cases || !InClientScope(user, db.tables.cases[caseId].clientId) {
      return NotFound("Case not found");
    }
    var rs := Select(db.tables.documents, (d: Document) => d.caseId == caseId, DocumentNewestFirst);
    res := Ok(rs);
  }

  // ---------------------------------------------------------------- upload

  /** The file multer stored before the handler runs. */
  datatype UploadedFile = UploadedFile(originalName: string, path: string, mimeType: string)

  /** Adding a document of an existing case keeps the database consistent. */
  lemma AddDocumentKeeps(t: Tables, d: Document)
    requires Consistent(t) && d.caseId in t.cases
    ensures Consistent(t.(documents := t.documents[d.id := d]))
  {
    var u := t.(documents := t.documents[d.id := d]);
    assert DocumentRows(u.documents, u.cases);
  }

  /** Files are not rows: changing the upload directory keeps the database consistent. */
  lemma FilesKeep(t: Tables, files: set<string>)
    requires Consistent(t)
    ensures Consistent(t.(files := files))
  {
  }

  /** The row an upload inserts: the uploader is recorded in the column of
      its kind, and the name defaults to the original file name. */
  function UploadedRow(id: Id, user: Principal, caseId: Id, docType: string, name: Option<string>,
                       file: UploadedFile, now: int): (d: Document)
    ensures !d.isGenerated && d.caseId == caseId && d.docType == docType
    ensures d.name == (if Truthy(name) then name.value else file.originalName)
    ensures d.uploadedById.Some? <==> user.Firm?
    ensures d.uploadedByClientId.Some? <==> user.Client?
    ensures d.uploadedById.Some? ==> d.uploadedById.value == user.id
    ensures d.uploadedByClientId.Some? ==> d.uploadedByClientId.value == user.id
  {
    Document(id, caseId, docType, OrElse(name, file.originalName), file.path, file.mimeType, false, None,
             if user.Firm? then Some(user.id) else None, if user.Client? then Some(user.id) else None,
             false, None, None, None, None, now)
  }

  /** POST /documents/upload: the stored file is `file` (absent when none
      was sent); multer's filter has already let it through. A file sent without a case or type stays on disk; one sent
      for a case out of reach is removed. */
  method Upload(db: Db, user: Principal, file: Option<UploadedFile>, caseId: Option<string>,
                docType: Option<string>, name: Option<string>, now: int) returns (res: Response<Document>)
    requires db.Valid()
    requires file.Some? ==> file.value.path in db.tables.files
    requires file.Some? ==> Accepts(file.value.originalName, file.value.mimeType)
    modifies db
    ensures db.Valid()
    ensures file.None? ==> res == BadRequest("No file uploaded")
    ensures file.Some? && !(Truthy(caseId) && Truthy(docType)) ==> res == BadRequest("Case ID and document type are required")
    ensures res.BadRequest? ==> db.tables == old(db.tables)
    ensures res.Created? || res.BadRequest? || res == NotFound("Case not found")
    ensures res.NotFound? ==> db.tables == old(db.tables).(files := old(db.tables.files) - {file.value.path})
    ensures res.Created? <==> file.Some? && Truthy(caseId) && Truthy(docType) && caseId.value in old(db.tables.cases)
                              && InClientScope(user, old(db.tables.cases)[caseId.value].clientId)
    ensures res.Created? ==>
      var d := res.body;
      var aid := FreshId(old(db.tables.auditLogs).Keys);
      && d == UploadedRow(FreshId(old(db.tables.documents).Keys), user, caseId.value, docType.value, name, file.value, now)
      && db.tables == old(db.tables).(
           documents := old(db.tables.documents)[d.id := d],
           auditLogs := old(db.tables.auditLogs)[aid := Audit(aid, user, "DOCUMENT_UPLOADED", "Document", d.id, None)])
  {
    if file.None? {
      return BadRequest("No file uploaded");
    }
    if !Truthy(caseId) || !Truthy(docType) {
      return BadRequest("Case ID and document type are required");
    }
    var cid := caseId.value;
    if cid !in db.tables.cases || !InClientScope(user, db.tables.cases[cid].clientId) {
      FilesKeep(db.tables, db.tables.files - {file.value.path});
      db.tables := db.tables.(files := db.tables.files - {file.value.path});
      return NotFound("Case not found");
    }
    var d := UploadedRow(FreshId(db.tables.documents.Keys), user, cid, docType.value, name, file.value, now);
    AddDocumentKeeps(db.tables, d);
    db.tables := db.tables.(documents := db.tables.documents[d.id := d]);
    var aid := FreshId(db.tables.auditLogs.Keys);
    var a := Audit(aid, user, "DOCUMENT_UPLOADED", "Document", d.id, None);
    AddAuditKeeps(db.tables, a);
    db.tables := db.tables.(auditLogs := db.tables.auditLogs[aid := a]);
    res := Created(d);
  }

  // ---------------------------------------------------------------- download and delete

  /** What a download sends: the stored path, offered under the document's name. */
  datatype Download = Download(path: string, name: string)

  /** GET /documents/:id/download: a client principal may only fetch
      documents of its own client's cases. */
  method DownloadDocument(db: Db, user: Principal, id: Id) returns (res: Response<Download>)
    requires db.Valid()
    ensures id !in db.tables.documents ==> res == NotFound("Document not found")
    ensures id in db.tables.documents && !InClientScope(user, db.tables.cases[db.tables.documents[id].caseId].clientId) ==>
      res == Forbidden("Access denied")
    ensures res.Ok? <==> id in db.tables.documents && InClientScope(user, db.tables.cases[db.tables.documents[id].caseId].clientId)
                         && db.tables.documents[id].filePath in db.tables.files
    ensures res.Ok? ==> res.body == Download(db.tables.documents[id].filePath, db.tables.documents[id].name)
    ensures res.Ok? || res.NotFound? || res.Forbidden?
  {
    if id !in db.tables.documents {
      return NotFound("Document not found");
    }
    var d := db.tables.documents[id];
    if user.Client? && db.tables.cases[d.caseId].clientId != user.clientId {
      return Forbidden("Access denied");
    }
    if d.filePath !in db.tables.files {
      return NotFound("File not found on server");
    }
    res := Ok(Download(d.filePath, d.name));
  }

  /** DELETE /documents/:id: firm principals only; the file goes first (when
      it is still there), then the row. */
  method DeleteDocument(db: Db, user: Principal, id: Id) returns (res: Response<string>)
    requires db.Valid()
    modifies db
    ensures db.Valid()
    ensures !user.Firm? ==> res == Forbidden("Firm user access required")
    ensures user.Firm? && id !in old(db.tables.documents) ==> res == NotFound("Document not found")
    ensures res.Ok? <==> user.Firm? && id in old(db.tables.documents)
    ensures !res.Ok? ==> db.tables == old(db.tables)
    ensures res.Ok? ==>
      && res.body == "Document deleted successfully"
      && db.tables == old(db.tables).(documents := old(db.tables.documents) - {id},
                                      files := old(db.tables.files) - {old(db.tables.documents)[id].filePath})
  {
    var gate := RequireFirmUser(Some(user));
    if !gate.Ok? {
      return Relay(gate);
    }
    if id !in db.tables.documents {
      return NotFound("Document not found");
    }
    // Unlinking a file that is already gone leaves the files as they are.
    var path := db.tables.documents[id].filePath;
    RemoveDocumentKeeps(db.tables, id, path);
    db.tables := db.tables.(documents := db.tables.documents - {id}, files := db.tables.files - {path});
    res := Ok("Document deleted successfully");
  }

  /** Removing a document row and a file keeps the database consistent:
      nothing points at a document. */
  lemma RemoveDocumentKeeps(t: Tables, id: Id, path: string)
    requires Consistent(t)
    ensures Consistent(t.(documents := t.documents - {id}, files := t.files - {path}))
  {
    var u := t.(documents := t.documents - {id}, files := t.files - {path});
    assert DocumentRows(u.documents, u.cases);
  }

  // ---------------------------------------------------------------- generation

  /** The case as the generator sees it, with its property and its linked
      tenants in link order. */
  function CaseDataOf(t: Tables, c: Case): (d: DocumentGenerator.CaseData)
    ensures d.caseNumber == Some(c.caseNumber) && d.amountOwed == c.amountOwed && d.court == c.court
    ensures d.tenants.Some? && |d.tenants.value| == |c.tenants|
  {
    var p := if c.propertyId in t.properties then Some(t.properties[c.propertyId]) else None;
    DocumentGenerator.CaseData(
      Some(c.caseNumber),
      if p.Some? then Some(p.value.name) else None,
      if p.Some? then Some(p.value.address) else None,
      Some(MapAll(c.tenants, (l: CaseTenant) =>
        if l.tenantId in t.tenants then DocumentGenerator.Party(t.tenants[l.tenantId].firstName, t.tenants[l.tenantId].lastName)
        else DocumentGenerator.Party("", ""))),
      Some(c.reason), c.amountOwed, Some(c.jurisdiction), c.court)
  }

  /** `${documentType.replace('_', ' ')} - ${caseNumber}`: only the first
      underscore of the type becomes a space. */
  function GeneratedName(documentType: string, caseNumber: string): (r: string)
    ensures '_' !in documentType ==> r == documentType + " - " + caseNumber
    ensures '_' in documentType ==>
      exists i :: 0 <= i < |documentType| && documentType[i] == '_' && '_' !in documentType[..i] &&
        r == documentType[..i] + " " + documentType[i + 1..] + " - " + caseNumber
  {
    ReplaceFirstChar(documentType, '_', ' ');
    ReplaceFirst(documentType, "_", " ") + " - " + caseNumber
  }

  /** Whatever follows the first underscore is kept as it is, later
      underscores included: 'NOTICE_TO_QUIT' names 'NOTICE TO_QUIT - ...'. */
  lemma GeneratedNameSplit(head: string, tail: string, caseNumber: string)
    requires '_' !in head
    ensures GeneratedName(head + "_" + tail, caseNumber) == head + " " + tail + " - " + caseNumber
  {
    var s := head + "_" + tail;
    ReplaceFirstChar(s, '_', ' ');
    var i :| 0 <= i < |s| && s[i] == '_' && '_' !in s[..i] && ReplaceFirst(s, "_", " ") == s[..i] + " " + s[i + 1..];
    assert s[|head|] == '_';
    assert i == |head|;
    assert s[..i] == head && s[i + 1..] == tail;
  }

  /** The row a generation inserts. */
  function GeneratedRow(id: Id, user: Principal, c: Case, documentType: string, templateId: Option<string>,
                        filePath: string, now: int): (d: Document)
    ensures d.isGenerated && d.mimeType == "application/pdf" && d.caseId == c.id && d.docType == documentType
    ensures d.name == GeneratedName(documentType, c.caseNumber)
    ensures !Truthy(templateId) ==> d.templateId.None?
    ensures d.uploadedById == Some(user.id) && d.uploadedByClientId.None?
  {
    Document(id, c.id, documentType, GeneratedName(documentType, c.caseNumber), filePath, "application/pdf",
             true, OrNull(templateId), Some(user.id), None, false, None, None, None, None, now)
  }

  /** `${documentType}-${caseNumber}-${Date.now()}.pdf` in the upload directory. */
  function GeneratedPath(documentType: string, caseNumber: string, now: nat): (path: string)
    ensures StartsWith(path, "uploads/" + documentType + "-" + caseNumber + "-") && EndsWith(path, ".pdf")
  {
    "uploads/" + documentType + "-" + caseNumber + "-" + NatToString(now) + ".pdf"
  }

  /** POST /documents/generate. The PDF is written before the row is
      created, so a template id naming no template leaves the file behind. */
  method Generate(db: Db, user: Principal, caseId: Option<string>, documentType: Option<string>,
                  templateId: Option<string>, now: nat) returns (res: Response<Document>)
    requires db.Valid()
    modifies db
    ensures db.Valid()
    ensures !user.Firm? ==> res == Forbidden("Firm user access required")
    ensures user.Firm? && !(Truthy(caseId) && Truthy(documentType)) ==>
      res == BadRequest("Case ID and document type are required")
    ensures user.Firm? && Truthy(caseId) && Truthy(documentType) && caseId.value !in old(db.tables.cases) ==>
      res == NotFound("Case not found")
    ensures res.Created? <==>
      && user.Firm? && Truthy(caseId) && Truthy(documentType) && caseId.value in old(db.tables.cases)
      && (documentType.value == "NOTICE_TO_QUIT" || documentType.value == "COMPLAINT")
      && (!Truthy(templateId) || templateId.value in old(db.tables.templates))
    ensures user.Firm? && Truthy(caseId) && Truthy(documentType) && caseId.value in old(db.tables.cases) &&
            (documentType.value == "NOTICE_TO_QUIT" || documentType.value == "COMPLAINT") &&
            Truthy(templateId) && templateId.value !in old(db.tables.templates) ==>
      && res == ServerError("Failed to generate document")
      && db.tables == old(db.tables).(files := old(db.tables.files) +
           {GeneratedPath(documentType.value, old(db.tables.cases)[caseId.value].caseNumber, now)})
    ensures user.Firm? && Truthy(caseId) && Truthy(documentType) && caseId.value in old(db.tables.cases) &&
            documentType.value != "NOTICE_TO_QUIT" && documentType.value != "COMPLAINT" ==>
      res == ServerError("Failed to generate document") && db.tables == old(db.tables)
    ensures res.Forbidden? || res.BadRequest? || res.NotFound? ==> db.tables == old(db.tables)
    ensures res.Created? ==>
      var c := old(db.tables.cases)[caseId.value];
      var path := GeneratedPath(documentType.value, c.caseNumber, now);
      var d := res.body;
      var aid := FreshId(old(db.tables.auditLogs).Keys);
      && d == GeneratedRow(FreshId(old(db.tables.documents).Keys), user, c, documentType.value, templateId, path, now)
      && db.tables == old(db.tables).(
           files := old(db.tables.files) + {path},
           documents := old(db.tables.documents)[d.id := d],
           auditLogs := old(db.tables.auditLogs)[aid := Audit(aid, user, "DOCUMENT_GENERATED", "Document", d.id, None)])
  {
    var gate := RequireFirmUser(Some(user));
    if !gate.Ok? {
      return Relay(gate);
    }
    if !Truthy(caseId) || !Truthy(documentType) {
      return BadRequest("Case ID and document type are required");
    }
    var cid := caseId.value;
    var dt := documentType.value;
    if cid !in db.tables.cases {
      return NotFound("Case not found");
    }
    var c := db.tables.cases[cid];
    var pdf := DocumentGenerator.GenerateFromTemplate(dt, CaseDataOf(db.tables, c));
    if pdf.Thrown? {
      return ServerError("Failed to generate document");
    }
    var path := GeneratedPath(dt, c.caseNumber, now);
    FilesKeep(db.tables, db.tables.files + {path});
    db.tables := db.tables.(files := db.tables.files + {path});
    if Truthy(templateId) && templateId.value !in db.tables.templates {
      return ServerError("Failed to generate document");
    }
    var d := GeneratedRow(FreshId(db.tables.documents.Keys), user, c, dt, templateId, path, now);
    AddDocumentKeeps(db.tables, d);
    db.tables := db.tables.(documents := db.tables.documents[d.id := d]);
    var aid := FreshId(db.tables.auditLogs.Keys);
    var a := Audit(aid, user, "DOCUMENT_GENERATED", "Document", d.id, None);
    AddAuditKeeps(db.tables, a);
    db.tables := db.tables.(auditLogs := db.tables.auditLogs[aid := a]);
    res := Created(d);
  }
}
