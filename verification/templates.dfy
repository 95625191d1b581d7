/**
 * The document-template routes: listing and reading the catalogue, uploading
 * a new version of a template, editing it and deactivating it. Only firm
 * principals reach these routes; the writes also need LAW_FIRM_ADMIN.
 * A template belongs to the slot given by its name, type and jurisdiction,
 * and every upload into a slot is meant to become its next version.
 */
module Templates {
  import opened Common
  import opened Strings
  import opened Model
  import opened Store
  import opened Query
  import opened AuthMiddleware
  import Documents

  // ---------------------------------------------------------------- listing

  /** The query string of GET /templates. */
  datatype TemplateQuery = TemplateQuery(jurisdiction: Option<string>, templateType: Option<string>, isActive: Option<string>)

  /** The `where` of the catalogue: empty filters are dropped, and any
      `isActive` text other than 'true' asks for inactive templates. */
  predicate TemplateMatch(q: TemplateQuery, t: Template) {
    && (Truthy(q.jurisdiction) ==> t.jurisdiction == q.jurisdiction.value)
    && (Truthy(q.templateType) ==> t.templateType == q.templateType.value)
    && (q.isActive.Some? ==> t.isActive == (q.isActive.value == "true"))
  }

  /** Jurisdiction, then type, then the newest version first. */
  function CatalogOrder(t: Template): Key {
    [Str(t.jurisdiction), Str(t.templateType), Num(-t.version)]
  }

  /** GET /templates. */
  method ListTemplates(db: Db, user: Principal, q: TemplateQuery) returns (res: Response<seq<Template>>)
    ensures !user.Firm? ==> res == Forbidden("Firm user access required")
    ensures user.Firm? ==> res.Ok? && IsListing(res.body, db.tables.templates, (t: Template) => TemplateMatch(q, t), CatalogOrder)
  {
    var gate := RequireFirmUser(Some(user));
    if !gate.Ok? {
      return Relay(gate);
    }
    var rs := Select(db.tables.templates, (t: Template) => TemplateMatch(q, t), CatalogOrder);
    res := Ok(rs);
  }

  /** GET /templates/:id. */
  method GetTemplate(db: Db, user: Principal, id: Id) returns (res: Response<Template>)
    ensures !user.Firm? ==> res == Forbidden("Firm user access required")
    ensures user.Firm? && id !in db.tables.templates ==> res == NotFound("Template not found")
    ensures user.Firm? && id in db.tables.templates ==> res == Ok(db.tables.templates[id])
  {
    var gate := RequireFirmUser(Some(user));
    if !gate.Ok? {
      return Relay(gate);
    }
    if id !in db.tables.templates {
      return NotFound("Template not found");
    }
    res := Ok(db.tables.templates[id]);
  }

  // ---------------------------------------------------------------- versions

  /** The slot a template fills: its name, type and jurisdiction. */
  function Slot(t: Template): (string, string, string) {
    (t.name, t.templateType, t.jurisdiction)
  }

  /** The templates of a slot, or only its active ones. */
  function SlotKeys(m: map<Id, Template>, slot: (string, string, string), activeOnly: bool): set<Id> {
    set k | k in m && Slot(m[k]) == slot && (activeOnly ==> m[k].isActive)
  }

  /** Among finitely many templates one carries the highest version. */
  lemma {:induction false} NewestExists(m: map<Id, Template>, ks: set<Id>)
    requires ks != {} && ks <= m.Keys
    ensures exists k :: k in ks && forall j :: j in ks ==> m[j].version <= m[k].version
  {
    var x :| x in ks;
    if ks != {x} {
      NewestExists(m, ks - {x});
      var y :| y in ks - {x} && forall j :: j in ks - {x} ==> m[j].version <= m[y].version;
      var b := if m[x].version > m[y].version then x else y;
      forall j | j in ks ensures m[j].version <= m[b].version {
        if j != x { assert j in ks - {x}; }
      }
    }
  }

  /** The version of `findFirst` ordered by version descending: the highest
      version among the templates of the slot. */
  function NewestVersion(m: map<Id, Template>, slot: (string, string, string), activeOnly: bool): (v: int)
    requires SlotKeys(m, slot, activeOnly) != {}
    ensures exists k :: k in m && Slot(m[k]) == slot && (activeOnly ==> m[k].isActive) && m[k].version == v
    ensures forall j :: j in m && Slot(m[j]) == slot && (activeOnly ==> m[j].isActive) ==> m[j].version <= v
  {
    var ks := SlotKeys(m, slot, activeOnly);
    NewestExists(m, ks);
    var k :| k in ks && forall j :: j in ks ==> m[j].version <= m[k].version;
    assert forall j :: j in m && Slot(m[j]) == slot && (activeOnly ==> m[j].isActive) ==> j in ks;
    m[k].version
  }

  /** The version an upload receives as the route computes it: one past the
      newest *active* template of the slot, or 1 when the slot has no active
      template. */
  function NextVersionAsWritten(m: map<Id, Template>, slot: (string, string, string)): (v: int)
    ensures (forall k :: k in m && Slot(m[k]) == slot ==> !m[k].isActive) ==> v == 1
    ensures (exists k :: k in m && Slot(m[k]) == slot && m[k].isActive) ==>
              exists k :: k in m && Slot(m[k]) == slot && m[k].isActive && m[k].version == v - 1
    ensures forall k :: k in m && m[k].isActive && Slot(m[k]) == slot ==> m[k].version < v
  {
    assert forall k :: k in m && Slot(m[k]) == slot && m[k].isActive ==> k in SlotKeys(m, slot, true);
    if SlotKeys(m, slot, true) == {} then
      1
    else NewestVersion(m, slot, true) + 1
  }

  /** The version an upload is meant to receive: one past every version the
      slot has ever held, so none is handed out twice. */
  function NextVersion(m: map<Id, Template>, slot: (string, string, string)): (v: int)
    ensures (forall k :: k in m ==> Slot(m[k]) != slot) ==> v == 1
    ensures (exists k :: k in m && Slot(m[k]) == slot) ==>
              exists k :: k in m && Slot(m[k]) == slot && m[k].version == v - 1
    ensures forall k :: k in m && Slot(m[k]) == slot ==> m[k].version < v
  {
    assert forall k :: k in m && Slot(m[k]) == slot ==> k in SlotKeys(m, slot, false);
    if SlotKeys(m, slot, false) == {} then
      1
    else NewestVersion(m, slot, false) + 1
  }

  /** No two templates of a slot carry the same version. */
  predicate DistinctVersions(m: map<Id, Template>) {
    forall a, b :: a in m && b in m && a != b && Slot(m[a]) == Slot(m[b]) ==> m[a].version != m[b].version
  }

  /** Creating with the intended version keeps versions distinct within
      every slot. */
  lemma NextVersionKeepsDistinct(m: map<Id, Template>, t: Template)
    requires DistinctVersions(m) && t.id !in m
    requires t.version == NextVersion(m, Slot(t))
    ensures DistinctVersions(m[t.id := t])
  {
  }

  /** The file an upload is moved to: `path.join('./templates', ...)`. */
  function TemplatePath(name: string, jurisdiction: string, version: int, ext: string): (path: string)
    ensures StartsWith(path, "templates/" + name + "-" + jurisdiction + "-v") && EndsWith(path, ext)
  {
    "templates/" + name + "-" + jurisdiction + "-v" + IntText(version) + ext
  }

  /** An integer in decimal, as a template literal renders it. */
  function IntText(n: int): string {
    if n < 0 then "-" + NatToString(-n) else NatToString(n)
  }

  /** The route's version ignores deactivated templates: after the only
      version of a slot is deactivated, the next upload is version 1 again,
      so the slot holds two version-1 rows and the new file is moved onto
      the old template's path. */
  lemma AsWrittenReusesVersion()
    ensures var old1 := Template("t1", "Notice", "NOTICE_TO_QUIT", "CA", 1, TemplatePath("Notice", "CA", 1, ".pdf"), None, false);
            var m := map["t1" := old1];
            var v := NextVersionAsWritten(m, Slot(old1));
            var new1 := Template("t2", "Notice", "NOTICE_TO_QUIT", "CA", v, TemplatePath("Notice", "CA", v, ".pdf"), None, true);
            && DistinctVersions(m)
            && v == 1 && new1.templatePath == old1.templatePath
            && !DistinctVersions(m[new1.id := new1])
  {
    var old1 := Template("t1", "Notice", "NOTICE_TO_QUIT", "CA", 1, TemplatePath("Notice", "CA", 1, ".pdf"), None, false);
    var m := map["t1" := old1];
    var new1 := Template("t2", "Notice", "NOTICE_TO_QUIT", "CA", 1, TemplatePath("Notice", "CA", 1, ".pdf"), None, true);
    var m2 := m[new1.id := new1];
    assert "t1" in m2 && "t2" in m2 && Slot(m2["t1"]) == Slot(m2["t2"]);
  }

  // ---------------------------------------------------------------- writes

  /** `/pdf|doc|docx/.test(s)`, unanchored. */
  predicate TemplateType(s: string)
    ensures TemplateType(s) <==> Contains(s, "pdf") || Contains(s, "doc")
  {
    ContainsPrefix(s, "docx", "doc");
    Contains(s, "pdf") || Contains(s, "doc") || Contains(s, "docx")
  }

  /** The template upload filter: both the lower-cased extension and the
      mimetype must match. */
  predicate TemplateAccepts(originalName: string, mimeType: string)
    ensures TemplateAccepts(originalName, mimeType) ==> Documents.ExtName(originalName) != "" && TemplateType(mimeType)
  {
    assert ToLower("") == "";
    TemplateType(ToLower(Documents.ExtName(originalName))) && TemplateType(mimeType)
  }

  /** A text without the letter `c` contains no word spelled with it. */
  lemma MissingLetter(s: string, sub: string, c: char)
    requires c in sub && c !in s
    ensures !Contains(s, sub)
  {
  }

  /** A picture is not a template, whatever it is called. */
  lemma ImagesRefused(originalName: string)
    ensures !TemplateAccepts(originalName, "image/png")
  {
    MissingLetter("image/png", "pdf", 'd');
    MissingLetter("image/png", "doc", 'd');
    MissingLetter("image/png", "docx", 'd');
  }

  /** Adding or rewriting a template keeps the database consistent. */
  lemma PutTemplateKeeps(t: Tables, r: Template)
    requires Consistent(t)
    ensures Consistent(t.(templates := t.templates[r.id := r]))
  {
    var u := t.(templates := t.templates[r.id := r]);
    assert TemplateRows(u.templates);
  }

  /** The multipart fields of an upload. */
  datatype TemplateForm = TemplateForm(name: Option<string>, templateType: Option<string>,
                                       jurisdiction: Option<string>, mergeFields: Option<string>)

  /** The row an upload creates: active, at the computed version, stored at
      the moved file. */
  function NewTemplate(id: Id, form: TemplateForm, version: int, path: string): (t: Template)
    requires Truthy(form.name) && Truthy(form.templateType) && Truthy(form.jurisdiction)
    ensures t.isActive && t.id == id && t.version == version && t.templatePath == path
    ensures Slot(t) == (form.name.value, form.templateType.value, form.jurisdiction.value)
    ensures t.mergeFields.Some? <==> Truthy(form.mergeFields)
  {
    Template(id, form.name.value, form.templateType.value, form.jurisdiction.value, version, path,
             if Truthy(form.mergeFields) then form.mergeFields else None, true)
  }

  /** POST /templates: `file` is the upload multer stored (absent when none
      was sent), which its filter has let through. Without a name, type or jurisdiction the stored file is
      removed; otherwise it is moved to its versioned path. `parses` says
      whether `JSON.parse` accepts a text; the merge fields are parsed only
      after the move, so text it rejects answers 500 with the file already
      at its new path and no row written. */
  method CreateTemplate(db: Db, user: Principal, file: Option<Documents.UploadedFile>, form: TemplateForm,
                        parses: string -> bool)
    returns (res: Response<Template>)
    requires db.Valid()
    requires file.Some? ==> file.value.path in db.tables.files
    requires file.Some? ==> TemplateAccepts(file.value.originalName, file.value.mimeType)
    modifies db
    ensures db.Valid()
    ensures !user.Firm? ==> res == Forbidden("Firm user access required")
    ensures user.Firm? && user.role != "LAW_FIRM_ADMIN" ==> res == Forbidden("Insufficient permissions")
    ensures user.Firm? && user.role == "LAW_FIRM_ADMIN" && file.None? ==> res == BadRequest("Template file is required")
    ensures !(user.Firm? && user.role == "LAW_FIRM_ADMIN" && file.Some?) ==> db.tables == old(db.tables)
    ensures user.Firm? && user.role == "LAW_FIRM_ADMIN" && file.Some? &&
            !(Truthy(form.name) && Truthy(form.templateType) && Truthy(form.jurisdiction)) ==>
      && res == BadRequest("Name, type, and jurisdiction are required")
      && db.tables == old(db.tables).(files := old(db.tables.files) - {file.value.path})
    ensures res.Created? <==>
      user.Firm? && user.role == "LAW_FIRM_ADMIN" && file.Some? &&
      Truthy(form.name) && Truthy(form.templateType) && Truthy(form.jurisdiction) &&
      (Truthy(form.mergeFields) ==> parses(form.mergeFields.value))
    ensures user.Firm? && user.role == "LAW_FIRM_ADMIN" && file.Some? &&
            Truthy(form.name) && Truthy(form.templateType) && Truthy(form.jurisdiction) &&
            Truthy(form.mergeFields) && !parses(form.mergeFields.value) ==>
      var v := NextVersionAsWritten(old(db.tables.templates), (form.name.value, form.templateType.value, form.jurisdiction.value));
      var path := TemplatePath(form.name.value, form.jurisdiction.value, v, Documents.ExtName(file.value.originalName));
      && res == ServerError("Failed to create template")
      && db.tables == old(db.tables).(files := old(db.tables.files) - {file.value.path} + {path})
    ensures res.Created? ==>
      var t := res.body;
      var v := NextVersionAsWritten(old(db.tables.templates), Slot(t));
      var path := TemplatePath(t.name, t.jurisdiction, v, Documents.ExtName(file.value.originalName));
      && t == NewTemplate(FreshId(old(db.tables.templates).Keys), form, v, path)
      && db.tables == old(db.tables).(templates := old(db.tables.templates)[t.id := t],
                                      files := old(db.tables.files) - {file.value.path} + {path})
  {
    var gate := RequireFirmUser(Some(user));
    if !gate.Ok? {
      return Relay(gate);
    }
    var role := Authorize(Some(user), ["LAW_FIRM_ADMIN"]);
    if !role.Ok? {
      return Relay(role);
    }
    if file.None? {
      return BadRequest("Template file is required");
    }
    var f := file.value;
    if !Truthy(form.name) || !Truthy(form.templateType) || !Truthy(form.jurisdiction) {
      Documents.FilesKeep(db.tables, db.tables.files - {f.path});
      db.tables := db.tables.(files := db.tables.files - {f.path});
      return BadRequest("Name, type, and jurisdiction are required");
    }
    var slot := (form.name.value, form.templateType.value, form.jurisdiction.value);
    var version := NextVersionAsWritten(db.tables.templates, slot);
    var path := TemplatePath(form.name.value, form.jurisdiction.value, version, Documents.ExtName(f.originalName));
    Documents.FilesKeep(db.tables, db.tables.files - {f.path} + {path});
    db.tables := db.tables.(files := db.tables.files - {f.path} + {path});
    if Truthy(form.mergeFields) && !parses(form.mergeFields.value) {
      return ServerError("Failed to create template");
    }
    var t := NewTemplate(FreshId(db.tables.templates.Keys), form, version, path);
    PutTemplateKeeps(db.tables, t);
    db.tables := db.tables.(templates := db.tables.templates[t.id := t]);
    res := Created(t);
  }

  /** The edit an update applies: the name when truthy, the active flag when
      sent, the merge fields when truthy; nothing else. */
  function Edited(t: Template, name: Option<string>, isActive: Option<bool>, mergeFields: Option<string>): (r: Template)
    ensures r.id == t.id && r.templateType == t.templateType && r.jurisdiction == t.jurisdiction
    ensures r.version == t.version && r.templatePath == t.templatePath
    ensures r.name == (if Truthy(name) then name.value else t.name)
    ensures r.isActive == (if isActive.Some? then isActive.value else t.isActive)
    ensures r.mergeFields == (if Truthy(mergeFields) then mergeFields else t.mergeFields)
  {
    t.(name := if Truthy(name) then name.value else t.name,
       isActive := if isActive.Some? then isActive.value else t.isActive,
       mergeFields := if Truthy(mergeFields) then mergeFields else t.mergeFields)
  }

  /** An update that sends nothing leaves the template as it is. */
  lemma EmptyEditIsIdentity(t: Template)
    ensures Edited(t, None, None, None) == t
  {
  }

  /** PUT /templates/:id. Truthy merge fields are parsed by `JSON.parse`
      (`parses` says whether it accepts a text) before the update, and text
      it rejects answers 500; an unknown id makes Prisma's `update` throw. */
  method UpdateTemplate(db: Db, user: Principal, id: Id, name: Option<string>, isActive: Option<bool>,
                        mergeFields: Option<string>, parses: string -> bool) returns (res: Response<Template>)
    requires db.Valid()
    modifies db
    ensures db.Valid()
    ensures !user.Firm? ==> res == Forbidden("Firm user access required")
    ensures user.Firm? && user.role != "LAW_FIRM_ADMIN" ==> res == Forbidden("Insufficient permissions")
    ensures user.Firm? && user.role == "LAW_FIRM_ADMIN" && id !in old(db.tables.templates) ==>
      res == ServerError("Failed to update template")
    ensures user.Firm? && user.role == "LAW_FIRM_ADMIN" && Truthy(mergeFields) && !parses(mergeFields.value) ==>
      res == ServerError("Failed to update template")
    ensures res.Ok? <==> user.Firm? && user.role == "LAW_FIRM_ADMIN" && id in old(db.tables.templates)
                         && (Truthy(mergeFields) ==> parses(mergeFields.value))
    ensures !res.Ok? ==> db.tables == old(db.tables)
    ensures res.Ok? ==>
      && res.body == Edited(old(db.tables.templates)[id], name, isActive, mergeFields)
      && db.tables == old(db.tables).(templates := old(db.tables.templates)[id := res.body])
  {
    var gate := RequireFirmUser(Some(user));
    if !gate.Ok? {
      return Relay(gate);
    }
    var role := Authorize(Some(user), ["LAW_FIRM_ADMIN"]);
    if !role.Ok? {
      return Relay(role);
    }
    if Truthy(mergeFields) && !parses(mergeFields.value) {
      return ServerError("Failed to update template");
    }
    if id !in db.tables.templates {
      return ServerError("Failed to update template");
    }
    var t := Edited(db.tables.templates[id], name, isActive, mergeFields);
    PutTemplateKeeps(db.tables, t);
    db.tables := db.tables.(templates := db.tables.templates[id := t]);
    res := Ok(t);
  }

  /** DELETE /templates/:id: the row stays, marked inactive. */
  method DeactivateTemplate(db: Db, user: Principal, id: Id) returns (res: Response<string>)
    requires db.Valid()
    modifies db
    ensures db.Valid()
    ensures !user.Firm? ==> res == Forbidden("Firm user access required")
    ensures user.Firm? && user.role != "LAW_FIRM_ADMIN" ==> res == Forbidden("Insufficient permissions")
    ensures user.Firm? && user.role == "LAW_FIRM_ADMIN" && id !in old(db.tables.templates) ==>
      res == NotFound("Template not found")
    ensures res.Ok? <==> user.Firm? && user.role == "LAW_FIRM_ADMIN" && id in old(db.tables.templates)
    ensures !res.Ok? ==> db.tables == old(db.tables)
    ensures res.Ok? ==>
      && res.body == "Template deactivated successfully"
      && db.tables.templates.Keys == old(db.tables.templates).Keys
      && !db.tables.templates[id].isActive
      && db.tables == old(db.tables).(templates := old(db.tables.templates)[id := old(db.tables.templates)[id].(isActive := false)])
  {
    var gate := RequireFirmUser(Some(user));
    if !gate.Ok? {
      return Relay(gate);
    }
    var role := Authorize(Some(user), ["LAW_FIRM_ADMIN"]);
    if !role.Ok? {
      return Relay(role);
    }
    if id !in db.tables.templates {
      return NotFound("Template not found");
    }
    var t := db.tables.templates[id].(isActive := false);
    PutTemplateKeeps(db.tables, t);
    db.tables := db.tables.(templates := db.tables.templates[id := t]);
    res := Ok("Template deactivated successfully");
  }

  /** Deactivation takes a template out of what an upload into its slot
      counts, while it keeps its version and its place in the slot. */
  lemma DeactivationHidesVersion(m: map<Id, Template>, id: Id)
    requires id in m
    ensures var m2 := m[id := m[id].(isActive := false)];
            && SlotKeys(m2, Slot(m[id]), false) == SlotKeys(m, Slot(m[id]), false)
            && SlotKeys(m2, Slot(m[id]), true) == SlotKeys(m, Slot(m[id]), true) - {id}
            && NextVersion(m2, Slot(m[id])) == NextVersion(m, Slot(m[id]))
  {
    var m2 := m[id := m[id].(isActive := false)];
    var slot := Slot(m[id]);
    assert forall k :: k in m2 ==> Slot(m2[k]) == Slot(m[k]) && m2[k].version == m[k].version;
    var v, v2 := NextVersion(m, slot), NextVersion(m2, slot);
    var k :| k in m && Slot(m[k]) == slot && m[k].version == v - 1;
    var k2 :| k2 in m2 && Slot(m2[k2]) == slot && m2[k2].version == v2 - 1;
    assert m[k2].version < v && m2[k].version < v2;
  }

  /** GET /templates/:id/download: the file is offered under
      `<name>-v<version><ext>`. */
  method DownloadTemplate(db: Db, user: Principal, id: Id) returns (res: Response<(string, string)>)
    ensures !user.Firm? ==> res == Forbidden("Firm user access required")
    ensures user.Firm? && id !in db.tables.templates ==> res == NotFound("Template not found")
    ensures user.Firm? && id in db.tables.templates && db.tables.templates[id].templatePath !in db.tables.files ==>
      res == NotFound("Template file not found")
    ensures res.Ok? <==> user.Firm? && id in db.tables.templates && db.tables.templates[id].templatePath in db.tables.files
    ensures res.Ok? ==>
      var t := db.tables.templates[id];
      res.body == (t.templatePath, t.name + "-v" + IntText(t.version) + Documents.ExtName(t.templatePath))
  {
    var gate := RequireFirmUser(Some(user));
    if !gate.Ok? {
      return Relay(gate);
    }
    if id !in db.tables.templates {
      return NotFound("Template not found");
    }
    var t := db.tables.templates[id];
    if t.templatePath !in db.tables.files {
      return NotFound("Template file not found");
    }
    res := Ok((t.templatePath, t.name + "-v" + IntText(t.version) + Documents.ExtName(t.templatePath)));
  }
}
