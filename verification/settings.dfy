/**
 * The firm settings routes, for law-firm admins only: a read that creates
 * the default settings row on first use, and an update that edits the
 * firm's profile and upserts its settings. The two writes of an update are
 * separate statements, so a rejected settings write leaves a profile edit
 * in place.
 */
module Settings {
  import opened Common
  import opened Model
  import opened Store
  import opened AuthMiddleware

  /** What both routes answer: the settings row with the firm's profile. */
  datatype SettingsView = SettingsView(settings: FirmSettings, lawFirm: LawFirm)

  const DefaultSyncSchedule := "0 2 * * *"
  const DefaultRetentionYears := 7

  /** The chain of gates the router applies: a firm principal, then the
      LAW_FIRM_ADMIN role. */
  function AdminGate(user: Principal): (r: Response<()>)
    ensures r.Ok? <==> user.Firm? && user.role == "LAW_FIRM_ADMIN"
    ensures !user.Firm? ==> r == Forbidden("Firm user access required")
    ensures user.Firm? && user.role != "LAW_FIRM_ADMIN" ==> r == Forbidden("Insufficient permissions")
  {
    var g := RequireFirmUser(Some(user));
    if !g.Ok? then g else Authorize(Some(user), ["LAW_FIRM_ADMIN"])
  }

  /** Whether the firm has its settings row. */
  ghost predicate HasSettings(t: Tables, lawFirmId: Id) {
    exists k :: k in t.settings && t.settings[k].lawFirmId == lawFirmId
  }

  /** Whether Prisma takes the upsert's data: the update half when the firm
      has a settings row, the create half otherwise. */
  ghost predicate UpsertAccepted(t: Tables, lawFirmId: Id, b: Body) {
    if HasSettings(t, lawFirmId) then UpdateAccepted(b) else CreateAccepted(b)
  }

  /** The row of the firm, when it has one: one at most, by the unique index. */
  ghost predicate SettingsRowIs(t: Tables, lawFirmId: Id, s: FirmSettings) {
    s.id in t.settings && t.settings[s.id] == s && s.lawFirmId == lawFirmId
  }

  /** Adding a settings row for a firm that exists and has none keeps the
      database consistent. */
  lemma AddSettingsKeeps(t: Tables, s: FirmSettings)
    requires Consistent(t) && s.id !in t.settings && s.lawFirmId in t.lawFirms
    requires !HasSettings(t, s.lawFirmId)
    ensures Consistent(t.(settings := t.settings[s.id := s]))
  {
    var m := t.settings[s.id := s];
    forall a, b | a in m && b in m && a != b
      ensures m[a].lawFirmId != m[b].lawFirmId
    {
      if a == s.id {
        assert t.settings[b].lawFirmId != s.lawFirmId;
      } else if b == s.id {
        assert t.settings[a].lawFirmId != s.lawFirmId;
      }
    }
    assert SettingsRows(m, t.lawFirms);
  }

  /** Rewriting a settings row without moving it to another firm keeps the
      database consistent. */
  lemma ReplaceSettingsKeeps(t: Tables, s: FirmSettings)
    requires Consistent(t) && s.id in t.settings && t.settings[s.id].lawFirmId == s.lawFirmId
    ensures Consistent(t.(settings := t.settings[s.id := s]))
  {
  }

  lemma ReplaceLawFirmKeeps(t: Tables, f: LawFirm)
    requires Consistent(t) && f.id in t.lawFirms
    ensures Consistent(t.(lawFirms := t.lawFirms[f.id := f]))
  {
  }

  /** The defaults the read creates. */
  function DefaultSettings(id: Id, lawFirmId: Id): (s: FirmSettings)
    ensures s.id == id && s.lawFirmId == lawFirmId
    ensures s.syncSchedule == "0 2 * * *" && s.dataRetentionYears == 7
    ensures s.defaultNotificationEmail.None? && s.brandingLogo.None?
  {
    FirmSettings(id, lawFirmId, None, DefaultSyncSchedule, DefaultRetentionYears, None)
  }

  /** GET /settings: the firm's settings, created with the defaults when it
      has none (and 500 when the firm itself is gone). */
  method GetSettings(db: Db, user: Principal) returns (res: Response<SettingsView>)
    requires db.Valid()
    modifies db
    ensures db.Valid()
    ensures !res.Ok? ==> db.tables == old(db.tables)
    ensures !user.Firm? ==> res == Forbidden("Firm user access required")
    ensures user.Firm? && user.role != "LAW_FIRM_ADMIN" ==> res == Forbidden("Insufficient permissions")
    ensures res.Ok? ==> SettingsRowIs(db.tables, user.lawFirmId, res.body.settings)
    ensures res.Ok? ==> user.lawFirmId in db.tables.lawFirms && res.body.lawFirm == db.tables.lawFirms[user.lawFirmId]
    ensures user.Firm? && user.role == "LAW_FIRM_ADMIN" && HasSettings(old(db.tables), user.lawFirmId) ==>
      res.Ok? && db.tables == old(db.tables)
    ensures user.Firm? && user.role == "LAW_FIRM_ADMIN" && !HasSettings(old(db.tables), user.lawFirmId) ==>
      if user.lawFirmId in old(db.tables.lawFirms) then
        var s := DefaultSettings(FreshId(old(db.tables.settings).Keys), user.lawFirmId);
        res == Ok(SettingsView(s, old(db.tables.lawFirms)[user.lawFirmId])) &&
        db.tables == old(db.tables).(settings := old(db.tables.settings)[s.id := s])
      else
        res == ServerError("Failed to fetch settings")
  {
    var gate := AdminGate(user);
    if !gate.Ok? {
      return Relay(gate);
    }
    var f := user.lawFirmId;
    var found := FindSettings(db, f);
    if found.Some? {
      return Ok(SettingsView(found.value, db.tables.lawFirms[f]));
    }
    if f !in db.tables.lawFirms {
      return ServerError("Failed to fetch settings");
    }
    var s := DefaultSettings(FreshId(db.tables.settings.Keys), f);
    AddSettingsKeeps(db.tables, s);
    db.tables := db.tables.(settings := db.tables.settings[s.id := s]);
    res := Ok(SettingsView(s, db.tables.lawFirms[f]));
  }

  // ---------------------------------------------------------------- firm profile

  /** Whether the body asks for a profile edit: some profile field is truthy. */
  predicate ProfileAsked(b: Body) {
    Present(b, "firmName") || Present(b, "firmAddress") || Present(b, "firmPhone") ||
    Present(b, "firmEmail") || Present(b, "firmLogoUrl")
  }

  /** Every truthy profile field is a string, as the column needs. */
  predicate ProfileAccepted(b: Body) {
    forall k :: k in {"firmName", "firmAddress", "firmPhone", "firmEmail", "firmLogoUrl"} && Present(b, k) ==> b[k].VStr?
  }

  /** A profile column after the edit: written when the field is truthy. */
  function ProfileValue(b: Body, k: string, d: Option<string>): Option<string> {
    if Present(b, k) && b[k].VStr? then Some(b[k].s) else d
  }

  /** The firm after a profile edit: each truthy field written, falsy ones
      (an empty string, null, absent) leave the column as it is. */
  function PatchProfile(f: LawFirm, b: Body): (r: LawFirm)
    ensures r.id == f.id
    ensures Present(b, "firmName") && b["firmName"].VStr? ==> r.name == b["firmName"].s
    ensures !Present(b, "firmName") ==> r.name == f.name
    ensures Present(b, "firmAddress") && b["firmAddress"].VStr? ==> r.address == Some(b["firmAddress"].s)
    ensures Present(b, "firmPhone") && b["firmPhone"].VStr? ==> r.phone == Some(b["firmPhone"].s)
    ensures Present(b, "firmEmail") && b["firmEmail"].VStr? ==> r.email == Some(b["firmEmail"].s)
    ensures Present(b, "firmLogoUrl") && b["firmLogoUrl"].VStr? ==> r.logoUrl == Some(b["firmLogoUrl"].s)
    ensures !Present(b, "firmAddress") ==> r.address == f.address
    ensures !Present(b, "firmPhone") ==> r.phone == f.phone
    ensures !Present(b, "firmEmail") ==> r.email == f.email
    ensures !Present(b, "firmLogoUrl") ==> r.logoUrl == f.logoUrl
    ensures !ProfileAsked(b) ==> r == f
  {
    f.(name := if Present(b, "firmName") && b["firmName"].VStr? then b["firmName"].s else f.name,
       address := ProfileValue(b, "firmAddress", f.address),
       phone := ProfileValue(b, "firmPhone", f.phone),
       email := ProfileValue(b, "firmEmail", f.email),
       logoUrl := ProfileValue(b, "firmLogoUrl", f.logoUrl))
  }

  // ---------------------------------------------------------------- settings upsert

  /** Whether Prisma accepts `v` for settings column `k`. */
  predicate SettingsFieldAccepts(k: string, v: Value) {
    if k == "defaultNotificationEmail" || k == "brandingLogo" then v.VStr? || v.VNull?
    else if k == "syncSchedule" then v.VStr?
    else if k == "dataRetentionYears" then v.VNum?
    else true
  }

  /** The update half of the upsert writes every settings field the body has. */
  predicate UpdateAccepted(b: Body) {
    forall k :: k in b ==> SettingsFieldAccepts(k, b[k])
  }

  /** The create half writes each field only when it is truthy. */
  predicate CreateAccepted(b: Body) {
    forall k :: k in b && TruthyValue(b[k]) ==> SettingsFieldAccepts(k, b[k])
  }

  function NullableText(v: Value): Option<string> {
    if v.VStr? then Some(v.s) else None
  }

  /** The existing row after the update half: a field the body has, null
      included, is written; a field it lacks is kept. */
  function PatchSettings(s: FirmSettings, b: Body): (r: FirmSettings)
    requires UpdateAccepted(b)
    ensures r.id == s.id && r.lawFirmId == s.lawFirmId
    ensures "defaultNotificationEmail" !in b ==> r.defaultNotificationEmail == s.defaultNotificationEmail
    ensures "defaultNotificationEmail" in b && b["defaultNotificationEmail"].VStr? ==>
      r.defaultNotificationEmail == Some(b["defaultNotificationEmail"].s)
    ensures "defaultNotificationEmail" in b && b["defaultNotificationEmail"].VNull? ==> r.defaultNotificationEmail.None?
    ensures "syncSchedule" !in b ==> r.syncSchedule == s.syncSchedule
    ensures "syncSchedule" in b ==> r.syncSchedule == b["syncSchedule"].s
    ensures "dataRetentionYears" !in b ==> r.dataRetentionYears == s.dataRetentionYears
    ensures "dataRetentionYears" in b ==> r.dataRetentionYears == b["dataRetentionYears"].n
    ensures "brandingLogo" !in b ==> r.brandingLogo == s.brandingLogo
    ensures "brandingLogo" in b && b["brandingLogo"].VStr? ==> r.brandingLogo == Some(b["brandingLogo"].s)
    ensures "brandingLogo" in b && b["brandingLogo"].VNull? ==> r.brandingLogo.None?
  {
    s.(defaultNotificationEmail :=
         if "defaultNotificationEmail" in b then NullableText(b["defaultNotificationEmail"]) else s.defaultNotificationEmail,
       syncSchedule := if "syncSchedule" in b then b["syncSchedule"].s else s.syncSchedule,
       dataRetentionYears := if "dataRetentionYears" in b then b["dataRetentionYears"].n else s.dataRetentionYears,
       brandingLogo := if "brandingLogo" in b then NullableText(b["brandingLogo"]) else s.brandingLogo)
  }

  /** Sending the same update twice leaves the row as the first left it. */
  lemma PatchSettingsIdempotent(s: FirmSettings, b: Body)
    requires UpdateAccepted(b)
    ensures PatchSettings(PatchSettings(s, b), b) == PatchSettings(s, b)
  {
  }

  /** The row the create half inserts: `field || default` for each field. */
  function CreatedSettings(id: Id, lawFirmId: Id, b: Body): (r: FirmSettings)
    requires CreateAccepted(b)
    ensures r.id == id && r.lawFirmId == lawFirmId
    ensures Present(b, "syncSchedule") ==> r.syncSchedule == b["syncSchedule"].s
    ensures !Present(b, "syncSchedule") ==> r.syncSchedule == "0 2 * * *"
    ensures Present(b, "dataRetentionYears") ==> r.dataRetentionYears == b["dataRetentionYears"].n
    ensures !Present(b, "dataRetentionYears") ==> r.dataRetentionYears == 7
    ensures Present(b, "defaultNotificationEmail") ==> r.defaultNotificationEmail == Some(b["defaultNotificationEmail"].s)
    ensures !Present(b, "defaultNotificationEmail") ==> r.defaultNotificationEmail.None?
    ensures Present(b, "brandingLogo") ==> r.brandingLogo == Some(b["brandingLogo"].s)
    ensures !Present(b, "brandingLogo") ==> r.brandingLogo.None?
  {
    FirmSettings(
      id, lawFirmId,
      if Present(b, "defaultNotificationEmail") then Some(b["defaultNotificationEmail"].s) else None,
      if Present(b, "syncSchedule") then b["syncSchedule"].s else DefaultSyncSchedule,
      if Present(b, "dataRetentionYears") then b["dataRetentionYears"].n else DefaultRetentionYears,
      if Present(b, "brandingLogo") then Some(b["brandingLogo"].s) else None)
  }

  /** A retention of 0 years is kept by the update half but replaced by 7
      when it creates the row; an empty schedule likewise. */
  lemma FalsyFieldsDependOnRow(s: FirmSettings, id: Id, lawFirmId: Id)
    ensures var b := map["dataRetentionYears" := VNum(0), "syncSchedule" := VStr("")];
            && UpdateAccepted(b) && CreateAccepted(b)
            && PatchSettings(s, b).dataRetentionYears == 0 && PatchSettings(s, b).syncSchedule == ""
            && CreatedSettings(id, lawFirmId, b).dataRetentionYears == 7
            && CreatedSettings(id, lawFirmId, b).syncSchedule == "0 2 * * *"
  {
    var b := map["dataRetentionYears" := VNum(0), "syncSchedule" := VStr("")];
    assert forall k :: k in b ==> k == "dataRetentionYears" || k == "syncSchedule";
  }

  /** PUT /settings: a profile edit when some profile field is truthy, then
      the settings upsert. Either write that Prisma rejects answers 500;
      a rejected upsert leaves the profile edit written. */
  method UpdateSettings(db: Db, user: Principal, b: Body) returns (res: Response<SettingsView>)
    requires db.Valid()
    modifies db
    ensures db.Valid()
    ensures !user.Firm? ==> res == Forbidden("Firm user access required")
    ensures user.Firm? && user.role != "LAW_FIRM_ADMIN" ==> res == Forbidden("Insufficient permissions")
    ensures !user.Firm? || user.role != "LAW_FIRM_ADMIN" ==> db.tables == old(db.tables)
    ensures res.Ok? || res.Forbidden? || res == ServerError("Failed to update settings")
    ensures user.Firm? && user.role == "LAW_FIRM_ADMIN" && user.lawFirmId !in old(db.tables.lawFirms) ==>
      res == ServerError("Failed to update settings") && db.tables == old(db.tables)
    ensures user.Firm? && user.role == "LAW_FIRM_ADMIN" && ProfileAsked(b) && !ProfileAccepted(b) ==>
      res == ServerError("Failed to update settings") && db.tables == old(db.tables)
    ensures res.Ok? ==>
      && user.lawFirmId in old(db.tables.lawFirms) && (ProfileAsked(b) ==> ProfileAccepted(b))
      && db.tables.lawFirms == old(db.tables.lawFirms)[user.lawFirmId := PatchProfile(old(db.tables.lawFirms)[user.lawFirmId], b)]
      && res.body.lawFirm == db.tables.lawFirms[user.lawFirmId]
      && SettingsRowIs(db.tables, user.lawFirmId, res.body.settings)
      && (forall s :: SettingsRowIs(old(db.tables), user.lawFirmId, s) ==>
            UpdateAccepted(b) && res.body.settings == PatchSettings(s, b))
      && db.tables.settings == old(db.tables.settings)[res.body.settings.id := res.body.settings]
      && (!HasSettings(old(db.tables), user.lawFirmId) ==>
            CreateAccepted(b) && res.body.settings == CreatedSettings(FreshId(old(db.tables.settings).Keys), user.lawFirmId, b))
    ensures res.Ok? <==>
      && user.Firm? && user.role == "LAW_FIRM_ADMIN" && user.lawFirmId in old(db.tables.lawFirms)
      && (ProfileAsked(b) ==> ProfileAccepted(b)) && UpsertAccepted(old(db.tables), user.lawFirmId, b)
    ensures && user.Firm? && user.role == "LAW_FIRM_ADMIN" && user.lawFirmId in old(db.tables.lawFirms)
            && (ProfileAsked(b) ==> ProfileAccepted(b)) && !UpsertAccepted(old(db.tables), user.lawFirmId, b) ==>
      && res == ServerError("Failed to update settings")
      && db.tables == old(db.tables).(lawFirms := old(db.tables.lawFirms)[user.lawFirmId := PatchProfile(old(db.tables.lawFirms)[user.lawFirmId], b)])
  {
    var gate := AdminGate(user);
    if !gate.Ok? {
      return Relay(gate);
    }
    var f := user.lawFirmId;
    if f !in db.tables.lawFirms || (ProfileAsked(b) && !ProfileAccepted(b)) {
      return ServerError("Failed to update settings");
    }
    WriteProfile(db, f, b);
    var found := FindSettings(db, f);
    forall s | SettingsRowIs(db.tables, f, s) ensures s == found.value {
      SettingsRowUnique(db.tables, f, s, found.value);
    }
    var s := UpsertSettings(db, f, b, found);
    if s.None? {
      return ServerError("Failed to update settings");
    }
    res := Ok(SettingsView(s.value, db.tables.lawFirms[f]));
  }

  /** The firm has one settings row at most. */
  lemma SettingsRowUnique(t: Tables, f: Id, s1: FirmSettings, s2: FirmSettings)
    requires Consistent(t) && SettingsRowIs(t, f, s1) && SettingsRowIs(t, f, s2)
    ensures s1 == s2
  {
  }

  /** `firmSettings.findUnique({ where: { lawFirmId } })`. */
  method FindSettings(db: Db, f: Id) returns (r: Option<FirmSettings>)
    requires db.Valid()
    ensures r.None? <==> !HasSettings(db.tables, f)
    ensures r.Some? ==> SettingsRowIs(db.tables, f, r.value)
  {
    if exists k :: k in db.tables.settings && db.tables.settings[k].lawFirmId == f {
      var k :| k in db.tables.settings && db.tables.settings[k].lawFirmId == f;
      r := Some(db.tables.settings[k]);
    } else {
      r := None;
    }
  }

  /** `lawFirm.update` with the truthy profile fields, issued only when
      there is one. */
  method WriteProfile(db: Db, f: Id, b: Body)
    requires db.Valid() && f in db.tables.lawFirms
    modifies db
    ensures db.Valid()
    ensures db.tables == old(db.tables).(lawFirms := old(db.tables.lawFirms)[f := PatchProfile(old(db.tables.lawFirms)[f], b)])
  {
    var firm := PatchProfile(db.tables.lawFirms[f], b);
    if ProfileAsked(b) {
      ReplaceLawFirmKeeps(db.tables, firm);
      db.tables := db.tables.(lawFirms := db.tables.lawFirms[f := firm]);
    } else {
      assert db.tables.lawFirms[f := firm] == db.tables.lawFirms;
    }
  }

  /** The row the upsert stores given what the unique lookup found (`id` is
      the id a create would use); `None` when Prisma rejects the data. */
  function Upserted(found: Option<FirmSettings>, f: Id, id: Id, b: Body): (r: Option<FirmSettings>)
    requires found.Some? ==> found.value.lawFirmId == f
    ensures found.Some? ==> if UpdateAccepted(b) then r == Some(PatchSettings(found.value, b)) else r.None?
    ensures found.None? ==> if CreateAccepted(b) then r == Some(CreatedSettings(id, f, b)) else r.None?
    ensures r.Some? ==> r.value.lawFirmId == f && r.value.id == (if found.Some? then found.value.id else id)
  {
    if found.Some? then
      if UpdateAccepted(b) then Some(PatchSettings(found.value, b)) else None
    else
      if CreateAccepted(b) then Some(CreatedSettings(id, f, b)) else None
  }

  /** `firmSettings.upsert`: only the settings table changes. */
  method UpsertSettings(db: Db, f: Id, b: Body, found: Option<FirmSettings>) returns (r: Option<FirmSettings>)
    requires db.Valid() && f in db.tables.lawFirms
    requires found.None? <==> !HasSettings(db.tables, f)
    requires found.Some? ==> SettingsRowIs(db.tables, f, found.value)
    modifies db
    ensures db.Valid()
    ensures r == Upserted(found, f, FreshId(old(db.tables.settings).Keys), b)
    ensures r.None? ==> db.tables == old(db.tables)
    ensures r.Some? ==> db.tables == old(db.tables).(settings := old(db.tables.settings)[r.value.id := r.value])
  {
    r := Upserted(found, f, FreshId(db.tables.settings.Keys), b);
    if r.Some? {
      WriteSettingsRow(db, r.value);
    }
  }

  /** Stores a settings row of a firm under its id: the firm's own row
      rewritten, or its first row added. */
  method WriteSettingsRow(db: Db, s: FirmSettings)
    requires db.Valid() && s.lawFirmId in db.tables.lawFirms
    requires s.id in db.tables.settings ==> db.tables.settings[s.id].lawFirmId == s.lawFirmId
    requires s.id !in db.tables.settings ==> !HasSettings(db.tables, s.lawFirmId)
    modifies db
    ensures db.Valid()
    ensures db.tables == old(db.tables).(settings := old(db.tables.settings)[s.id := s])
  {
    if s.id in db.tables.settings {
      ReplaceSettingsKeeps(db.tables, s);
    } else {
      AddSettingsKeeps(db.tables, s);
    }
    db.tables := db.tables.(settings := db.tables.settings[s.id := s]);
  }
}
