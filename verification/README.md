# PropertiLaw core in Dafny

PropertiLaw is an eviction case-management system. Law firms run eviction cases for their property-management clients. The system has an Express API over a PostgreSQL database, reached through Prisma, and a React front end. This project models the decision logic of that system in Dafny and proves what it promises.

**The store.** The database is a class `Store.Db`. Its one field holds a map from primary key to row for each table, plus the set of file paths in the upload directory. `Store.Consistent` is the invariant every write keeps: foreign keys resolve, and the natural keys of properties, units and tenants are unique.

**Route handlers.** Every handler is a method on the `Db`. Its result is a `Model.Response` (Ok, Created, BadRequest, Unauthorized, Forbidden, NotFound or ServerError). Its `ensures` clauses state:

- the status and body for each branch of the route (where a listing or read also loads related rows through Prisma's `include`, "## Left out" names the handlers whose answers leave those rows out);
- the exact new state of the tables.

**Who may do what.** The authenticated principal is `Model.Principal`. It is either a firm user, carrying a law firm, or a client user, carrying a client. Handlers apply the scope rules of the route files to it.

**Reads.** Prisma's `findMany` and `count` are specified in `Query`: the rows a `where` filter keeps, ordered by an `orderBy` key.

**The sync service.** Each sync has a specification function that folds the fetched records into the tables. The loop methods are proved equal to those functions.

**Adapters and e-filing.** The record mappers of the RentManager and Yardi adapters are functions over loosely typed records. So are the packet, payload and reply readers of the e-filing service.

**Front end.** The intake wizard, the bulk operations page, the calendar filters and the sidebar navigation are modelled as well.

**Inputs.** The clock is a parameter `now`, in milliseconds. Anything the system asks of the network, the file system, bcrypt or JSON Web Tokens is also a parameter.

Where the code has a defect, the route handlers and page methods model it as written. The "## Findings" table names each defect, the member that exhibits it and a corrected definition proved beside it; the corrected definitions are not wired into the handlers.

## Model

| member | source | states |
|---|---|---|
| Model.Audit | backend/src/routes/cases.ts:275-286 | an audit entry records the acting user and kind, and a firm user id exactly for a firm principal |
| Model.JurisdictionOfNothing | backend/src/services/integrations/rentManagerService.ts:164-167 | a property with neither county nor state gets the jurisdiction "County," |
| Model.JurisdictionOfPlainParts | backend/src/services/integrations/rentManagerService.ts:164-167 | an unpadded county and state are joined as "<county> County, <state>" |
| Model.JurisdictionWithoutState | backend/src/services/integrations/rentManagerService.ts:164-167 | a missing state leaves "<county> County," with the trailing space trimmed |
| AuthMiddleware.Token | backend/src/middleware/auth.ts:24 | a missing header gives no token; a header starting with "Bearer " gives the rest; one without the prefix is passed through whole |
| AuthMiddleware.Authenticate | backend/src/middleware/auth.ts:18-76 | only 200 or 401; 401 "Authentication required" without a token; a principal exactly when the token verifies and names an active firm user (userType "firm") or an active client user (any other type), whose law firm or client and role the principal carries |
| AuthMiddleware.Authorize | backend/src/middleware/auth.ts:78-90 | passes exactly a principal whose role is allowed; 401 without one, 403 "Insufficient permissions" otherwise |
| AuthMiddleware.RequireFirmUser | backend/src/middleware/auth.ts:92-101 | passes exactly firm principals; everything else, no principal included, is 403 "Firm user access required" |
| AuthMiddleware.RequireClientUser | backend/src/middleware/auth.ts:103-112 | passes exactly client principals; everything else is 403 "Client user access required" |
| AuthMiddleware.GatesPartition | backend/src/middleware/auth.ts:92-112 | every principal passes exactly one of the two gates, the firm gate exactly when it is a firm principal |
| AuthRoutes.FirmByEmail | backend/src/routes/auth.ts:20-23 | the firm user whose email matches, found exactly when one exists (emails are unique) |
| AuthRoutes.ClientByEmail | backend/src/routes/auth.ts:29-32 | the client user whose email matches, found exactly when one exists |
| AuthRoutes.AccountByEmail | backend/src/routes/auth.ts:19-34 | firm users are searched first; client users only when no firm user has the email; the account found is a stored row with that email |
| AuthRoutes.CheckCredentials | backend/src/routes/auth.ts:15-43 | 400 "Email and password required" unless both are given; otherwise success exactly for an existing, active account whose hash matches the password, and one 401 "Invalid credentials" for every other case |
| AuthRoutes.FirmUserShadowsClient | backend/src/routes/auth.ts:19-38 | a login with a firm user's email can only succeed as that firm user, and never when the firm user is inactive, whatever client user shares the email |
| AuthRoutes.LoginUserOf | backend/src/routes/auth.ts:69-78 | the answer's user carries the account's id and type, a law firm exactly for firm users and a client exactly for client users |
| AuthRoutes.Stamped | backend/src/routes/auth.ts:45-56 | stamping the last login keeps the account's id, email, hash, activity and type |
| AuthRoutes.SavedKeeps | backend/src/routes/auth.ts:46-56 | writing back a stored account with only its last login or password hash changed keeps the database consistent, keeps the sets of users, and a client write leaves the firm users alone |
| AuthRoutes.StoredAccountLogsIn | backend/src/routes/auth.ts:15-43 | an active stored account (a client one not shadowed by a firm user) logs in exactly when the password matches its hash, and the login is that account |
| AuthRoutes.Login | backend/src/routes/auth.ts:11-84 | 400 and 401 exactly as CheckCredentials says, with nothing written; on success the account's last login is stamped and the answer holds the token signed for its id and type and its user |
| AuthRoutes.LoginTokenAuthenticates | backend/src/routes/auth.ts:58-65 | the token a login signs, sent back as "Bearer <token>", authenticates as the same account |
| AuthRoutes.MeNeverAnswers | backend/src/routes/auth.ts:89-106 | the handler as written never answers, even for a signed-in firm user whose row exists, while GetMe does |
| AuthRoutes.GetMeAsWritten | backend/src/routes/auth.ts:89-106 | as written, every call answers 500 "Failed to fetch user" and never the user, whatever the tables hold |
| AuthRoutes.GetMe | backend/src/routes/auth.ts:87-127 | GET /auth/me as evidently intended: the principal's type; the row exactly when it exists, with its selected columns and its firm or client id and name |
| AuthRoutes.AccountOf | backend/src/routes/auth.ts:147-156 | the principal's own row from its own table, absent exactly when the row is gone |
| AuthRoutes.Rehashed | backend/src/routes/auth.ts:167-179 | the account keeps its id, email, activity and type and gets the new hash |
| AuthRoutes.ChangePassword | backend/src/routes/auth.ts:135-186 | 400 without both passwords, 400 for a new one under 8 UTF-16 code units, 404 without a row, 401 for a wrong current password, each writing nothing; success exactly otherwise, storing the hash of the new password |
| AuthRoutes.Utf16Length | backend/src/routes/auth.ts:143 | the JavaScript length of a text lies between its number of characters and twice that, and equals it when every character is in the Basic Multilingual Plane |
| AuthRoutes.AstralPasswordLength | backend/src/routes/auth.ts:143 | four characters outside the Basic Multilingual Plane have length 8, so such a password passes the length check |
| AuthRoutes.NewPasswordLogsIn | backend/src/routes/auth.ts:135-186 | after a change the new password logs in and the old one does not, when the hash tells the two apart |
| Bulk.ImportedRow | backend/src/routes/bulk.ts:114-140 | the case an imported row creates: its client and property, status INTAKE, one primary tenant, the client's next case number, and the row's type, reason, jurisdiction and court with their defaults ("NON_PAYMENT", "Non-payment of rent", the property's jurisdiction, null) |
| Bulk.ImportedNumbersConsecutive | backend/src/routes/bulk.ts:114-118 | the cases of one import carry the client's next numbers one after another, so no two share a case number |
| Bulk.ImportedNumber | backend/src/routes/bulk.ts:115-118 | a case made from a row carries the client's count plus one as its number |
| Bulk.ErrorsNoProperty | backend/src/routes/bulk.ts:90-93 | a row matching no property of the client is rejected as "Property not found" |
| Bulk.ErrorsNoTenant | backend/src/routes/bulk.ts:109-112 | a row whose property has no matching tenant is rejected as "Tenant not found" |
| Bulk.ErrorsSkip | backend/src/routes/bulk.ts:77-146 | a row that makes a case leaves the error list as it was |
| Bulk.CasesFromRowsGrow | backend/src/routes/bulk.ts:114-142 | a row with a property and a tenant adds the client's next case, made from that row |
| Bulk.ImportMade | backend/src/routes/bulk.ts:114-142 | the loop's invariant survives a row that becomes a case: only the cases table grows, by that case |
| Bulk.ImportNoProperty | backend/src/routes/bulk.ts:80-93 | the loop's invariant survives a row rejected for its property, with nothing written |
| Bulk.ImportNoTenant | backend/src/routes/bulk.ts:96-112 | the loop's invariant survives a row rejected for its tenant, with nothing written |
| Bulk.ImportedRowLinks | backend/src/routes/bulk.ts:121-140 | an imported case points at an existing client, property and tenant |
| Bulk.ImportRow | backend/src/routes/bulk.ts:77-146 | one row of the loop: it becomes a case or an error, and the loop's invariant holds one row further |
| Bulk.ImportRows | backend/src/routes/bulk.ts:74-146 | every row ends up as exactly one case or one error; only cases change, one per created case, each the client's next; every row matching no property is rejected as such |
| Bulk.ImportCases | backend/src/routes/bulk.ts:25-159 | 403 for a client principal, 400 without a file or a client id, 404 for a client of another firm or none, each writing nothing; success exactly when the file and a client of the caller's firm are given, and then the import of ImportRows over the file's rows |
| Bulk.GenerateAccountsForEveryId | backend/src/routes/bulk.ts:181-227 | every listed id lands exactly once among the documents or the errors |
| Bulk.UngeneratableTypeFailsEverywhere | backend/src/routes/bulk.ts:196-202 | a type without a generator makes no document: every id fails, "Case not found" for an unknown case and the generator's message for a known one |
| Bulk.KnownCasesAllGenerated | backend/src/routes/bulk.ts:181-227 | a generatable type over known cases fails nowhere and makes a document for every id, in order |
| Bulk.BulkDocument | backend/src/routes/bulk.ts:204-221 | the row made for a case: its case and type, the name built with the first "_" replaced, a generated PDF uploaded by the caller |
| Bulk.GenerateStepFailed | backend/src/routes/bulk.ts:196-199 | the loop's invariant survives an id that fails, with nothing written |
| Bulk.GenerateStepMade | backend/src/routes/bulk.ts:202-223 | the loop's invariant survives an id that gets its document: only documents grow, by that row |
| Bulk.GenerateFor | backend/src/routes/bulk.ts:182-226 | one id of the loop: a document or an error, and the loop's invariant one id further |
| Bulk.BulkGenerate | backend/src/routes/bulk.ts:162-240 | 403 for a client principal, 400 without ids, 400 without a type, with nothing written; otherwise success, with one document per id that did not fail and the errors in order, and only documents changed |
| Bulk.RestatusOnlyMovesListed | backend/src/routes/bulk.ts:255-262 | the update moves exactly the listed existing cases to the status and changes no other column or row |
| Bulk.UpdatedCount | backend/src/routes/bulk.ts:255-281 | the count reported is at most the number of ids, and equal to it when they are distinct and all exist |
| Bulk.RestatusKeeps | backend/src/routes/bulk.ts:255-262 | changing statuses keeps the database consistent |
| Bulk.StatusEventsPerId | backend/src/routes/bulk.ts:265-276 | each listed id gets its own STATUS_CHANGED entry, a repeated id one per repetition |
| Bulk.StatusEventsGrow | backend/src/routes/bulk.ts:265-276 | the timeline grows by exactly one entry per id and keeps every entry it had |
| Bulk.StatusFor | backend/src/routes/bulk.ts:266-275 | one id of the loop: its entry is written, or the id names no case and the handler stops with nothing written |
| Bulk.BulkStatus | backend/src/routes/bulk.ts:243-287 | 403 for a client principal, 400 without ids or status, writing nothing; otherwise the statuses are written first, then one entry per id; success with the count of matched cases when all ids exist, else 500 at the first unknown id, keeping the statuses and the earlier entries |
| BulkPage.BulkOperations.constructor | frontend/src/pages/BulkOperations.tsx:8-25 | the page starts idle with no error, result, client or file, no selection, "NOTICE_TO_QUIT" as document type and "FILED" as status |
| BulkPage.BulkOperations.ChooseClient | frontend/src/pages/BulkOperations.tsx:220 | the client select sets the client id |
| BulkPage.BulkOperations.ChooseFile | frontend/src/pages/BulkOperations.tsx:39-43 | only a chosen file replaces the current one; an empty choice keeps it |
| BulkPage.BulkOperations.ChooseDocumentType | frontend/src/pages/BulkOperations.tsx:268 | the select sets the document type |
| BulkPage.BulkOperations.ChooseStatus | frontend/src/pages/BulkOperations.tsx:324 | the select sets the new status |
| BulkPage.BulkOperations.ToggleGenerateCase | frontend/src/pages/BulkOperations.tsx:122-128 | the generate tab's selection becomes its toggle by the id |
| BulkPage.BulkOperations.ToggleStatusCase | frontend/src/pages/BulkOperations.tsx:122-128 | the status tab's selection becomes its toggle by the id |
| BulkPage.BulkOperations.Send | frontend/src/pages/BulkOperations.tsx:51-53 | sending sets loading, clears the error and the result, and records the request |
| BulkPage.BulkOperations.BulkImport | frontend/src/pages/BulkOperations.tsx:45-66 | without a file or a client the error "Please select a CSV file and client" and no request; otherwise the import request with the file and the client; no empty request is ever sent |
| BulkPage.BulkOperations.BulkGenerate | frontend/src/pages/BulkOperations.tsx:74-88 | without a selected case or a type the error "Please select cases and document type" and no request; otherwise the request with the selection and the type |
| BulkPage.BulkOperations.BulkStatusUpdate | frontend/src/pages/BulkOperations.tsx:98-112 | without a selected case or a status the error "Please select cases and status" and no request; otherwise the request with the selection and the status |
| BulkPage.BulkOperations.Finished | frontend/src/pages/BulkOperations.tsx:66-119 | the page stops loading; an answer becomes the result; a failure shows the server's message or the request's own fallback |
| BulkPage.ToggledSelectionDistinct | frontend/src/pages/BulkOperations.tsx:122-128 | a selection built by ticking boxes holds no id twice |
| CaseIntake.ClientParam | frontend/src/pages/CaseIntake.tsx:72-73 | the properties request carries a client id exactly when it is non-empty |
| CaseIntake.StaleClientFilter | frontend/src/pages/CaseIntake.tsx:183-186 | as written, choosing a first client requests every client's properties and choosing a second one requests the first one's |
| CaseIntake.RefetchAsWritten | frontend/src/pages/CaseIntake.tsx:183-186 | the request the written handler sends: every client's properties when the previous client id is empty, else that previous id's |
| CaseIntake.StaleWhenChanged | frontend/src/pages/CaseIntake.tsx:183-186 | whenever a non-empty choice differs from the previous client, the request as written differs from the intended one |
| CaseIntake.Refetch | frontend/src/pages/CaseIntake.tsx:183-186 | as evidently intended, a client choice requests the chosen client's properties, and none when the choice is empty |
| CaseIntake.FindProperty | frontend/src/pages/CaseIntake.tsx:207 | the first property with the id, absent exactly when no property has it |
| CaseIntake.IntakeForm.constructor | frontend/src/pages/CaseIntake.tsx:23-53 | the wizard opens on step 1 with an empty form and type NON_PAYMENT; a client user's client is preset and one properties request goes out, still with the empty client id of the first render |
| CaseIntake.IntakeForm.SelectClient | frontend/src/pages/CaseIntake.tsx:183-186 | choosing a client sets it and sends the properties request as written: for the previous client id, or for every client when none was chosen before |
| CaseIntake.IntakeForm.PropertiesLoaded | frontend/src/pages/CaseIntake.tsx:74-75 | the answer to a properties request becomes the property list |
| CaseIntake.IntakeForm.SelectProperty | frontend/src/pages/CaseIntake.tsx:90-94 | choosing a listed property sets it and takes its jurisdiction ("" without one); an id not in the list changes nothing |
| CaseIntake.IntakeForm.ToggleTenant | frontend/src/pages/CaseIntake.tsx:96-102 | a tenant's box flips its id in the selection |
| CaseIntake.IntakeForm.SetReason | frontend/src/pages/CaseIntake.tsx:293 | step 2's reason field |
| CaseIntake.IntakeForm.SetDetails | frontend/src/pages/CaseIntake.tsx:277-330 | step 2's case type, taken from its four options, and the amount, months, notice date and CARES Act box as typed |
| CaseIntake.IntakeForm.SetJurisdiction | frontend/src/pages/CaseIntake.tsx:381-395 | step 3's jurisdiction and court |
| CaseIntake.IntakeForm.Next | frontend/src/pages/CaseIntake.tsx:255-411 | Next moves one step on exactly when its button is enabled: a property and a tenant on step 1, a reason on step 2, a jurisdiction on step 3; the step stays within 1..4 and every later step keeps the fields its predecessors required |
| CaseIntake.IntakeForm.Back | frontend/src/pages/CaseIntake.tsx:352-469 | Back moves exactly one step back and keeps the form valid |
| CaseIntake.IntakeForm.Payload | frontend/src/pages/CaseIntake.tsx:109-121 | the body sent: a client user's own client, the chosen one otherwise; the form's fields; empty amount, months and notice date as null |
| CaseIntake.IntakeForm.Submit | frontend/src/pages/CaseIntake.tsx:104-121 | on the review step, with no request out, the error is cleared, the page waits and the payload is sent |
| CaseIntake.IntakeForm.Finished | frontend/src/pages/CaseIntake.tsx:123-128 | the page stops waiting; a created case opens its own page; a failure shows the server's message or "Failed to create case" |
| CaseIntake.ReviewedPayloadHasRequiredFields | frontend/src/pages/CaseIntake.tsx:104-121 | the payload of the review step has every field the server's create route requires, once a firm user has chosen a client |
| Calendar.EffectiveDate | frontend/src/pages/Calendar.tsx:53-55 | the due date when there is one, else the event date; none exactly when both are missing |
| Calendar.FilteredEvents | frontend/src/pages/Calendar.tsx:57-75 | the listed events are exactly the fetched ones the filter admits, in the order fetched |
| Calendar.CompletedOnlyUnderAll | frontend/src/pages/Calendar.tsx:58 | a completed event shows only under "all" |
| Calendar.UndatedNeverInView | frontend/src/pages/Calendar.tsx:60-61 | an event with neither date never shows, not even under "all" |
| Calendar.AllShowsDated | frontend/src/pages/Calendar.tsx:57-75 | "all" shows exactly the dated events |
| Calendar.FetchDays | frontend/src/pages/Calendar.tsx:33-35 | the page asks for one day of events under "today" and thirty under every other filter |
| Calendar.OverdueShowsNothing | frontend/src/pages/Calendar.tsx:57-75 | over events the upcoming route answered, each due at or after now, the "overdue" filter lists nothing |
| Calendar.OverdueUpcomingSplit | frontend/src/pages/Calendar.tsx:65-74 | an open dated event is under exactly one of "overdue" and "upcoming", and any event another filter shows is also under "all" |
| Calendar.TodayMeetsUpcoming | frontend/src/pages/Calendar.tsx:66-71 | an open event due now is under both "today" and "upcoming" |
| Calendar.FormatDate | frontend/src/pages/Calendar.tsx:77-83 | "No date" exactly without a date, "Today" exactly on the local day of now, "Tomorrow" exactly on the next local day, the date itself otherwise |
| Calendar.TodayShowsTodayLabel | frontend/src/pages/Calendar.tsx:66-80 | every event the "today" filter shows is labelled "Today" |
| Calendar.NextDayIsTomorrow | frontend/src/pages/Calendar.tsx:81 | an instant one whole day after now is labelled "Tomorrow" |
| Navigation.ShownIsFilter | frontend/src/components/Layout.tsx:39-44 | the filter keeps, in their order, exactly the links the user may see |
| Navigation.VisibleIsFilter | frontend/src/components/Layout.tsx:18-44 | the sidebar shows, in declaration order, exactly the links that are not firm-only, and all of them to a firm user |
| Navigation.ShownAll | frontend/src/components/Layout.tsx:39-44 | a run of links the user may all see is kept whole |
| Navigation.FirmSeesAll | frontend/src/components/Layout.tsx:18-44 | a firm user sees all eleven links, in order |
| Navigation.OthersSeeSix | frontend/src/components/Layout.tsx:18-44 | anyone but a firm user, a signed-out one included, sees exactly Dashboard, Cases, Properties, Calendar, Analytics and Approvals, in that order |
| Navigation.HrefsDistinct | frontend/src/components/Layout.tsx:18-30 | no two links share an href |
| Navigation.AtMostOneActive | frontend/src/components/Layout.tsx:58-59 | at most one visible link is highlighted on any page |
| Cases.CaseNumberDigits | backend/src/routes/cases.ts:226 | a case number is "CASE-", the first eight characters of the client id, "-" and at least six decimal digits that read back as the number; below a million exactly six |
| Cases.CaseNumber | backend/src/routes/cases.ts:226 | a case number starts with "CASE-" and is at least twelve characters long |
| Cases.CaseNumberInjective | backend/src/routes/cases.ts:226 | two case numbers of the same client are equal only for equal counts |
| Cases.CountAfterCreate | backend/src/routes/cases.ts:223-228 | a created case raises its own client's count by one and leaves every other client's count alone, so sequential creates number 000001, 000002, ... |
| Cases.TenantLinks | backend/src/routes/cases.ts:244-249 | one join row per tenant id, in order, primary exactly at index 0; none for an empty list |
| Cases.ListCases | backend/src/routes/cases.ts:12-108 | the listing is exactly the cases matching the filters, newest first; a client principal's list holds only its own client's cases whatever the query says (included relations left out) |
| Cases.GetCase | backend/src/routes/cases.ts:111-190 | 404 "Case not found" exactly when the case is missing or belongs to another client of a client principal; otherwise the case with its comments (no internal ones for a client principal) newest first, its events by date and its documents newest first (included relations left out) |
| Cases.EffectiveClientId | backend/src/routes/cases.ts:211-214 | a client principal always files for its own client; a firm principal for the body's |
| Cases.NewCaseRow | backend/src/routes/cases.ts:222-249 | a new case has status INTAKE, the effective client, the client's next case number and the tenant join rows |
| Cases.CreateCase | backend/src/routes/cases.ts:193-293 | 400 exactly when a required field is missing, with nothing written; 201 exactly when the required fields are present and the new row's client, property and tenants exist, with the new case, one completed CASE_CREATED event "Case <number> created" and one CASE_CREATED audit entry, and nothing else; otherwise 500 "Failed to create case" with nothing written (included relations left out) |
| Cases.KeepOnly | backend/src/routes/cases.ts:308-313 | the body keeps exactly its keys among the allowed ones, with their values |
| Cases.WhitelistedPatchKeepsOtherColumns | backend/src/routes/cases.ts:303-337 | a body cut down to the client whitelist changes nothing but the reason and the two amounts |
| Cases.PatchCase | backend/src/routes/cases.ts:325-337 | Prisma accepts the update exactly when every key of the body names a column with a value of its type; the id and creation time are kept, and an empty body changes nothing |
| Cases.Patched | backend/src/routes/cases.ts:325-337 | a named status is written, an unnamed one kept; the id, tenant links and creation time stay; an empty body is the identity |
| Cases.UpdateCase | backend/src/routes/cases.ts:296-359 | success exactly for an existing case in the caller's scope whose patch Prisma accepts and whose client, property, tenants and attorney exist; the case is patched and one CASE_UPDATED audit entry holding the body is written; a firm principal may rewrite any column including the client, property and case number, a client principal only reason and amounts; every failure is a 500 with nothing written (included relations left out) |
| Cases.UpdateWhere | backend/src/routes/cases.ts:301-349 | the scoped `update` and its audit entry: success exactly for a case in scope whose patch is accepted and whose links exist, writing the patched row and one audit entry; otherwise 500 with nothing written |
| Cases.MoveToClient | backend/src/routes/cases.ts:325-337 | a body naming only a client id patches exactly the case's client column |
| Cases.Sent | backend/src/routes/cases.ts:303-314 | a client principal's body holds only reason, amountOwed and monthsOwed |
| Cases.PatchStatus | backend/src/routes/cases.ts:362-397 | 403 for a client principal, 400 without a status, each writing nothing; any status string is written with no transition check, followed by one completed STATUS_CHANGED event "Status changed to <status>"; an unknown case writes nothing and gets the 500 "Failed to update status" (included relations left out) |
| Cases.CloseCase | backend/src/routes/cases.ts:400-430 | 403 for a client principal; an existing case gets status CLOSED and closedDate now, plus one CASE_CLOSED event whose description is the notes or "Case closed"; an unknown case writes nothing and gets the 500 "Failed to close case" |
| ClientRoutes.SummaryOf | backend/src/routes/clients.ts:18-33 | a listed client carries its row, the counts of its cases, properties and users, and exactly the selected columns of its integrations |
| ClientRoutes.Summaries | backend/src/routes/clients.ts:14-38 | one summary per listed row, in the listing's order |
| ClientRoutes.ListClients | backend/src/routes/clients.ts:8-45 | 403 for a client principal; otherwise exactly the firm's own clients, by name, each with its summary |
| ClientRoutes.WithIdsCount | backend/src/routes/clients.ts:76-81 | the property count of a client is the same over the rows with their ids |
| ClientRoutes.GetClient | backend/src/routes/clients.ts:48-94 | 403 for a client principal; 404 "Client not found" exactly for a client missing or of another firm; otherwise the row, its users' selected columns, its integrations, its case and property counts, and its first ten properties by name |
| ClientRoutes.Inserted | backend/src/routes/clients.ts:105-114 | the new client takes the body's fields and the principal's own firm, never one from the body |
| ClientRoutes.CreateClient | backend/src/routes/clients.ts:97-121 | 403 for a client principal, 400 "Client name is required" without a name, each writing nothing; otherwise exactly one new client, visible to its own firm and to no other |
| ClientRoutes.PatchClient | backend/src/routes/clients.ts:129-135 | the update applies exactly when Prisma accepts every key; it keeps the id, writes the name and email given, keeps the firm unless the body names one, and an empty body changes nothing (`id`, `createdAt` and `updatedAt` are refused) |
| ClientRoutes.UpdateMayChangeFirm | backend/src/routes/clients.ts:127-135 | the body is written unfiltered, so an update may move a client to another firm |
| ClientRoutes.UpdateClient | backend/src/routes/clients.ts:124-142 | 403 for a client principal; success exactly for the firm's own client with an accepted body naming an existing firm, writing the patched row; every other case is a 500 "Failed to update client" with nothing written (`id`, `createdAt` and `updatedAt` are refused) |
| Comments.AddComment | backend/src/routes/comments.ts:11-72 | 400 without content, 404 "Case not found" for a missing case or another client's case, each writing nothing; otherwise exactly one new comment on the case, internal exactly when a firm principal sent anything but false, authored by the principal and its type; a client's comment is visible to everyone (included relations left out) |
| CourtConfigRoutes.AdminGate | backend/src/routes/courtConfig.ts:9-11 | only a firm principal with role LAW_FIRM_ADMIN passes; a client principal gets 403 "Firm user access required", another firm role 403 "Insufficient permissions" |
| CourtConfigRoutes.CourtIdsDistinct | backend/src/routes/courtConfig.ts:21-25 | the listing's positional ids name one position each |
| CourtConfigRoutes.CourtNamesDistinct | backend/src/services/efilingService.ts:286-307 | the configured court names are pairwise distinct |
| CourtConfigRoutes.ListCourtConfigs | backend/src/routes/courtConfig.ts:19-32 | behind the gate, every configured court in the table's order, under id "court-<position>", with its name and configuration |
| CourtConfigRoutes.GetCourtConfig | backend/src/routes/courtConfig.ts:35-52 | behind the gate, the configuration of a configured court under its name; 404 "Court configuration not found" for any other name |
| CourtConfigRoutes.ListingAgreesWithReads | backend/src/routes/courtConfig.ts:19-52 | every listed court reads back by its name with the same configuration, and no two listed courts share an id |
| CourtConfigRoutes.PostCourtConfig | backend/src/routes/courtConfig.ts:55-78 | behind the gate, 400 unless name, provider and URL are all given; otherwise only an echo of them, with a missing requiresAuth as false, and the table unchanged |
| DocumentApproval.Recipients | backend/src/routes/documentApproval.ts:51-52 | the addresses notified are exactly those of the users the query selects, each once |
| DocumentApproval.ClientRecipients | backend/src/routes/documentApproval.ts:50-51 | a request for approval notifies exactly the active client users of the document's client that have an email, each address once |
| DocumentApproval.FirmRecipients | backend/src/routes/documentApproval.ts:113-119 | a client's approval notifies exactly the active users of the client's law firm, each address once |
| DocumentApproval.RequestApproval | backend/src/routes/documentApproval.ts:13-74 | 403 for a client principal, 404 for a missing document, each writing nothing and notifying nobody; otherwise the document is marked required and PENDING, nothing else changes, and exactly the active CLIENT_ADMIN and CLIENT_USER users of the case's client are notified |
| DocumentApproval.Approved | backend/src/routes/documentApproval.ts:98-110 | an approval writes status APPROVED and the time, the approver only for a firm principal, and no other column |
| DocumentApproval.Rejected | backend/src/routes/documentApproval.ts:171-177 | a rejection writes status REJECTED and the reason, and no other column |
| DocumentApproval.Approve | backend/src/routes/documentApproval.ts:77-143 | as written: 404 for a missing document and 403 "Access denied" for another client's document, writing nothing; a firm principal's approval is written and answered; a client principal's approval is written and then answered with 500 "Failed to approve document" |
| DocumentApproval.Reject | backend/src/routes/documentApproval.ts:146-210 | as written: 400 "Rejection reason is required" without a reason, 404, 403 as for approval, each writing nothing; a firm principal's rejection is written and answered; a client principal's rejection is written and then answered with 500 "Failed to reject document" |
| DocumentApproval.ApproveLoadingClient | backend/src/routes/documentApproval.ts:77-143 | as evidently intended: 404 and 403 as above; every principal in scope gets the approved document; a client principal's approval notifies exactly the active users of the firm holding its client, each once |
| DocumentApproval.PendingApproval | backend/src/routes/documentApproval.ts:213-251 | exactly the documents requested and still PENDING, newest first; a client principal sees only its own client's (included relations left out) |
| DocumentApproval.ReviewLeavesPending | backend/src/routes/documentApproval.ts:215-224 | a requested document is on the pending list of every principal in its scope, and an approval or rejection takes it off every list |
| DocumentGenerator.NamesNonEmpty | backend/src/services/documentGenerator.ts:37 | the joined names of a non-empty tenant list are never empty, so the "Tenant" fallback only applies to a case without tenants |
| DocumentGenerator.TenantLine | backend/src/services/documentGenerator.ts:37 | the tenants' "first last" names joined by ", ", in order, or "Tenant" when there are none |
| DocumentGenerator.AmountText | backend/src/services/documentGenerator.ts:43 | a missing or zero amount reads "0.00"; any other amount is rendered as dollars |
| DocumentGenerator.ZeroTextOnlyForNoAmount | backend/src/services/documentGenerator.ts:43 | "0.00" appears exactly when there is no amount owed |
| DocumentGenerator.Notice | backend/src/services/documentGenerator.ts:13-59 | the notice to quit carries the case number, property name and address ("N/A" when missing), the tenant line and the amount text |
| DocumentGenerator.EvictionComplaint | backend/src/services/documentGenerator.ts:64-115 | the complaint carries the case number, address and court ("N/A" when missing), the tenant line as defendants and the amount text |
| DocumentGenerator.GenerateFromTemplate | backend/src/services/documentGenerator.ts:120-132 | a document exactly for NOTICE_TO_QUIT (the notice) and COMPLAINT (the complaint); any other type throws "Unknown template type: <type>" |
| Documents.LastOf | backend/src/routes/documents.ts:35 | the position of the last occurrence of a character, none exactly when the text does not hold it |
| Documents.ExtName | backend/src/routes/documents.ts:35 | Node's `path.extname`: empty, or a suffix of the last path segment (trailing slashes dropped) that starts with its last "." and holds no other; empty when that segment has no dot |
| Documents.TrimSlashes | backend/src/routes/documents.ts:35 | the path without its trailing slashes: a prefix that does not end in "/", followed only by slashes |
| Documents.BaseName | backend/src/routes/documents.ts:35 | the last segment of the path without trailing slashes: no "/", and the whole name when it has no "/" |
| Documents.NoDotNoExtension | backend/src/routes/documents.ts:35 | a name without a dot has no extension |
| Documents.LastOfAt | backend/src/routes/documents.ts:35 | a position holding the character with none after it is the last occurrence |
| Documents.PlainNameExtension | backend/src/routes/documents.ts:35 | a name without "/" has the suffix from its last dot as extension, except for a leading dot and for ".." |
| Documents.DottedExtNames | backend/src/routes/documents.ts:35 | "..pdf" has extension ".pdf", "..." has ".", and ".." has none |
| Documents.PathExtension | backend/src/routes/documents.ts:35 | the extension is taken from the last path segment: "t/v.pdf" has ".pdf" |
| Documents.DirectoryDotIgnored | backend/src/routes/documents.ts:35 | a dot in a directory name does not make an extension: "a.b/f" has none |
| Documents.NoExtensionRefused | backend/src/routes/documents.ts:33-43 | a file whose name has no dot is refused whatever its type |
| Documents.AllowedType | backend/src/routes/documents.ts:34 | the unanchored pattern accepts exactly a text containing jpeg, jpg, png, pdf or doc; the docx alternative adds nothing |
| Documents.Accepts | backend/src/routes/documents.ts:33-43 | a file passes the upload filter only with a non-empty extension and a mimetype the pattern accepts |
| Documents.SubstringMatchAccepts | backend/src/routes/documents.ts:34-39 | the pattern is unanchored: any extension and any mimetype that merely contain one of the six words pass |
| Documents.ListCaseDocuments | backend/src/routes/documents.ts:49-100 | 404 "Case not found" exactly for a missing case or another client's case; otherwise exactly the case's documents, newest first (included relations left out) |
| Documents.UploadedRow | backend/src/routes/documents.ts:129-142 | an uploaded document is not generated, takes its case and type, the given name or the original file name, and records the uploader in the column of its kind only |
| Documents.Upload | backend/src/routes/documents.ts:103-163 | for a file multer's filter has let through: 400 "No file uploaded" without a file, 400 without case id or type, each writing nothing; 404 "Case not found" for a case out of reach, removing the stored file; otherwise exactly one new document and one DOCUMENT_UPLOADED audit entry |
| Documents.DownloadDocument | backend/src/routes/documents.ts:166-195 | 404 for a missing document, 403 "Access denied" for another client's, 404 when the file is gone; otherwise the stored path offered under the document's name |
| Documents.DeleteDocument | backend/src/routes/documents.ts:198-224 | 403 for a client principal, 404 for a missing document, each writing nothing; otherwise the row and its file are gone and nothing else changes |
| Documents.CaseDataOf | backend/src/routes/documents.ts:236-247 | the generator sees the case's number, amount and court and one entry per linked tenant |
| Documents.GeneratedName | backend/src/routes/documents.ts:265 | only the first "_" of the type becomes a space; a type without one is kept whole |
| Documents.GeneratedNameSplit | backend/src/routes/documents.ts:265 | later underscores survive: "NOTICE_TO_QUIT" names "NOTICE TO_QUIT - <number>" |
| Documents.GeneratedRow | backend/src/routes/documents.ts:261-274 | a generated document is a PDF of its case and type with the generated name, no template without a template id, uploaded by the firm principal |
| Documents.GeneratedPath | backend/src/routes/documents.ts:257-258 | a generated file lies in the upload directory, is named after its type and case number, and ends in ".pdf" |
| Documents.Generate | backend/src/routes/documents.ts:227-295 | 403 for a client principal, 400 without case id or type, 404 for a missing case, 500 for a type without a generator, each writing nothing; 201 exactly for a firm principal, an existing case, a type with a generator and a template id that is absent or names a template; a template id naming none is 500 with the PDF file already written; on 201 the PDF file, exactly one new document and one DOCUMENT_GENERATED audit entry |
| EFilingRoutes.ListCourts | backend/src/routes/efiling.ts:8-39 | 403 for anyone but a firm user; otherwise the one configured court, Essex County Superior Court, open for e-filing |
| EFilingRoutes.MockCourtCaseNumber | backend/src/routes/efiling.ts:78 | the mock court case number starts with "ESX-" and carries the clock |
| EFilingRoutes.MockNumbersDistinct | backend/src/routes/efiling.ts:78 | two filings get the same court case number exactly when they happen at the same instant |
| EFilingRoutes.Filed | backend/src/routes/efiling.ts:83-91 | the filed case has the mock number, status FILED, filed now and a hearing thirty days out, and no other column changes |
| EFilingRoutes.FilingEvent | backend/src/routes/efiling.ts:94-103 | a completed FILED event of the case, dated now, whose description names the court case number |
| EFilingRoutes.FileCase | backend/src/routes/efiling.ts:42-116 | 403 for anyone but a firm user, 404 "Case not found" for a missing case, each writing nothing; otherwise the case is filed, exactly one FILED event is added and the answer carries the number, hearing date and updated case |
| EFilingRoutes.FiledCaseIsOnFile | backend/src/routes/efiling.ts:83-91 | a case filed by the mock route counts as on file for the status page |
| EFilingRoutes.CaseFilingStatus | backend/src/routes/efiling.ts:119-157 | 403 for anyone but a firm user, 404 for a missing case; otherwise the stored number, status and dates, checked now |
| EFilingRoutes.StatusReadsBackFiling | backend/src/routes/efiling.ts:83-152 | the status read after a mock filing gives back the number, FILED and the hearing date the filing answered |
| EFilingRoutes.CourtFees | backend/src/routes/efiling.ts:160-177 | 403 for anyone but a firm user; otherwise the given court, in USD, with a filing fee of 75.00 and a total that is the sum of the two fees |
| EFilingService.Lookup | backend/src/services/efilingService.ts:313 | the entry listed under a court, the first of that name, and none exactly when no entry has that name |
| EFilingService.CourtConfigFor | backend/src/services/efilingService.ts:286-313 | a configuration exactly for the courts listed, and then the one listed |
| EFilingService.ConfiguredCourts | backend/src/services/efilingService.ts:286-307 | exactly the Essex, Hudson and Bergen County Superior Courts are configured, each with a provider of its own adapter and authentication required |
| EFilingService.AdapterFor | backend/src/services/efilingService.ts:55-64 | "tyler-odyssey" and "file-servexpress" select their adapters and every other provider the custom one |
| EFilingService.GetEFilingService | backend/src/services/efilingService.ts:312-324 | no service for an unconfigured court; otherwise the court's provider, every credential kept and the court's API URL unless the credentials give one |
| EFilingService.Authorization | backend/src/services/efilingService.ts:25 | the header always starts with "Bearer " and carries the API key when one is set; with no key it is exactly "Bearer " |
| EFilingService.Defendants | backend/src/services/efilingService.ts:115-119 | one defendant per linked tenant, in order, named "first last", an individual |
| EFilingService.Parties | backend/src/services/efilingService.ts:109-120 | the property as the organisation plaintiff first, then every tenant as an individual defendant |
| EFilingService.OnePlaintiff | backend/src/services/efilingService.ts:109-120 | the first party is the only plaintiff |
| EFilingService.PacketOf | backend/src/services/efilingService.ts:95-140 | the packet of a case carries its parties, type, jurisdiction, court, amount, reason, the filing date and the given documents |
| EFilingService.PrepareFilingPacket | backend/src/services/efilingService.ts:85-141 | "Case not found" for a missing case; otherwise exactly PacketOf the case with its COMPLAINT, COVER_SHEET and FILING_FEE_WAIVER documents in id order |
| EFilingService.PacketDocumentsFiltered | backend/src/services/efilingService.ts:96-127 | a packet carries no document of another type |
| EFilingService.PayloadFor | backend/src/services/efilingService.ts:146-204 | the Tyler Odyssey body renames every party and document field in order, File & ServeXpress posts them as they are, and a custom provider gets the packet itself |
| EFilingService.ReadReply | backend/src/services/efilingService.ts:168-211 | Tyler Odyssey's reply is read in PascalCase, File & ServeXpress's in snake_case, and a custom provider's camelCase field wins when truthy, else the fallback field |
| EFilingService.SubmitFailure | backend/src/services/efilingService.ts:73-79 | a failure answer always has a non-empty error, the error's message when it has one |
| EFilingService.SubmitSuccess | backend/src/services/efilingService.ts:66-72 | a success answer has no error, the provider's number, filing id and fees, and a hearing date exactly when the reply's is truthy |
| EFilingService.SubmitFiling | backend/src/services/efilingService.ts:34-80 | a missing case fails with "Case not found"; otherwise the payload of PacketOf the case, with its filing documents in id order, is posted to the adapter's endpoint, and a raised error becomes a failure answer, a reply a success answer read by the adapter |
| EFilingService.CheckFilingStatus | backend/src/services/efilingService.ts:217-239 | the provider's status, number and errors with a falsy hearing date dropped, or status ERROR with the error's message |
| EFilingService.FeesAsWritten | backend/src/services/efilingService.ts:254-258 | each fee falls back from camelCase to snake_case to 0, but the total adds only the camelCase fields |
| EFilingService.SnakeCaseFeesNotTotalled | backend/src/services/efilingService.ts:257 | a court answering in snake_case with fees of 50.00 and 5.00 is quoted a total of 0 |
| EFilingService.QuotedFees | backend/src/services/efilingService.ts:254-258 | the fees as intended: the same two fees, and a total that is their sum |
| EFilingService.FeesAgreeOnCamelCase | backend/src/services/efilingService.ts:254-258 | both readings agree when the court answers with non-zero camelCase fees |
| EFilingService.GetFilingFees | backend/src/services/efilingService.ts:244-267 | the court's quote read as written, or 75.00, 5.00 and 80.00 when the call fails |
| EFilingService.FormatDocumentsForCourt | backend/src/services/efilingService.ts:272-279 | every document kept, in order, as its path and PDF |
| EFilingStatus.ListFilingStatus | backend/src/routes/efilingStatus.ts:17-51 | 403 for anyone but a firm user; otherwise exactly the cases with a court case number and status FILED or HEARING_SCHEDULED, of the given court when one is asked for, newest filing first |
| EFilingStatus.ListedRowsAreFiled | backend/src/routes/efilingStatus.ts:21-24 | every listed row carries a court case number and one of the two filed statuses |
| EFilingStatus.MappedStatus | backend/src/routes/efilingStatus.ts:89-96 | a new status only when the court's differs from the case's: ACCEPTED and FILED map to FILED, anything else naming HEARING to HEARING_SCHEDULED, and nothing else is written |
| EFilingStatus.UpdateFor | backend/src/routes/efilingStatus.ts:85-96 | the update carries the court's hearing date, and a status only when the court's status differs from the case's, then FILED or HEARING_SCHEDULED |
| EFilingStatus.Apply | backend/src/routes/efilingStatus.ts:98-103 | the columns the update sets are replaced, every other column is kept, and an empty update changes nothing |
| EFilingStatus.RefreshSettles | backend/src/routes/efilingStatus.ts:84-103 | refreshing again against the same court answer leaves the case as the first refresh left it |
| EFilingStatus.UpdatedWithoutChange | backend/src/routes/efilingStatus.ts:89-110 | a FILED case told ACCEPTED is reported updated although its row does not change |
| EFilingStatus.RefreshStatus | backend/src/routes/efilingStatus.ts:54-116 | 403 for anyone but a firm user; 400 for a case without court case number or court, then without an API key, then for an unconfigured court, each writing nothing; otherwise the court's answer, with the case's hearing date and mapped status written and "updated" exactly when a column was set |
| EFilingStatus.WriteUpdate | backend/src/routes/efilingStatus.ts:98-103 | the case takes the update and no other row changes |
| CaseEvents.ListCaseEvents | backend/src/routes/events.ts:11-39 | 404 "Case not found" exactly for a missing case or another client's case; otherwise exactly that case's events in event-date order |
| CaseEvents.WindowDays | backend/src/routes/events.ts:44 | the window is the asked number of days, 30 when none is asked |
| CaseEvents.ListUpcoming | backend/src/routes/events.ts:42-90 | exactly the open events due between now and the end of the window, a client principal's limited to its own cases, soonest due first (included relations left out) |
| CaseEvents.UpcomingInWindow | backend/src/routes/events.ts:48-63 | every listed event is open and due inside the window, and for a client principal belongs to one of its cases |
| CaseEvents.EventFrom | backend/src/routes/events.ts:108-118 | a created event is open, keeps the case, type, title and description, and has each date exactly when the body's is truthy |
| CaseEvents.CreateEvent | backend/src/routes/events.ts:93-125 | 403 for anyone but a firm user, 400 without case id, type or title, each writing nothing; 500 "Failed to create event" with nothing written for a case id naming no case; 201 with exactly one new event exactly when the case exists |
| CaseEvents.CreatedTaskIsUpcoming | backend/src/routes/events.ts:48-118 | a new open task due inside the window adds exactly one to a firm user's upcoming list |
| CaseEvents.PatchEvent | backend/src/routes/events.ts:131-139 | the update goes through exactly when every column named is one Prisma accepts with a value of its type; it keeps the id, and an empty body changes nothing (`id`, `createdAt` and `updatedAt` are refused) |
| CaseEvents.PatchWritesNamedColumns | backend/src/routes/events.ts:131-139 | a column the body names takes the body's value, and one it does not name is kept |
| CaseEvents.UpdateEvent | backend/src/routes/events.ts:128-146 | 403 for anyone but a firm user; 500 for an unknown id, a rejected body or a case id naming no case, each writing nothing; otherwise exactly that event replaced by the patched one (`id`, `createdAt` and `updatedAt` are refused) |
| CaseEvents.Completed | backend/src/routes/events.ts:153-159 | the event is done and dated now, and nothing else about it changes |
| CaseEvents.CompleteEvent | backend/src/routes/events.ts:149-166 | 403 for anyone but a firm user, 500 for an unknown id, each writing nothing; otherwise exactly that event completed |
| CaseEvents.CompletedLeavesUpcoming | backend/src/routes/events.ts:48-159 | completing an upcoming task takes exactly one event off every upcoming list |
| CaseEvents.DeleteEvent | backend/src/routes/events.ts:169-182 | 403 for anyone but a firm user, 500 for an unknown id, each writing nothing; otherwise exactly that event removed |
| IntegrationRoutes.ListIntegrations | backend/src/routes/integrations.ts:12-39 | 403 for anyone but a firm user, 404 "Client not found" exactly for a client outside the firm; otherwise exactly the client's integrations, newest first |
| IntegrationRoutes.PortOrNull | backend/src/routes/integrations.ts:82 | a port is stored exactly when it is non-zero, and then as given |
| IntegrationRoutes.Inserted | backend/src/routes/integrations.ts:73-87 | the new row is PENDING and never synced, keeps the client and type, and stores each credential exactly when it is given non-empty |
| IntegrationRoutes.CreateIntegration | backend/src/routes/integrations.ts:42-94 | 403 for anyone but a firm user, 400 without client id or type, 404 for a client outside the firm, each writing nothing; 201 with exactly one new PENDING integration exactly when the type is one the schema knows |
| IntegrationRoutes.Owned | backend/src/routes/integrations.ts:103-116 | 404 "Integration not found" for an unknown id, 403 "Access denied" for another firm's integration, and success exactly for one of the firm's clients |
| IntegrationRoutes.PatchIntegration | backend/src/routes/integrations.ts:118-121 | the body is written exactly when every column it names is accepted with a value of its type; the id and creation time stay, an unnamed client stays, and an empty body changes nothing (`id`, `createdAt` and `updatedAt` are refused) |
| IntegrationRoutes.UpdateMayChangeOwner | backend/src/routes/integrations.ts:118-121 | a body naming another client id moves the integration to that client, unchecked |
| IntegrationRoutes.UpdateIntegration | backend/src/routes/integrations.ts:97-128 | the ownership answers first, each writing nothing; then exactly that integration replaced by the patched row, or 500 "Failed to update integration" when Prisma rejects the body or the client (`id`, `createdAt` and `updatedAt` are refused) |
| IntegrationRoutes.SftpConfigOf | backend/src/routes/integrations.ts:163-169 | each SFTP setting as stored, port 22 and path "/" when unset |
| IntegrationRoutes.TestConnection | backend/src/routes/integrations.ts:150-180 | RENTMANAGER_API probes the RentManager API and YARDI_SFTP the SFTP server, each with its own messages; every other type fails as not implemented |
| IntegrationRoutes.YardiApiNeverPasses | backend/src/routes/integrations.ts:172-174 | a YARDI_API integration never passes the test whatever the probes answer |
| IntegrationRoutes.TestIntegration | backend/src/routes/integrations.ts:131-189 | 403 for anyone but a firm user, the ownership answers, and otherwise the connection test of that integration |
| IntegrationRoutes.StartSync | backend/src/routes/integrations.ts:192-227 | 403 for anyone but a firm user, the ownership answers, and otherwise "Sync initiated" for that integration at once |
| Properties.ListProperties | backend/src/routes/properties.ts:11-68 | exactly the properties in the caller's scope, of the asked client for a firm user, matching the search in name, address or city ignoring case, by name (included relations left out) |
| Properties.ClientSeesOwnProperties | backend/src/routes/properties.ts:18-19 | a client principal's list holds only its own client's properties, whatever client the query names |
| Properties.SearchNarrows | backend/src/routes/properties.ts:26-32 | a search only narrows the list: a property found by it is also listed without it |
| Properties.GetProperty | backend/src/routes/properties.ts:71-118 | 404 "Property not found" exactly for a missing property or another client's; otherwise that property with exactly its cases, newest first (included relations left out) |
| Properties.ListPropertyTenants | backend/src/routes/properties.ts:121-154 | 404 exactly for a property out of reach; otherwise exactly its active tenants, by last name (included relations left out) |
| Properties.TenantsListedAreActive | backend/src/routes/properties.ts:136-147 | every listed tenant is active and lives in the property, and each such tenant is listed once |
| RentManager.DetermineJurisdiction | backend/src/services/integrations/rentManagerService.ts:164-167 | "County," when the property has neither county nor state, and "<county> County, <state>" for unpadded parts |
| RentManager.MapProperty | backend/src/services/integrations/rentManagerService.ts:125-138 | the RentManager id as external id, the integration's client, never an empty name (name, then propertyName, then "Unnamed Property"), missing places as empty text and the county-and-state jurisdiction |
| RentManager.MapTenant | backend/src/services/integrations/rentManagerService.ts:143-159 | the RentManager id and the client, active exactly for status "Active", an email exactly when one is given, phone then mobile phone, and lease dates exactly when given |
| RentManager.MapUnit | backend/src/services/syncService.ts:107-117 | the unit's id under its property, never an empty number (number, then name, then "Unknown") |
| Yardi.CsvFiles | backend/src/services/integrations/yardiService.ts:99-118 | exactly the listed names ending in ".csv", in listing order, each as many times as the listing holds it |
| Yardi.DetermineJurisdiction | backend/src/services/integrations/yardiService.ts:162-166 | the same rule over the County and State columns |
| Yardi.MapProperty | backend/src/services/integrations/yardiService.ts:123-136 | PropertyID then ID as external id, never an empty name, each column falling back to its alternative spelling, and the county-and-state jurisdiction |
| Yardi.MapTenant | backend/src/services/integrations/yardiService.ts:141-157 | TenantID then ID as external id, active exactly for status "Active" or "Current", names falling back to their spaced spellings, and an email exactly when one is given |
| Reports.GetDashboard | backend/src/routes/reports.ts:11-56 | the total counts the cases in the caller's scope (of the asked client for a firm user); of them, open counts the cases whose status is not CLOSED, closed those whose status is CLOSED, filed those FILED, HEARING_SCHEDULED or JUDGMENT, and upcoming hearings those with a hearing in the coming seven days; open and closed add up to the total, filed never exceeds open and upcoming hearings never exceed the total |
| Reports.OpenClosedSplit | backend/src/routes/reports.ts:30-33 | every case on the dashboard is counted as exactly one of open and closed |
| Reports.FiledAreOpen | backend/src/routes/reports.ts:31-32 | the filed statuses are all open ones, so the filed count never passes the open count |
| Reports.VolumeOf | backend/src/routes/reports.ts:90-96 | one client's line: its name and id, its cases created in the window, split into open and closed |
| Reports.CaseVolume | backend/src/routes/reports.ts:59-103 | 403 for anyone but a firm user; otherwise exactly one line per client of the firm, of the asked client when one is given |
| Reports.DaysBetween | backend/src/routes/reports.ts:132-135 | the whole days between two instants, rounded down |
| Reports.CloseDays | backend/src/routes/reports.ts:128-143 | one days-to-close figure per case with both a filing and a closing date, and no other |
| Reports.MinOf | backend/src/routes/reports.ts:157 | the smallest of the figures, one of them |
| Reports.MaxOf | backend/src/routes/reports.ts:158 | the largest of the figures, one of them |
| Reports.JudgmentDays | backend/src/routes/reports.ts:131-146 | the days to judgment of the dated cases that have a judgment date, never more figures than the dated cases |
| Reports.JudgmentDaysFromJudgments | backend/src/routes/reports.ts:131-146 | conversely, every figure is the days to judgment of some dated case with a judgment date |
| Reports.MeanOf | backend/src/routes/reports.ts:149-151 | a mean that is never NaN and lies between the smallest and the largest figure |
| Reports.JudgmentMeanAsWritten | backend/src/routes/reports.ts:145-147 | 0 without dated cases; otherwise the sum over the judgment figures divided by their count, even when that count is 0 |
| Reports.JudgmentMeanNaN | backend/src/routes/reports.ts:145-147 | a single dated case without a judgment date makes the average days to judgment NaN |
| Reports.JudgmentMean | backend/src/routes/reports.ts:145-147 | the average as intended is never NaN and agrees with the written one whenever some case has a judgment |
| Reports.Metrics | backend/src/routes/reports.ts:128-159 | as written: the number of closed cases; an average days to judgment that is NaN exactly when some case is dated and none has a judgment, and the intended mean whenever some case has one; an average days to close that is never NaN; a minimum and maximum days to close that are figures of the cases and bound every one of them; all 0 without dated cases |
| Reports.MetricsIntended | backend/src/routes/reports.ts:128-159 | as intended: averages that are never NaN, the intended judgment mean, and every other figure equal to the written one |
| Reports.TimelineMetrics | backend/src/routes/reports.ts:106-164 | 403 for anyone but a firm user; otherwise the metrics as written of exactly the firm's cases closed within the window |
| Selection.Toggle | frontend/src/pages/BulkOperations.tsx:122-128 | a ticked id is removed and nothing else is added; an unticked id is appended at the end |
| Selection.ToggleFlips | frontend/src/pages/CaseIntake.tsx:96-102 | after a toggle an id is ticked exactly when it was ticked before or is the toggled one, but not both |
| Selection.ToggleTwiceRestores | frontend/src/pages/BulkOperations.tsx:122-128 | ticking an unticked box twice gives back the original list |
| Selection.ToggleKeepsDistinct | frontend/src/pages/BulkOperations.tsx:122-128 | a list without duplicates stays without duplicates |
| Settings.AdminGate | backend/src/routes/settings.ts:8-10 | success exactly for a firm user with the LAW_FIRM_ADMIN role, with the middleware's two 403 messages otherwise |
| Settings.DefaultSettings | backend/src/routes/settings.ts:35-40 | the defaults a read creates: schedule "0 2 * * *", seven years of retention, no email and no logo |
| Settings.GetSettings | backend/src/routes/settings.ts:13-61 | the admin gate's 403s writing nothing; the firm's settings row, untouched when it has one, created with the defaults when it has none, or 500 when the firm is gone; the firm's profile alongside |
| Settings.PatchProfile | backend/src/routes/settings.ts:80-91 | each truthy profile field (name, address, phone, email, logo) is written with the text sent, each missing or falsy one leaves its column, and a body without any changes nothing |
| Settings.PatchSettings | backend/src/routes/settings.ts:96-101 | every settings field the body has is written: a text as that text and null as no value for the email and logo; every field it lacks is kept |
| Settings.PatchSettingsIdempotent | backend/src/routes/settings.ts:96-101 | sending the same update twice leaves the row as the first left it |
| Settings.CreatedSettings | backend/src/routes/settings.ts:102-108 | a created row takes each truthy field, the email and logo included, and otherwise the default schedule, seven years, and no email or logo |
| Settings.FalsyFieldsDependOnRow | backend/src/routes/settings.ts:99-106 | a retention of 0 and an empty schedule are kept by an update but replaced by 7 and "0 2 * * *" when the row is created |
| Settings.UpdateSettings | backend/src/routes/settings.ts:64-128 | the admin gate's 403s writing nothing; 500 for a missing firm or a rejected profile edit, writing nothing; success exactly when the firm exists and both the profile edit and the upsert are accepted, with the profile edit and exactly the firm's one settings row, updated or created; a refused upsert is 500 with the profile edit kept |
| Settings.SettingsRowUnique | backend/src/routes/settings.ts:94-95 | a firm has at most one settings row |
| Settings.FindSettings | backend/src/routes/settings.ts:17-31 | the firm's settings row, none exactly when it has none |
| Settings.WriteProfile | backend/src/routes/settings.ts:80-91 | only the firm's profile changes |
| Settings.Upserted | backend/src/routes/settings.ts:94-108 | the found row updated, or a new row created, for that firm, and nothing when Prisma rejects the data |
| Settings.UpsertSettings | backend/src/routes/settings.ts:94-121 | the settings table alone changes, by exactly the upserted row |
| Settings.WriteSettingsRow | backend/src/routes/settings.ts:94-121 | the firm's row is rewritten in place or its first row added, and nothing else changes |
| SyncService.PutProperty | backend/src/services/syncService.ts:88-97 | the upsert goes through exactly when the property has an external id and its client exists, and then changes the property table alone by that upsert; otherwise nothing is written |
| SyncService.PutUnit | backend/src/services/syncService.ts:102-119 | the same for a unit, whose property must exist |
| SyncService.PutTenant | backend/src/services/syncService.ts:132-141 | the same for a tenant, whose client, property and unit must exist |
| SyncService.PutProperties | backend/src/services/syncService.ts:85-97 | a loop of property upserts keeps the database consistent and never touches a client or an integration |
| SyncService.PutUnits | backend/src/services/syncService.ts:101-120 | the same for a loop of unit upserts |
| SyncService.PutTenants | backend/src/services/syncService.ts:124-142 | the same for a loop of tenant upserts |
| SyncService.PutPropertiesShape | backend/src/services/syncService.ts:85-97 | a property loop completes exactly when every row has an external id and an existing client, and then it has changed the property table alone, by the upserts in order |
| SyncService.PutUnitsShape | backend/src/services/syncService.ts:101-120 | a unit loop completes exactly when every row is writable, and then only the unit table changed, by the upserts in order |
| SyncService.PutTenantsShape | backend/src/services/syncService.ts:124-142 | a tenant loop completes exactly when every row is writable, and then only the tenant table changed, by the upserts in order |
| SyncService.RmChildren | backend/src/services/syncService.ts:100-142 | a failed fetch or upsert of units or tenants stops the pass; the database stays consistent and no client or integration changes |
| SyncService.RmPropertyStep | backend/src/services/syncService.ts:85-143 | one pass of the property loop as written, with units under property id '' and tenants under no property, keeping the database consistent |
| SyncService.RmProperties | backend/src/services/syncService.ts:85-143 | the loop stops at the first failed pass and never touches a client or an integration |
| SyncService.RmPropertiesCons | backend/src/services/syncService.ts:85-143 | the loop from any position is that position's pass, then, unless it failed, the rest of the loop |
| SyncService.RmUnitsOrphaned | backend/src/services/syncService.ts:100-119 | a property with units fails at its first unit, because no property has the id '', and leaves only the property upsert written |
| SyncService.RmSyncFailsOnUnits | backend/src/services/syncService.ts:67-143 | a connected RentManager sync whose first property has units always fails |
| SyncService.RmPropertyStepLinked | backend/src/services/syncService.ts:85-143 | the pass as intended, with units and tenants pointing at the property just written, keeps the database consistent |
| SyncService.RmPropertyStepLinkedStores | backend/src/services/syncService.ts:85-143 | as intended, the pass completes and stores every unit and tenant the API reports under the property it wrote |
| SyncService.RmSync | backend/src/services/syncService.ts:67-82 | a missing API key and a failed connection each fail with their message before anything is written; the database stays consistent and clients and integrations are untouched |
| SyncService.YardiTenants | backend/src/services/syncService.ts:194-198 | Yardi tenants are written for the integration's client without a property or a unit |
| SyncService.YardiFile | backend/src/services/syncService.ts:176-211 | a file naming neither properties nor tenants is skipped; otherwise its rows are upserted, keeping the database consistent |
| SyncService.YardiFiles | backend/src/services/syncService.ts:176-211 | the loop stops at the first failed file and never touches a client or an integration |
| SyncService.YardiSync | backend/src/services/syncService.ts:149-212 | missing SFTP credentials fail with their message before anything is written; the database stays consistent and clients and integrations are untouched |
| SyncService.FileTenants | backend/src/services/syncService.ts:192-209 | no tenant of a tenants file is linked to a property or a unit |
| SyncService.YardiFilesShape | backend/src/services/syncService.ts:176-211 | the file loop completes exactly when every file it reads downloads and all their rows are writable, and then it equals the property upserts and the tenant upserts of all files, each in file order |
| SyncService.YardiPropertiesFileShape | backend/src/services/syncService.ts:177-191 | the same when the first file is a properties file |
| SyncService.YardiTenantsFileShape | backend/src/services/syncService.ts:192-209 | the same when the first file is a tenants file |
| SyncService.YardiSyncIdempotent | backend/src/services/syncService.ts:149-212 | running a successful Yardi sync again against the same files leaves the database as the first run left it |
| SyncService.AdapterSync | backend/src/services/syncService.ts:37-41 | RENTMANAGER_API runs the RentManager sync, YARDI_API and YARDI_SFTP the Yardi sync, and any other type syncs nothing; clients and integrations are untouched |
| SyncService.Finished | backend/src/services/syncService.ts:43-59 | a sync that completes leaves the row CONNECTED and SUCCESS with no error, a failed one ERROR and FAILED with the error's message |
| SyncService.ClientSync | backend/src/services/syncService.ts:16-62 | an unknown integration fails with "Integration not found" before any write, and the database stays consistent |
| SyncService.ClientSyncStamps | backend/src/services/syncService.ts:28-59 | a sync of an existing integration ends with its row stamped now and marked SUCCESS exactly when it completed |
| SyncService.ClientSyncKeepsOthers | backend/src/services/syncService.ts:16-62 | no client, no integration id and no other integration row changes in a sync |
| SyncService.UpsertProperties | backend/src/services/syncService.ts:85-97 | the loop of property upserts, proved equal to the property loop specification |
| SyncService.UpsertUnits | backend/src/services/syncService.ts:101-120 | the loop of unit upserts, proved equal to its specification |
| SyncService.UpsertTenants | backend/src/services/syncService.ts:124-142 | the loop of tenant upserts, proved equal to its specification |
| SyncService.SyncRmProperty | backend/src/services/syncService.ts:85-143 | one pass of the RentManager property loop, equal to its specification |
| SyncService.SyncRentManager | backend/src/services/syncService.ts:67-144 | the RentManager sync, equal to its specification |
| SyncService.SyncRmProperties | backend/src/services/syncService.ts:85-143 | the RentManager property loop, stopping at the first failure, equal to its specification |
| SyncService.SyncYardiFile | backend/src/services/syncService.ts:176-211 | one pass of the Yardi file loop, equal to its specification |
| SyncService.SyncYardi | backend/src/services/syncService.ts:149-212 | the Yardi sync, equal to its specification |
| SyncService.SyncClientIntegration | backend/src/services/syncService.ts:16-62 | the sync of one integration, equal to its specification |
| SyncService.SyncAndLog | backend/src/services/syncService.ts:224-229 | a thrown error is dropped: the integration ends stamped now and no other integration row changes |
| SyncService.SyncProgressDone | backend/src/services/syncService.ts:217-231 | at the end of the loop every CONNECTED integration is synced and every other is as it was |
| SyncService.SyncAll | backend/src/services/syncService.ts:217-231 | every integration that was CONNECTED is synced and stamped now, whatever the others' outcomes, and every other integration row is left as it was |
| Upserts.Find | backend/src/services/syncService.ts:89-94 | the row carrying a natural key, and none exactly when no row carries it |
| Upserts.Upsert | backend/src/services/syncService.ts:88-97 | an upsert keeps the natural key unique, overwrites the row carrying the key or adds exactly one row, and leaves every other row as it was |
| Upserts.LastFor | backend/src/services/syncService.ts:85-97 | the last row of a loop with a given natural key |
| Upserts.UpsertAllKeepsKeys | backend/src/services/syncService.ts:85-97 | a loop of upserts never removes a row or changes a natural key |
| Upserts.UpsertAllCovers | backend/src/services/syncService.ts:85-97 | after the loop every natural key it upserted is carried by a row |
| Upserts.UpsertAllUntouched | backend/src/services/syncService.ts:85-97 | a row whose natural key the loop never mentions comes through unchanged |
| Upserts.UpsertAllLastWins | backend/src/services/syncService.ts:85-97 | a row whose natural key the loop mentions holds the last row of the loop with that key |
| Upserts.UpsertAllNoGrowth | backend/src/services/syncService.ts:85-97 | when every key is already present the loop adds no row |
| Upserts.UpsertAllIdempotent | backend/src/services/syncService.ts:181-208 | running the same loop twice leaves the table as the first run left it |
| Upserts.UpsertAllAppend | backend/src/services/syncService.ts:176-211 | two loops in a row are one loop over both sequences |
| Templates.ListTemplates | backend/src/routes/templates.ts:39-62 | 403 for anyone but a firm user; otherwise exactly the templates matching the given jurisdiction, type and active flag ('true' or anything else), by jurisdiction, type and newest version |
| Templates.GetTemplate | backend/src/routes/templates.ts:65-82 | 403 for anyone but a firm user, 404 "Template not found" for an unknown id, and otherwise that template |
| Templates.NewestVersion | backend/src/routes/templates.ts:100-110 | the version findFirst returns: one the slot holds, and no lower than any other of the slot |
| Templates.NextVersionAsWritten | backend/src/routes/templates.ts:100-112 | version 1 when the slot has no active template, otherwise one past the highest active version, so above every active one |
| Templates.NextVersion | backend/src/routes/templates.ts:100-112 | as intended: 1 for an empty slot, otherwise one past the highest version the slot has ever held, active or not |
| Templates.NextVersionKeepsDistinct | backend/src/routes/templates.ts:100-128 | creating with the intended version keeps versions distinct within every slot |
| Templates.AsWrittenReusesVersion | backend/src/routes/templates.ts:100-116 | after its only template is deactivated, a slot's next upload gets version 1 again and the same file path as the old one |
| Templates.ImagesRefused | backend/src/routes/templates.ts:16-26 | a PNG image is refused whatever its name, since its mimetype names none of pdf, doc and docx |
| Templates.TemplateType | backend/src/routes/templates.ts:17 | the unanchored pattern accepts exactly a text containing pdf or doc; the docx alternative adds nothing |
| Templates.TemplateAccepts | backend/src/routes/templates.ts:16-26 | a file passes the template filter only with a non-empty extension and a mimetype the pattern accepts |
| Templates.NewTemplate | backend/src/routes/templates.ts:118-128 | an uploaded template is active, at the computed version and moved path, in its name, type and jurisdiction slot, with merge fields exactly when given |
| Templates.TemplatePath | backend/src/routes/templates.ts:115 | the moved file lies in the templates directory, is named after the name, jurisdiction and version, and keeps the upload's extension |
| Templates.CreateTemplate | backend/src/routes/templates.ts:85-135 | for a file multer's filter has let through: the two 403s and 400 "Template file is required" write nothing; without name, type or jurisdiction 400 removing the upload; merge fields JSON.parse rejects are 500 with the file already moved and no row; otherwise exactly one new template at the written version and the file moved to its versioned path |
| Templates.Edited | backend/src/routes/templates.ts:143-146 | the name when truthy, the active flag when sent and the merge fields when truthy; type, jurisdiction, version and path never change |
| Templates.EmptyEditIsIdentity | backend/src/routes/templates.ts:143-146 | an update sending nothing leaves the template as it is |
| Templates.UpdateTemplate | backend/src/routes/templates.ts:138-158 | the two 403s, 500 for merge fields JSON.parse rejects and 500 for an unknown id, write nothing; success exactly otherwise, with exactly that template edited |
| Templates.DeactivateTemplate | backend/src/routes/templates.ts:161-184 | the two 403s, and 404 for an unknown id, write nothing; otherwise the row stays, marked inactive, and nothing else changes |
| Templates.DeactivationHidesVersion | backend/src/routes/templates.ts:100-177 | deactivation takes a template out of what an upload counts while it keeps its version and place in the slot |
| Templates.DownloadTemplate | backend/src/routes/templates.ts:187-208 | 403 for anyone but a firm user, 404 for an unknown id, 404 "Template file not found" when the file is gone; otherwise the file offered as "<name>-v<version><ext>" |
| Users.ListFirmUsers | backend/src/routes/users.ts:12-38 | 403 for anyone but a firm user; otherwise exactly the staff of the caller's firm, by last name, without password hashes (`createdAt` left out) |
| Users.ListClientUsers | backend/src/routes/users.ts:41-76 | 403 for anyone but a firm user, 400 "Client ID is required" without a client id; otherwise exactly the users of that client when it is one of the firm's, by last name (`createdAt` left out) |
| Users.OtherFirmsClientListsNobody | backend/src/routes/users.ts:49-55 | asking for another firm's client lists nobody |
| Users.NewFirmUser | backend/src/routes/users.ts:96-106 | a new firm user is active, never logged in, in the caller's firm, with the hash of the given password |
| Users.CreateFirmUser | backend/src/routes/users.ts:79-122 | 403 without the LAW_FIRM_ADMIN role, 400 "All fields are required", 400 for a taken email, each writing nothing; 201 with exactly one new firm user otherwise |
| Users.ClientRole | backend/src/routes/users.ts:162 | the role asked for, CLIENT_USER by default |
| Users.NewClientUser | backend/src/routes/users.ts:154-164 | a new client user is active, never logged in, of the given client, with the hash of the given password and the client role |
| Users.CreateClientUser | backend/src/routes/users.ts:125-180 | 403 for anyone but a firm user, 400 for a missing field, 404 exactly for a client outside the firm, 400 "User with this email already exists" exactly when the email is taken, each writing nothing; 201 with exactly one new client user otherwise |
| Users.Stripped | backend/src/routes/users.ts:188-190 | the update body without password and passwordHash, every other field kept |
| Users.PatchFirmUser | backend/src/routes/users.ts:202-213 | the update goes through exactly when every column named is accepted; it keeps the id, keeps the hash unless the body names it, and an empty body changes nothing (`id`, `createdAt` and `updatedAt` are refused) |
| Users.PatchClientUser | backend/src/routes/users.ts:228-239 | the same for a client user (`id`, `createdAt` and `updatedAt` are refused) |
| Users.StrippingGuardsPasswords | backend/src/routes/users.ts:188-190 | with the password fields stripped no update changes a password hash, while an unstripped body would |
| Users.AnyColleagueMayPromote | backend/src/routes/users.ts:183-213 | any firm user may make a colleague of the firm, or themselves, LAW_FIRM_ADMIN |
| Users.UpdateUser | backend/src/routes/users.ts:183-247 | 403 for anyone but a firm user; a firm user of another firm, or a client user of another firm's client, is 403 "Access denied"; an unknown id is 404 "User not found"; otherwise exactly that user rewritten with the stripped body, or 500 when the database refuses it (`id`, `createdAt` and `updatedAt` are refused) |
| Users.UpdateFirmUser | backend/src/routes/users.ts:198-213 | the firm-user half: 403 for another firm, then the rewrite or 500 (`id`, `createdAt` and `updatedAt` are refused) |
| Users.UpdateClientUser | backend/src/routes/users.ts:214-239 | the client-user half: 403 for another firm's client, then the rewrite or 500 (`id`, `createdAt` and `updatedAt` are refused) |

## Left out

- Prisma's query engine and its transactions: writes are plain map updates. The case, event and audit writes of one handler are not atomic, and there is no crash recovery.
- Concurrency:
  - two requests or two syncs running at once;
  - case-number races;
  - the fire-and-forget sync started by the integrations route. That route answers before its sync ends, and the sync is modelled on its own, by `SyncService.SyncClientIntegration`.
- Cron: the timers of scheduledReports.ts and efilingPolling.ts. Those files are not part of this model.
- Mail: nodemailer, and notificationService.ts, are not part of this model. A handler's result names the addresses it would send to.
- Network calls are inputs, as the answer or the error they produced:
  - the RentManager and Yardi HTTP calls, and the SFTP session;
  - the e-filing providers' HTTP calls;
  - the adapters' connection tests.
- `RentManagerService.fetchTenantBalance` and `updateTenantNote` are not modelled. They are network calls that the sync never makes.
- The Yardi API adapter is not modelled: its fetch methods only throw. As `SyncService.AdapterSync` states, a YARDI_API integration is synced through the SFTP path, like YARDI_SFTP.
- bcrypt and JSON Web Tokens are functions passed in: `compare`, `hash`, `sign` and `verify`. Their cryptographic properties are not modelled.
- CSV parsing: a CSV file is its parsed rows, which are records keyed by column header.
- Files:
  - multer's storage and `fs` are the store's set of paths;
  - file bytes, file sizes and multer's size limit are not modelled;
  - PDF rendering with pdf-lib is not modelled, and a generated letter is the text it would carry.
- Numbers:
  - floating point is not modelled, and money is integer cents;
  - `parseFloat` and `parseInt` of request fields are not modelled, and numeric fields arrive already parsed;
  - a synced tenant's `currentBalance` is kept as the text RentManager or Yardi sent (or "0"), where the source stores `parseFloat` of it (rentManagerService.ts:153, yardiService.ts:151);
  - the fee literals 75.00, 5.00 and 80.00 of the e-filing routes and service are 7500, 500 and 8000 cents, and the fees a court's reply quotes are read as cents.
- Averages: the report averages are exact rationals, with NaN kept as its own value (`Reports.Average`). `Math.round` of an average is not modelled.
- Dates: `new Date()`, date parsing, `toLocaleDateString` and date-fns formatting are not modelled.
  - An instant is an integer number of milliseconds.
  - A calendar label for a day other than today or tomorrow is the instant itself.
  - The local day is decided by a fixed time-zone offset, so daylight-saving changes are not modelled.
- Strings:
  - strings compare by code point, so database collation is not modelled;
  - case-insensitive search lowercases ASCII letters only.
- Relations that Prisma `include`s come back in map order where the route gives no `orderBy`: their order is not modelled.
- Nested writes are replaced by the separate row writes that make them up.
  - This applies to a case's tenant links, and to a client user's creation under a client.
- Error messages: any error other than those the handlers name (a dropped database connection, say) is not modelled. A foreign-key violation is the one database error modelled, and it gives the route's 500 answer.
- Absent values: an object key whose value is `undefined` counts as absent. This matters to the credential spread of `getEFilingService`, where an undefined credential field does not override the court's configured field.
- Bulk status update: Prisma's `updateMany` runs first, and an id matching no case then fails the event's foreign key. The model gives 500 and keeps the statuses and the earlier events written. It does not skip the unknown id.
- Rejecting a document: `DocumentApproval.Reject` reproduces the client-principal defect, like approval does. No separate corrected reject is written. It would differ from `DocumentApproval.ApproveLoadingClient` only in the columns `DocumentApproval.Rejected` writes.
- Front-end pages other than the intake wizard, bulk operations, calendar and navigation are not modelled. They only present what the API returns, and the same holds for React rendering and effects.
- Cases.UpdateCase: the case columns a body may name are those of the model's `Case`. A key naming `id`, `createdAt`, `updatedAt` or a relation (a nested write) is treated as one Prisma refuses, so rewriting the primary key or the timestamps is not modelled. The Prisma schema is not part of this model.
- Cases.UpdateCase: the service panel of the case page (frontend/src/pages/CaseDetail.tsx:371-374) sends `serviceMethod` beside `serviceDate`. The model's case has no such column, so that save is a key Prisma refuses and answers 500; whether the database has the column is not known to this model.
- GetCourtConfig (`CourtConfigRoutes.GetCourtConfig`): `COURT_CONFIGS[courtName]` also finds the names an object inherits from `Object.prototype` (`constructor`, `toString`, `__proto__` and the like). For them the route answers 200 with `{name}` alone; the model answers 404, as for any unconfigured name.
- CourtConfigFor (`EFilingService.CourtConfigFor`): finds only the three courts listed; the inherited `Object.prototype` names that `COURT_CONFIGS[court]` also finds are not modelled.
- GetEFilingService (`EFilingService.GetEFilingService`): for an inherited `Object.prototype` name the source builds a service with an undefined provider, so the custom adapter, and an undefined API URL; the model gives no service for those names.
- PatchClient (`ClientRoutes.PatchClient`): A key naming `id`, `createdAt` or `updatedAt` is treated as one Prisma refuses: the model answers the route's 500 and writes nothing, where the source passes the body to Prisma, which writes the new primary key or timestamp. The model keys each row by its id and lets no body set the id or the timestamps Prisma manages, so rewriting either is not modelled.
- UpdateClient (`ClientRoutes.UpdateClient`): inherits the refusal of `id`, `createdAt` and `updatedAt` from `ClientRoutes.PatchClient`: a body naming one of them answers 500 and writes nothing, where the source writes it.
- PatchEvent (`CaseEvents.PatchEvent`): A key naming `id`, `createdAt` or `updatedAt` is treated as one Prisma refuses: the model answers the route's 500 and writes nothing, where the source passes the body to Prisma, which writes the new primary key or timestamp. The model keys each row by its id and lets no body set the id or the timestamps Prisma manages, so rewriting either is not modelled.
- UpdateEvent (`CaseEvents.UpdateEvent`): inherits the refusal of `id`, `createdAt` and `updatedAt` from `CaseEvents.PatchEvent`: a body naming one of them answers 500 and writes nothing, where the source writes it.
- PatchIntegration (`IntegrationRoutes.PatchIntegration`): A key naming `id`, `createdAt` or `updatedAt` is treated as one Prisma refuses: the model answers the route's 500 and writes nothing, where the source passes the body to Prisma, which writes the new primary key or timestamp. The model keys each row by its id and lets no body set the id or the timestamps Prisma manages, so rewriting either is not modelled.
- UpdateIntegration (`IntegrationRoutes.UpdateIntegration`): inherits the refusal of `id`, `createdAt` and `updatedAt` from `IntegrationRoutes.PatchIntegration`: a body naming one of them answers 500 and writes nothing, where the source writes it.
- PatchFirmUser (`Users.PatchFirmUser`): A key naming `id`, `createdAt` or `updatedAt` is treated as one Prisma refuses: the model answers the route's 500 and writes nothing, where the source passes the body to Prisma, which writes the new primary key or timestamp. The model keys each row by its id and lets no body set the id or the timestamps Prisma manages, so rewriting either is not modelled.
- PatchClientUser (`Users.PatchClientUser`): A key naming `id`, `createdAt` or `updatedAt` is treated as one Prisma refuses: the model answers the route's 500 and writes nothing, where the source passes the body to Prisma, which writes the new primary key or timestamp. The model keys each row by its id and lets no body set the id or the timestamps Prisma manages, so rewriting either is not modelled.
- UpdateUser (`Users.UpdateUser`): inherits the refusal of `id`, `createdAt` and `updatedAt` from `Users.PatchFirmUser` and `Users.PatchClientUser`: a body naming one of them answers 500 and writes nothing, where the source writes it.
- UpdateFirmUser (`Users.UpdateFirmUser`): inherits the refusal of `id`, `createdAt` and `updatedAt` from `Users.PatchFirmUser`: a body naming one of them answers 500 and writes nothing, where the source writes it.
- UpdateClientUser (`Users.UpdateClientUser`): inherits the refusal of `id`, `createdAt` and `updatedAt` from `Users.PatchClientUser`: a body naming one of them answers 500 and writes nothing, where the source writes it.
- ListCases (`Cases.ListCases`): the listed cases are the bare rows. The relations the route loads with `include` are not in the answer: the client's id and name; the property's id, name and address; each tenant link with the tenant's contact columns; the assigned attorney; and the `_count` of documents and comments.
- ListProperties (`Properties.ListProperties`): the listed properties are the bare rows. The included client, the units with their active tenants and `_count.cases` are not in the answer.
- GetProperty (`Properties.GetProperty`): the answer is the property with its cases, newest first. The included client, the units with their active tenants and each case's tenant links are not in the answer.
- ListPropertyTenants (`Properties.ListPropertyTenants`): the listed tenants are the bare rows; each tenant's included `unit` is not in the answer.
- GetCase (`Cases.GetCase`): the answer is the case with its comments, events and documents. The other relations the route loads with `include` are not in it: the client; the property with its units; the tenant links with their tenants; the assigned attorney's id, name and email; and each comment's firm or client author.
- CreateCase (`Cases.CreateCase`): the 201 answer is the bare case row; the included client, property and tenant links with their tenants are not in it.
- UpdateCase (`Cases.UpdateCase`): the 200 answer is the bare case row; the included client, property and tenant links with their tenants are not in it.
- PatchStatus (`Cases.PatchStatus`): the 200 answer is the bare case row; the included client and property are not in it.
- AddComment (`Comments.AddComment`): the 201 answer is the bare comment row; the author's id and name, from the included firm user or client user, are not in it.
- ListCaseDocuments (`Documents.ListCaseDocuments`): the listed documents are the bare rows; the id and name of the included uploader, client uploader and approver are not in them.
- ListUpcoming (`CaseEvents.ListUpcoming`): the listed events are the bare rows; each event's included case (its id, number and property name) is not in them.
- PendingApproval (`DocumentApproval.PendingApproval`): the listed documents are the bare rows; each document's included case (its id, number and property name) is not in them.
- ListFirmUsers (`Users.ListFirmUsers`): the listed users carry the selected columns except `createdAt`, which the model's user rows do not have.
- ListClientUsers (`Users.ListClientUsers`): the listed users carry the selected columns except `createdAt`, which the model's user rows do not have.
- CaseVolume (`Reports.CaseVolume`): the clients' `findMany` names no `orderBy`, so the database's order is unspecified; the model lists the clients in id order.
- PrepareFilingPacket (`EFilingService.PrepareFilingPacket`): the documents' `include` names no `orderBy`; the model puts them in id order.
- Authorization (`EFilingService.Authorization`): a configuration's `apiKey` is read only as a string. A truthy key of another JSON type, which the source would render as text after "Bearer ", counts here as no key.
- JSON: `JSON.parse` of template merge fields is a function `parses` passed in, saying whether the text parses. A template stores the merge fields as the text they were parsed from.
- The seed script and the server wiring are not part of this model.

## Findings

| source | as written | input that shows it | evidently intended | confidence | as-written member | corrected member |
|---|---|---|---|---|---|---|
| backend/src/services/syncService.ts:102-118 | units are upserted with `propertyId: propertyData.id \|\| ''`, and the mapped property has no `id` | a connected RentManager sync whose first property reports one unit: the unit names property `''`, its foreign key fails, and the sync ends FAILED | units are stored under the id of the property row just written | not executed | SyncService.RmSyncFailsOnUnits | SyncService.RmPropertyStepLinkedStores |
| backend/src/routes/documentApproval.ts:107-119 | a client principal's approval reads `document.case.client.lawFirmId`, but the query never loads `client` | a client user approving a document of their own client: the row is written as APPROVED, then the handler answers 500 | the firm's users are notified and the approved document is returned | not executed | DocumentApproval.Approve | DocumentApproval.ApproveLoadingClient |
| backend/src/routes/templates.ts:100-112 | the next version counts only active templates of the slot | a slot whose only template, version 1, is deactivated: a new upload gets version 1 again, at the same file path | the next version is one above every version of the slot | not executed | Templates.AsWrittenReusesVersion | Templates.NextVersionKeepsDistinct |
| backend/src/services/efilingService.ts:257 | `totalFee` adds only `filingFee` and `serviceFee`, while each fee also falls back to its snake_case field | a reply `{filing_fee: 50.00, service_fee: 5.00}` gives fees 50.00 and 5.00 with a total of 0 | the total is the sum of the two fees read | not executed | EFilingService.SnakeCaseFeesNotTotalled | EFilingService.QuotedFees |
| backend/src/routes/reports.ts:145-147 | avgDaysToJudgment divides by the count of cases with a judgment date whenever any dated case exists | one closed case with a filing date and no judgment date gives 0/0, a NaN | zero when no case has a judgment date | not executed | Reports.JudgmentMeanNaN | Reports.JudgmentMean |
| backend/src/routes/auth.ts:89-106 | the query passes both `include` and `select`, which Prisma refuses | any signed-in user whose row exists gets 500 "Failed to fetch user" | the selected user row with its firm or client | not executed | AuthRoutes.MeNeverAnswers | AuthRoutes.GetMe |
| frontend/src/pages/CaseIntake.tsx:183-186 | the client select calls `fetchProperties()` right after `setClientId`, so the request reads the previous render's client id | choosing client c1, then c2: the second request asks for c1's properties | the request asks for the chosen client's properties | not executed | CaseIntake.StaleClientFilter | CaseIntake.Refetch |
