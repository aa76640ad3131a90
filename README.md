# A verified model of the CRM's request handling, storage rules and kanban board

The CRM is a Hono API over a Prisma database with a Next.js front end. It
manages companies, leads, deals and activities. This project models its
sequential core in Dafny:

- **The API boundary** (`Middleware`, `Errors`, `Validation`, `AuthRoutes`):
  - the session gate and the origin check;
  - the wire error shape and the classification of storage errors;
  - body validation with its aggregated message;
  - the login, logout and `/me` decision chains, including the token
    extraction from the raw `Cookie` header.
- **The four resource routes** (`Deals`, `Leads`, `Activities`, `Companies`):
  - each create and partial-update schema becomes a validator (`Schema`
    models the subset of zod they use, with zod's default messages);
  - each list filter becomes a predicate;
  - pagination arithmetic and the fixed orderings live in `Listing` and `Seqs`;
  - each table is a class over a sequence of rows, with create, patch and
    delete methods.
- **The kanban board** of the deals page (`Kanban`): a class with the two
  pieces of page state, `deals` and `dealsByStage`. It models the
  optimistic move and the rollback as written, and a corrected rollback
  beside them.
- **The client form validators** (`ClientSchemas`) and **the dashboard
  aggregation** (`Dashboard`).

Collaborators the model cannot see are parameters:

- the user lookup;
- `bcrypt.compare`;
- token signing and verification;
- string-format tests (email, uuid, ISO datetime) and ISO-to-instant conversion (`Schema.Formats`);
- the database behaviour the route files do not fix (`Listing.Db`).

A collaborator that may throw returns `Call<T>`, which is `Returns(value)` or `Throws`.

## Model

| member | source | states |
|---|---|---|
| Errors.ErrorResponse | apps/api/src/utils/errors.ts:10-20 | the body is `{error:{code,message}}` carrying exactly the given code and message, and the status is the given one |
| Errors.HandleError | apps/api/src/utils/errors.ts:22-38 | total over four replies. DUPLICATE_ENTRY/409 iff the message mentions `Unique constraint`. INVALID_REFERENCE/400 iff it does not but mentions `Foreign key constraint`. NOT_FOUND/404 iff neither but `Record to update not found`. INTERNAL_ERROR/500 otherwise, and always for a non-Error. The message is one of four fixed strings |
| Errors.EarliestMatchWins | apps/api/src/utils/errors.ts:26-34 | a message containing `Unique constraint` is DUPLICATE_ENTRY whatever else it contains |
| Middleware.AuthMiddleware | apps/api/src/middleware/auth.ts:6-21 | no (or empty) cookie iff UNAUTHORIZED/401; present but verification throws iff INVALID_TOKEN/401; `next` is reached iff verification succeeds, and the user set is exactly the verified payload |
| Middleware.SomePrefix | apps/api/src/middleware/auth.ts:38 | true iff the origin starts with one of the expected origins |
| Middleware.CsrfProtection | apps/api/src/middleware/auth.ts:23-45 | methods outside POST/PUT/PATCH/DELETE always pass. A missing origin or host passes. Otherwise the request passes iff the origin starts with `http://<host>`, `https://<host>`, `http://localhost:3000` or `http://localhost:8787`, and is refused only with FORBIDDEN/403 |
| Middleware.PrefixNotEquality | apps/api/src/middleware/auth.ts:38 | `http://localhost:3000.evil.example` passes a POST for every host, although it is not an allowed origin |
| Middleware.ResourceGate | apps/api/src/routes/deals.ts:21-22 | a resource request proceeds iff both middlewares do; a session failure is reported before any origin failure |
| Middleware.UnauthenticatedBeforeOrigin | apps/api/src/routes/deals.ts:21-22 | with no session cookie, any request, cross-origin writes included, gets UNAUTHORIZED/401 |
| Validation.IssueTexts | apps/api/src/middleware/validation.ts:14 | one segment per issue, in issue order, each `path joined by '.'`: message |
| Validation.Validate | apps/api/src/middleware/validation.ts:5-20 | a body that is not JSON gives INVALID_REQUEST/400; a valid body proceeds with exactly the parsed value; a schema failure gives VALIDATION_ERROR/400 with the aggregated message |
| Validation.MessageReportsEveryIssue | apps/api/src/middleware/validation.ts:14 | every issue's segment occurs in the message, at its offset, followed by `, ` unless it is the last; segment offsets strictly increase, so issue order is kept |
| Strings.Utf16Length | apps/api/src/routes/deals.ts:10 | JavaScript's `.length`, which zod's `.min`/`.max` compare: at least the number of characters and at most twice it, and zero only for the empty string |
| Schema.StringIssues | apps/api/src/routes/deals.ts:10 | no issues iff every check passes; every issue names the field |
| Schema.ShortTextAt | apps/api/src/routes/deals.ts:10 | accepted iff absent or a string of 1 to 255 UTF-16 code units, counted as JavaScript's `.length` (a character beyond the Basic Multilingual Plane is two); an accepted value is the given one |
| Schema.UuidAt | apps/api/src/routes/deals.ts:9 | accepted iff absent or a well-formed uuid string |
| Schema.DatetimeAt | apps/api/src/routes/deals.ts:13 | accepted iff absent or an ISO datetime string, which is never empty |
| Schema.PositiveAt | apps/api/src/routes/deals.ts:11 | accepted iff absent or a number > 0 |
| Schema.ScoreAt | apps/api/src/routes/leads.ts:15 | accepted iff absent or a whole number in [0, 100] |
| Schema.EmailAt | apps/api/src/routes/auth.ts:12 | accepted iff absent or a well-formed email string |
| Schema.EnumAt | apps/api/src/routes/deals.ts:12 | accepted iff absent or a string naming a member; the value is that member |
| Schema.Required | apps/api/src/routes/auth.ts:11-14 | accepted iff the field is present and valid; an absent field gives the single issue `Required` |
| Schema.WithDefault | apps/api/src/routes/leads.ts:14-15 | an absent field takes the default, a present one keeps its value, and a bad one keeps its issues |
| Schema.AsObject | apps/api/src/routes/auth.ts:11 | a body that is not an object is refused with one root issue naming its type |
| Enums.ParseStage | apps/api/src/routes/deals.ts:12 | defined iff the name is one of the five stage names, and names it back |
| Enums.StageRoundTrip | apps/api/src/routes/deals.ts:12 | parsing a stage's name gives the stage back |
| Enums.ParseLeadStatus | apps/api/src/routes/leads.ts:14 | defined iff the name is NEW, QUALIFIED or LOST |
| Enums.LeadStatusRoundTrip | apps/api/src/routes/leads.ts:14 | parsing a status's name gives the status back |
| Enums.ParseLeadSource | apps/api/src/routes/leads.ts:13 | defined iff the name is WEB, REFERRAL, EVENT or OTHER |
| Enums.LeadSourceRoundTrip | apps/api/src/routes/leads.ts:13 | parsing a source's name gives the source back |
| Enums.ParseActivityType | apps/api/src/routes/activities.ts:10 | defined iff the name is NOTE, TASK, CALL or EMAIL |
| Enums.ActivityTypeRoundTrip | apps/api/src/routes/activities.ts:10 | parsing a type's name gives the type back |
| AuthRoutes.ParseLogin | apps/api/src/routes/auth.ts:11-14 | valid iff the body is an object with a well-formed email string and a non-empty password string; the value is those two strings |
| AuthRoutes.LoginHandler | apps/api/src/routes/auth.ts:22-62 | unknown email and wrong password both give INVALID_CREDENTIALS/401; a throw from the lookup, the password comparison or the signer gives LOGIN_FAILED/500; success iff the lookup, the comparison and the signing all succeed. On success: status 200, the token signs exactly `{userId, email, role}` of the stored user, the cookie `auth-token` has httpOnly, sameSite Lax, secure iff production, maxAge 604800 and path `/`, and the user shown has no password hash |
| AuthRoutes.LoginRoute | apps/api/src/routes/auth.ts:19-21 | for the POST the route is mounted on, the origin check comes first, then validation, then the handler |
| AuthRoutes.MalformedLoginSkipsLookup | apps/api/src/routes/auth.ts:21 | a malformed or non-JSON login body gets 400 whatever the user store, bcrypt and the signer would do |
| AuthRoutes.MalformedEmailRejected | apps/api/src/routes/auth.ts:12 | a login body whose email is not well-formed gets VALIDATION_ERROR/400 |
| AuthRoutes.LogoutRoute | apps/api/src/routes/auth.ts:65-70 | for the POST the route is mounted on, past the origin check always 200 with `Logged out successfully` and the deletion of `auth-token` at path `/` |
| AuthRoutes.LogoutIgnoresSession | apps/api/src/routes/auth.ts:65-70 | the logout reply does not depend on the session cookie |
| AuthRoutes.RunToSemicolon | apps/api/src/routes/auth.ts:73 | the longest `;`-free prefix: a prefix of the input with no `;`, ending at the end or at a `;` |
| AuthRoutes.TokenFromHeader | apps/api/src/routes/auth.ts:73 | none iff `auth-token=` followed by a non-`;` character occurs nowhere; otherwise the capture of the leftmost such occurrence, which is non-empty |
| AuthRoutes.SuffixNamedCookieMatches | apps/api/src/routes/auth.ts:73 | the unanchored pattern takes the value of a cookie named `my-auth-token` as the session token |
| AuthRoutes.RunWholeValue | apps/api/src/routes/auth.ts:73 | a value without `;` is captured whole |
| AuthRoutes.MeHandler | apps/api/src/routes/auth.ts:72-100 | no header or no match iff UNAUTHORIZED/401 `Not authenticated`; a throw in verification or lookup gives INVALID_TOKEN/401; a missing user gives USER_NOT_FOUND/404; otherwise 200 with the looked-up user |
| AuthRoutes.MeRoute | apps/api/src/routes/auth.ts:19 | the origin check never stops `GET /me` |
| Listing.CeilDiv | apps/api/src/routes/deals.ts:72 | the least count of pages of the given size covering the total |
| Listing.Paginate | apps/api/src/routes/deals.ts:26-28 | page defaults to 1 and the page size to the route's default. The items are the ordered rows from `(page-1)*pageSize`, at most pageSize of them. total counts every row, and totalPages is the ceiling of total / pageSize |
| Listing.ListPage | apps/api/src/routes/deals.ts:42-57 | the page is cut from the matching rows sorted by the route's key; the page is sorted, its items are matching rows, and total counts all matching rows |
| Listing.WindowSorted | apps/api/src/routes/deals.ts:45-47 | every window of a sorted sequence is sorted |
| Seqs.SortSorted | apps/api/src/routes/deals.ts:47 | the ordering yields a sequence sorted by the key |
| Seqs.SortPermutes | apps/api/src/routes/deals.ts:47 | the ordering neither drops nor adds rows |
| Seqs.FilterIsSubsequence | apps/api/src/routes/deals.ts:62 | filtering keeps the input order |
| Deals.StageAt | apps/api/src/routes/deals.ts:12 | accepted iff absent or one of the five stage names; the value is that stage |
| Deals.ParseDealCreate | apps/api/src/routes/deals.ts:8-14 | valid iff a uuid leadId, a title of 1-255 UTF-16 code units, an amount > 0, an optional stage name and an optional ISO datetime; the stage defaults to PROSPECTING |
| Deals.ParseDealUpdate | apps/api/src/routes/deals.ts:16 | the same constraints on the fields present, the title's length in UTF-16 code units; absent fields stay absent, with no default |
| Deals.NewDeal | apps/api/src/routes/deals.ts:108-112 | the stored row carries the validated fields; the close date is converted when given and null otherwise |
| Deals.ApplyUpdate | apps/api/src/routes/deals.ts:133-141 | every present field is written, the close date converted; every absent field, the id and createdAt are unchanged |
| Deals.AnyStageReplacesAny | apps/api/src/routes/deals.ts:128-150 | a stage-only update sets any stage from any stage and changes nothing else |
| Deals.UpdateIdempotent | apps/api/src/routes/deals.ts:128-150 | applying the same update twice equals applying it once |
| Deals.GroupByStage | apps/api/src/routes/deals.ts:60-64 | exactly the five stage keys; each bucket holds page items of that stage, and every item is in the bucket of its stage |
| Deals.BucketsKeepOrder | apps/api/src/routes/deals.ts:62 | each bucket is in page order |
| Deals.BucketsPartition | apps/api/src/routes/deals.ts:60-64 | the five bucket sizes add up to the page size |
| Deals.SortedIsNewestFirst | apps/api/src/routes/deals.ts:47 | a list sorted by the deal key has non-increasing createdAt |
| Deals.DealStore.Get | apps/api/src/routes/deals.ts:79-102 | found iff a row has the id, and then that row with 200; otherwise NOT_FOUND/404 `Deal not found` |
| Deals.DealStore.Matching | apps/api/src/routes/deals.ts:32-40 | exactly the rows matching every truthy filter parameter, stage and leadId as exact matches |
| Deals.DealStore.List | apps/api/src/routes/deals.ts:24-77 | a stage filter that names no stage is the database's error; otherwise 200 whose page is exactly `ListPage` of the matching rows newest first: the skip/take window `(page-1)*size` of the sorted rows, default page size 50, with its buckets |
| Deals.DealStore.Create | apps/api/src/routes/deals.ts:104-126 | 201 with the new row, which is appended; ids stay unique |
| Deals.DealStore.Patch | apps/api/src/routes/deals.ts:128-154 | an unknown id leaves the table alone and returns the classified database error; a known id replaces that row by the updated one and returns it |
| Deals.DealStore.Delete | apps/api/src/routes/deals.ts:156-168 | an unknown id is the classified database error; otherwise the row is removed, `Deal deleted successfully`, and no row with that id remains |
| Leads.SourceAt | apps/api/src/routes/leads.ts:13 | accepted iff absent or one of the four source names |
| Leads.StatusAt | apps/api/src/routes/leads.ts:14 | accepted iff absent or one of the three status names |
| Leads.ParseLeadCreate | apps/api/src/routes/leads.ts:8-16 | valid iff a uuid companyId, a contact name of 1-255 UTF-16 code units, an optional well-formed email, an optional phone, a source name, an optional status name (default NEW) and an optional whole score in [0,100] (default 0); out-of-range scores are refused, not clamped |
| Leads.ParseLeadUpdate | apps/api/src/routes/leads.ts:18 | the same constraints on the fields present, the contact name's length in UTF-16 code units; no defaults |
| Leads.NewLead | apps/api/src/routes/leads.ts:116-121 | the stored row carries exactly the validated fields |
| Leads.ApplyUpdate | apps/api/src/routes/leads.ts:134-140 | present fields written, absent fields, id and createdAt unchanged |
| Leads.EmptyUpdateKeepsLead | apps/api/src/routes/leads.ts:134-140 | an empty update leaves the lead as it was |
| Leads.NoParametersNoConstraint | apps/api/src/routes/leads.ts:36-52 | absent or empty q, status and companyId select every lead |
| Leads.SortedIsNewestFirst | apps/api/src/routes/leads.ts:59 | the lead order has non-increasing createdAt |
| Leads.LeadStore.Get | apps/api/src/routes/leads.ts:85-110 | found iff a row has the id; otherwise NOT_FOUND/404 `Lead not found` |
| Leads.LeadStore.Matching | apps/api/src/routes/leads.ts:36-52 | exactly the rows matching every truthy parameter: q occurs in the contact name, the email or the phone; status and companyId exact |
| Leads.LeadStore.List | apps/api/src/routes/leads.ts:26-83 | a bad status filter is the database's error; otherwise 200 whose page is exactly `ListPage` of the matching rows newest first: total, the skip/take window `(page-1)*size` of the sorted rows, default page size 20; every item matches and the items are newest first |
| Leads.LeadStore.Create | apps/api/src/routes/leads.ts:112-127 | 201 with the new row, appended; ids stay unique |
| Leads.LeadStore.Patch | apps/api/src/routes/leads.ts:129-146 | unknown id: table unchanged, classified error; known id: that row updated |
| Leads.LeadStore.Delete | apps/api/src/routes/leads.ts:148-160 | unknown id: classified error; otherwise removed, `Lead deleted successfully`, no row with that id remains |
| Activities.TypeAt | apps/api/src/routes/activities.ts:10 | accepted iff absent or one of the four type names |
| Activities.ParseActivityCreate | apps/api/src/routes/activities.ts:8-14 | valid iff a uuid leadId, a type name, non-empty content, an optional ISO due date and an optional boolean completed (default false) |
| Activities.ParseActivityUpdate | apps/api/src/routes/activities.ts:16 | the same constraints on the fields present, no defaults |
| Activities.NewActivity | apps/api/src/routes/activities.ts:110-114 | the validated fields, the due date converted when given and null otherwise |
| Activities.ApplyUpdate | apps/api/src/routes/activities.ts:135-142 | present fields written, the due date converted; absent fields, id and createdAt unchanged |
| Activities.CompleteIdempotent | apps/api/src/routes/activities.ts:135-142 | marking an activity completed twice equals marking it once |
| Activities.OnlyTrueSelectsCompleted | apps/api/src/routes/activities.ts:40-42 | a present `completed` other than `true` (such as `1`, `TRUE` or empty) selects exactly the incomplete activities |
| Activities.SortedIsInListOrder | apps/api/src/routes/activities.ts:53-57 | in the list order incomplete come before completed; within equal completion, due dates ascend; within equal due dates, createdAt descends |
| Activities.ActivityStore.Get | apps/api/src/routes/activities.ts:81-104 | found iff a row has the id; otherwise NOT_FOUND/404 `Activity not found` |
| Activities.ActivityStore.Matching | apps/api/src/routes/activities.ts:34-46 | exactly the rows matching leadId and type when truthy, and completed whenever the parameter is present |
| Activities.ActivityStore.List | apps/api/src/routes/activities.ts:24-79 | a bad type filter is the database's error; otherwise 200 whose page is exactly `ListPage` of the matching rows in list order: the skip/take window `(page-1)*size` of the sorted rows, default page size 20 |
| Activities.ActivityStore.Create | apps/api/src/routes/activities.ts:106-128 | 201 with the new row, appended; ids stay unique |
| Activities.ActivityStore.Patch | apps/api/src/routes/activities.ts:130-156 | unknown id: table unchanged, classified error; known id: that row updated |
| Activities.ActivityStore.Delete | apps/api/src/routes/activities.ts:158-170 | unknown id: classified error; otherwise removed, `Activity deleted successfully`, no row with that id remains |
| Companies.ParseCompanyCreate | apps/api/src/routes/companies.ts:8-12 | valid iff a name of 1-255 UTF-16 code units and optional domain and notes strings |
| Companies.ParseCompanyUpdate | apps/api/src/routes/companies.ts:14 | the same constraints on the fields present, the name's length in UTF-16 code units |
| Companies.CreateBodyIsUpdateBody | apps/api/src/routes/companies.ts:14 | every body the create schema accepts, the update schema accepts with the same name |
| Companies.NewCompany | apps/api/src/routes/companies.ts:81-83 | the stored row carries exactly the validated fields |
| Companies.ApplyUpdate | apps/api/src/routes/companies.ts:96-99 | present fields written, absent fields, id and createdAt unchanged |
| Companies.FullUpdateOverwrites | apps/api/src/routes/companies.ts:96-99 | an update with every field leaves nothing of the old row but id and createdAt |
| Companies.LeadsOf | apps/api/src/routes/companies.ts:33-37 | exactly the leads referencing the company |
| Companies.CompanyStore.Get | apps/api/src/routes/companies.ts:54-75 | found iff a row has the id, with its lead count; otherwise NOT_FOUND/404 `Company not found` |
| Companies.CompanyStore.List | apps/api/src/routes/companies.ts:22-52 | no filter: total counts every company; default page 1 and size 20; totalPages is the ceiling; items newest first, each with its lead count; item i is item i of the skip/take window of all companies sorted newest first |
| Companies.CompanyStore.Create | apps/api/src/routes/companies.ts:77-89 | 201 with the new row, appended; ids stay unique |
| Companies.CompanyStore.Patch | apps/api/src/routes/companies.ts:91-105 | unknown id: table unchanged, classified error; known id: that row updated |
| Companies.CompanyStore.Delete | apps/api/src/routes/companies.ts:107-119 | unknown id: classified error; otherwise removed, `Company deleted successfully` |
| Kanban.Group | apps/web/app/deals/page.tsx:52-55 | one bucket per STAGES column. Each bucket holds every fetched deal of that stage as often as it was fetched, and no other deal, in fetched order; a deal of an unknown stage is in no bucket |
| Kanban.ReplaceById | apps/web/app/deals/page.tsx:88 | same length; exactly the entries with the id are replaced |
| Kanban.Optimistic | apps/web/app/deals/page.tsx:91-94 | every entry with the deal's id leaves the old column, the updated deal is appended to the new one, and the other columns are unchanged |
| Kanban.Rollback | apps/web/app/deals/page.tsx:104-107 | the id leaves the new column and the deal is appended to the old one; the other columns are unchanged |
| Kanban.ReplaceIsUpdate | apps/web/app/deals/page.tsx:88 | with unique ids, the map changes exactly the one position of the moved deal |
| Kanban.OptimisticAgrees | apps/web/app/deals/page.tsx:87-94 | the optimistic move keeps list and buckets in agreement |
| Kanban.RollbackDuplicates | apps/web/app/deals/page.tsx:104-107 | applied to the pre-move snapshot, as the handlers do, the rollback leaves the deal twice in its old column, so the buckets no longer agree with the restored list |
| Kanban.CardDropDisagrees | apps/web/app/deals/page.tsx:78 | a target that is not a column gives a list the buckets disagree with |
| Kanban.RollbackRestores | apps/web/app/deals/page.tsx:104-107 | applied to the buckets the optimistic move produced, the rollback restores agreement and the deal is in its old column exactly once |
| Kanban.FindCard | apps/web/app/deals/page.tsx:81 | found iff some deal has the id, and then that deal |
| Kanban.Board.constructor | apps/web/app/deals/page.tsx:32-33 | empty list and five empty columns, in agreement |
| Kanban.Board.Load | apps/web/app/deals/page.tsx:46-63 | a successful fetch sets the list and its grouping, which agree; a failed one leaves the state alone |
| Kanban.Board.Move | apps/web/app/deals/page.tsx:113-143 | no change iff the deal is absent or already in the target stage. A stage that is not a column crashes after the list update. Otherwise, on success: the list with the deal restaged and the optimistic buckets. On failure: the old list and the rollback as written |
| Kanban.Board.DragEnd | apps/web/app/deals/page.tsx:71-111 | no target means no change. With a target, no change iff the deal is absent or already there. A non-column target crashes after the list update, leaving list and buckets out of step. A column target is `Move`: it crashes iff the deal's current stage is no column (left there by an earlier card drop), with the list updated and the buckets unchanged; otherwise it is Patched iff the PATCH succeeds, with the list updated and the buckets the optimistic ones, and RolledBack if it fails, with the list unchanged and the buckets the `Rollback` of the old ones |
| Kanban.Board.MoveCorrected | apps/web/app/deals/page.tsx:113-143 | never crashes: non-column targets are ignored. Patched iff the PATCH succeeds on a real move, with the deal restaged. A failure restores the list. List and buckets agree throughout |
| ClientSchemas.ParseLoginForm | apps/web/lib/schemas.ts:3-6 | valid iff a well-formed email and a password of at least 6 UTF-16 code units |
| ClientSchemas.LoginFormStricter | apps/web/lib/schemas.ts:5 | every form-valid login body is server-valid; a server-valid password of under 6 UTF-16 code units is stopped by the form with `Password must be at least 6 characters` |
| ClientSchemas.AstralPasswordPasses | apps/web/lib/schemas.ts:5 | three emoji are six code units, so with a well-formed email the form accepts them as a password |
| ClientSchemas.ParseCompanyForm | apps/web/lib/schemas.ts:8-12 | valid iff a non-empty name and optional domain and notes |
| ClientSchemas.CompanyFormLooser | apps/web/lib/schemas.ts:9 | every server-valid company body is form-valid; a name over 255 UTF-16 code units passes the form but not the server |
| ClientSchemas.EmailOrEmptyAt | apps/web/lib/schemas.ts:17 | accepted iff absent, exactly empty, or a well-formed email; a malformed non-empty string reports `Invalid email`, a non-string `Invalid input` |
| ClientSchemas.ParseLeadForm | apps/web/lib/schemas.ts:14-22 | companyId and contactName need only be non-empty; email as above; source, status and score are all required, score a whole number in [0,100] |
| ClientSchemas.ParseDealForm | apps/web/lib/schemas.ts:24-30 | valid iff non-empty leadId and title, an amount > 0, a stage name and an optional close date string |
| ClientSchemas.ParseActivityForm | apps/web/lib/schemas.ts:32-38 | valid iff a non-empty leadId, a type name, non-empty content, an optional due date and a boolean completed |
| ClientSchemas.CompletedRequiredOnForm | apps/web/lib/schemas.ts:37 | an activity without `completed` is refused by the form |
| Dashboard.DashboardData | apps/web/app/dashboard/page.tsx:20-47 | each count is the number of fetched items passing its filter and is at most the fetched length; the recent lists are the first min(5, n) items in API order |
| Dashboard.OpenAndClosedPartition | apps/web/app/dashboard/page.tsx:25-27 | open deals plus won-or-lost deals are all the fetched deals |
| Dashboard.FilteredKeepOrder | apps/web/app/dashboard/page.tsx:20-38 | each filtered list is an order-preserving subsequence of its fetch |
| Dashboard.OverdueCounts | apps/web/app/dashboard/page.tsx:34-38 | an incomplete activity due before today still counts as upcoming |
| Dashboard.DoneOrUndatedSkipped | apps/web/app/dashboard/page.tsx:35-37 | a completed activity, or one without a due date, never counts |

## Left out

- Hono itself is not modelled: routing, `getCookie`/`setCookie`/`deleteCookie` internals, CORS, and the bootstrap and signal handling in apps/api/src/index.ts. Cookie setting and deletion are values in the reply.
- Errors thrown by `next` inside `authMiddleware` and inside `validate` are not modelled, because the handlers behind them catch their own errors. `validate` awaits `next` inside its own try (apps/api/src/middleware/validation.ts:11), so a non-zod error escaping a handler would become INVALID_REQUEST/400; no modelled handler lets one escape.
- The `console.error` logging in `handleError` (apps/api/src/utils/errors.ts) and in `fetchDeals` (apps/web/app/deals/page.tsx:59) is left out as output.
- apps/api/src/utils/jwt.ts is not modelled: token signing and verification are parameters. So are the user lookup and `bcrypt.compare`, since they are library and database calls with no logic here.
- The `NODE_ENV` check is the parameter `production`.
- Relations pulled in with `include` (lead, company, `_count` of deals and activities) are not carried on the rows. The exception is the company lead count, which is computed from a lead table passed in.
- Database behaviour these files do not determine is a parameter in `Listing.Db`, not a claim:
  - whether `contains` is case-sensitive;
  - where null due dates sort;
  - the messages Prisma throws for a missing row or an invalid enum filter.
- Foreign-key checks and cascade deletes are not modelled: a create never fails for a dangling reference.
- `updatedAt` and other database-maintained columns are not modelled.
- New ids and creation instants are method parameters.
- Seqs.SortBy and Listing.ListPage: rows with equal sort keys keep their input order (a stable insertion sort). The database leaves the order of ties unspecified, so the model fixes one of the orders it may return.
- Kanban.Board.constructor: the page starts from an empty record of columns (apps/web/app/deals/page.tsx:33), the model from five empty columns. The two render alike and no move can find a deal before a fetch.
- Listing.Paginate: `parseInt` of the query parameters is not modelled, because it is a string conversion with NaN cases. The parsed page and page size are taken as at least 1. A page size of 0 (a division by zero in `totalPages`) and negative or NaN values are outside the model.
- ISO datetime validation and conversion to an instant are the parameters `Formats.isDatetime` and `Formats.instant`. Dates are integer instants.
- `Promise.all` over `findMany` and `count` is modelled as two reads of one snapshot. Races between concurrent requests are not modelled.
- Strings are sequences of Unicode scalar values, so a JSON body carrying a lone UTF-16 surrogate (`"\ud800"`) is outside the model. Lengths are counted in UTF-16 code units as JavaScript's `.length` counts them (Strings.Utf16Length).
- Issue paths are strings only. zod's numeric path components do not occur in these flat schemas.
- Dashboard.DashboardData: `openDealsAmount` is left out (a `parseFloat` sum in floating point). So is `totalAmount` in the deal column component.
- The dashboard's two time bounds are parameters; `setHours` and `setDate` on the clock are not modelled.
- Kanban.Board.DragEnd: `handleDragStart` and the `activeDeal` overlay are not modelled, because they only drive rendering. The `alert` and `console.error` calls are left out as output.
- Kanban.Board.Move: the PATCH request is reduced to whether it succeeded.
- The kanban cards carry only id, stage and title; the other deal fields play no part in the board logic.
- The React rendering, the network clients in apps/web/lib/api.ts and apps/web/lib/auth.ts, and the other pages and components are not modelled, because they are UI and transport.
- The seed script and the test files are not modelled; the tests only inform the properties stated.
- On resource routes the code mounts `authMiddleware` before `csrfProtection`, so the session gate answers first (Middleware.ResourceGate).
- zod's `.optional()` refuses an explicit null, so null cannot clear an optional field; the model refuses it too.

## Findings

| source | as written | input that shows it | evidently intended | confidence | as-written member | corrected member |
|---|---|---|---|---|---|---|
| apps/web/app/deals/page.tsx:104-107 | the rollback rebuilds the buckets from the pre-move snapshot, removes the deal from the new column, and appends it to the old column, which still holds it | a board with deal `d` in PROSPECTING; move `d` to PROPOSAL; the PATCH fails | the old column holds `d` once, and the buckets agree with the restored list | not executed | Kanban.RollbackDuplicates | Kanban.RollbackRestores |
| apps/web/app/deals/page.tsx:78 | a drop target's id is taken as the new stage unchecked. Dropping onto another card (whose id is a deal id) updates `deals`, then throws a `TypeError` when spreading the missing bucket. No PATCH is sent, and list and buckets stay out of step | drag deal `d` (PROSPECTING) onto the card of deal `e` | drops onto a non-column are ignored | not executed | Kanban.CardDropDisagrees | Kanban.Board.MoveCorrected |
