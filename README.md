# LangChain Flow: a verified model of the core rules

LangChain Flow is a workbench for watching agent runs. A run belongs to a project and has a status, logs, a
graph of nodes and edges, and cost records. The server and the web app are mostly glue around a hosted
Postgres database. The rules that decide what gets stored and what gets shown are small and deterministic.
This project models those rules in Dafny and proves what they promise.

One module per source file:

- `Schemas` (`schemas.dfy`): the zod request validators. Each schema is a function from the raw fields
  (`None` for an absent key) to the validated value with its defaults filled in, or to the list of issues.
  The email, url and uuid format checks are oracles held in a `Formats` value.
- `Domain` (`domain.dfy`): the closed vocabularies (project status, run status, trigger type, log level,
  node type) with their wire names.
- `Api`, `Db`, `Constants` (`api.dfy`, `db.dfy`, `constants.dfy`): the response envelope and the page
  count, the input sanitiser and the error formatter, and the route builders and limits. The limits are
  proved to agree with the validators.
- `Supabase` (`supabase.dfy`): `DatabaseError` and the rule that unwraps a `{ data, error }` query result.
- `Auth` (`auth.dfy`): the authentication controller as a class that holds the users table.
  - `register` is a method that changes the table.
  - `login`, `refresh` and `me` only read it.
  - bcrypt and JWT are symbolic: a hash remembers its password, and a token remembers its payload,
    secret, lifetime name and issue time.
- `InterTools` (`intertools.dfy`): the `/chat.js` parameter check, the log row built from a captured page
  fragment, `POST /api/messages` as a method on a class that holds the logs table, and the listing reply.
- `RunRoute` (`runroute.dfy`): `POST /api/run` as a method on a class that holds the runs table.
- `CostCard` (`costcard.dfy`): the cost totals and the per-service breakdown.
  - The breakdown's accumulator loop is a method proved against a reduce function.
  - Also the number-format choice and the "+N more operations" rule.
- `GraphViewer` (`graphviewer.dfy`): the Mermaid text builder (a method with two loops), node shapes and
  status colours.
- `LogViewer` (`logviewer.dfy`): the auto-scroll flag and the scroll offset as a class with two fields,
  the level colours, and which parts of the panel show.
- `Js` and `Wrappers` (`js.dfy`, `wrappers.dfy`): the JavaScript values and built-ins the rules use
  (truthiness, `toString` on naturals, `join`, `trim`, decimal `parseInt`), plus `Option` and `Result`.

Whatever the database, the clock, the browser or the environment supply is a parameter:

- the id and timestamp of a new row;
- whether a lookup or an insert fails;
- the rows a query returns (the auth controller's lookups read the users table it holds);
- the JWT settings;
- the log container's scroll offset and heights, as the browser reports them after a scroll (so a scroll the user makes is the offset it reports).

An insert whose id is already in the table fails the way the primary-key constraint makes it fail. In the
users table, a username or an email already present fails the same way, since both are unique keys of
the data model. The table definitions are not part of this model, so the constraint names in those
errors are placeholders.

## Model

| member | source | states |
|---|---|---|
| Api.Success | packages/utils/src/api.ts:4-10 | a successful envelope: `success` is true, data and message are kept unchanged, and there is no error |
| Api.Error | packages/utils/src/api.ts:12-18 | a failed envelope: `success` is false, the error and message are set, and there is no data |
| Api.SuccessAndErrorDiffer | packages/utils/src/api.ts:4-18 | no success envelope equals an error envelope |
| Api.CeilDiv | packages/utils/src/api.ts:32 | the result is the ceiling of `t / l`: for `l > 0` it is the least `r` with `r * l >= t`, and symmetrically for negative `l` |
| Api.TotalPagesCoverTotal | packages/utils/src/api.ts:32 | with a positive limit, `totalPages` is finite and its pages hold every item; one page fewer would not, and zero items give zero pages |
| Api.Paginated | packages/utils/src/api.ts:20-35 | the data, page, limit and total are echoed, and `totalPages` is `Math.ceil(total / limit)`, which is an infinity or `NaN` when the limit is 0 |
| Api.PathTexts | packages/utils/src/api.ts:38 | one text per path segment, in order |
| Api.Entries | packages/utils/src/api.ts:38 | one entry per validation error, in order, each the dotted path, ": " and the message |
| Api.FormatValidationErrorEmptyIff | packages/utils/src/api.ts:37-39 | the formatted text is empty if and only if there are no errors |
| Api.FormatValidationErrorAppend | packages/utils/src/api.ts:37-39 | one more error appends ", " and that error's entry |
| Api.FormatValidationErrorSingle | packages/utils/src/api.ts:37-39 | a single error is rendered as its own entry with no separator |
| Db.RemoveAngleBrackets | packages/utils/src/db.ts:3 | the result holds exactly the input's characters other than `<` and `>`, is never longer, and is the input itself when there are no brackets |
| Db.SanitizeInput | packages/utils/src/db.ts:2-4 | the result has no `<` or `>`, is no longer than the input, and uses only the input's characters |
| Db.SanitizeInputKeepsCleanInput | packages/utils/src/db.ts:2-4 | input with no brackets and no whitespace at either end comes back unchanged |
| Db.SanitizeBracketedSpace | packages/utils/src/db.ts:3 | "< a" becomes " a": the trim runs before the brackets are removed |
| Db.SanitizeLeadingSpace | packages/utils/src/db.ts:3 | " a" becomes "a" |
| Db.SanitizeInputNotIdempotent | packages/utils/src/db.ts:3 | sanitising "< a" twice gives a different result from sanitising it once |
| Db.FormatError | packages/utils/src/db.ts:10-18 | a truthy `message` is returned; otherwise a string error is returned as it is; anything else gives "Unknown database error" |
| Db.FormatErrorIsTruthy | packages/utils/src/db.ts:10-18 | the formatted error is truthy unless the error was the empty string |
| Db.FormatErrorEmptyMessage | packages/utils/src/db.ts:11-13 | an object whose message is "" gets the fallback text |
| Supabase.NewDatabaseError | apps/server/src/config/supabase.ts:18-23 | the error's name is "DatabaseError", and it keeps the given message and cause |
| Supabase.HandleSupabaseResponse | apps/server/src/config/supabase.ts:25-39 | success if and only if there is no error and the data is truthy, and then the data is returned unchanged; an error wins over data and becomes "Database operation failed: " + its message, with the error as cause; otherwise "No data returned from database" |
| Supabase.HandleSupabaseResponseErrors | apps/server/src/config/supabase.ts:30-36 | every error thrown is a `DatabaseError` whose cause is the database's error, or none when there was none |
| Constants.ItemRoutesCoincide | packages/utils/src/constants.ts:9-30 | GET, UPDATE and DELETE build the same path for projects and for integrations; LIST and CREATE are one path for projects, runs and integrations |
| Constants.RunSubRoutes | packages/utils/src/constants.ts:19-22 | a run's logs, graph and costs paths are its GET path followed by "/logs", "/graph" and "/costs" |
| Constants.ItemRoutesInjective | packages/utils/src/constants.ts:12-27 | different ids give different item paths, and an item path is the list path, "/" and the id |
| Constants.RunStatusValuesAreTheEnum | packages/utils/src/constants.ts:34-40 | RUN_STATUS lists each name of the run-status enum once, and nothing else |
| Constants.LogLevelValuesAreTheEnum | packages/utils/src/constants.ts:42-47 | LOG_LEVELS lists exactly the names of the log-level enum |
| Constants.NodeTypeValuesAreTheEnum | packages/utils/src/constants.ts:49-54 | NODE_TYPES lists exactly the names of the node-type enum |
| Constants.PaginationDefaultsAgree | packages/utils/src/constants.ts:65-69 | the PAGE and LIMIT defaults are the pagination schema's defaults; MAX_LIMIT is the largest limit the schema accepts |
| Constants.UserLimitsAgree | packages/utils/src/constants.ts:79-82 | given a valid email, registration input is accepted if and only if the username and password lengths lie within the USERNAME and PASSWORD limits |
| Constants.ProjectLimitsAgree | packages/utils/src/constants.ts:83-84 | project creation is accepted if and only if the name, description and repository lengths respect the PROJECT limits |
| Constants.LogMessageMaxNotEnforced | packages/utils/src/constants.ts:85 | the log schema accepts a message one character longer than LOG_MESSAGE_MAX |
| Domain.ParseProjectStatus | packages/utils/src/schemas.ts:45 | accepts exactly the three wire names, each as the status it names |
| Domain.ParseRunStatus | packages/utils/src/schemas.ts:74 | accepts exactly the five wire names, each as the status it names |
| Domain.ParseTriggerType | packages/utils/src/schemas.ts:86 | accepts exactly the three wire names, each as the trigger it names |
| Domain.ParseLogLevel | packages/utils/src/schemas.ts:106 | accepts exactly the four wire names, each as the level it names |
| Domain.ParseNodeType | packages/utils/src/schemas.ts:131 | accepts exactly the four wire names, each as the node type it names |
| Js.Trim | packages/utils/src/db.ts:3 | the result has no whitespace at either end, is no longer than the input, and is the input itself when neither end is whitespace |
| Js.NatToStringInjective | apps/web/components/cost-card.tsx:43 | different counts print differently |
| Js.JoinEmptyIff | packages/utils/src/api.ts:38 | joining non-empty parts gives "" only when there are no parts |
| Js.ParseIntOfNatToString | packages/intertools/src/index.ts:316 | `parseInt` reads back the decimal rendering of a natural number |
| Js.ParseIntOfNegated | packages/intertools/src/index.ts:316 | `parseInt` reads "-" and a rendering as the negated number |
| Js.ParseIntNoDigits | packages/intertools/src/index.ts:316 | text without digits is `NaN` |
| Schemas.StringField | packages/utils/src/schemas.ts:13-15 | no issue if and only if the string is present and its length is within the bounds; any issue names only this field |
| Schemas.OptionalStringField | packages/utils/src/schemas.ts:37-38 | no issue if and only if the string is absent or within the maximum; any issue names only this field |
| Schemas.FormatField | packages/utils/src/schemas.ts:14 | no issue if and only if the value is present and has the format, or is absent and optional; any issue names only this field |
| Schemas.EnumField | packages/utils/src/schemas.ts:45 | no issue if and only if the value is one of the options, or is absent and has a default or is optional; any issue names only this field |
| Schemas.NumberField | packages/utils/src/schemas.ts:212-213 | no issue if and only if the number is absent with a default, or present, integral when required, and within the bounds; any issue names only this field |
| Schemas.ParseCreateUser | packages/utils/src/schemas.ts:12-16 | accepted if and only if the username has 3-50 characters, the email is valid and the password has 8-100; the value carries the three fields |
| Schemas.ParseLogin | packages/utils/src/schemas.ts:18-21 | accepted if and only if the username has at least 3 characters and the password at least 8; the value carries both |
| Schemas.LoginAcceptsRegisteredCredentials | packages/utils/src/schemas.ts:12-21 | every username and password that registration accepts, login accepts too |
| Schemas.LoginAcceptsLongerPasswords | packages/utils/src/schemas.ts:15-20 | a 101-character password passes login but not registration |
| Schemas.ParseCreateProject | packages/utils/src/schemas.ts:35-39 | accepted if and only if the name has 1-255 characters, any description at most 1000, and any repository at most 255; the value carries the fields |
| Schemas.ParseUpdateProject | packages/utils/src/schemas.ts:41-46 | the create bounds on each field that is present, plus an optional status from the enum; the value carries exactly the fields given |
| Schemas.UpdateProjectAcceptsEmpty | packages/utils/src/schemas.ts:41-46 | an update with no fields is valid and changes nothing |
| Schemas.CreateProjectIsValidUpdate | packages/utils/src/schemas.ts:35-46 | every valid creation is a valid update of the same fields |
| Schemas.ParseCreateRun | packages/utils/src/schemas.ts:83-88 | accepted if and only if the project id is a uuid, the name has 1-255 characters and the trigger is one of the enum; config defaults to `{}`; the value has no status field |
| Schemas.ParseCreateLog | packages/utils/src/schemas.ts:103-110 | accepted if and only if any run id and the project id are uuids, any level is in the enum, and the message and source are non-empty; the level defaults to info and metadata to `{}` |
| Schemas.ParseCreateGraphNode | packages/utils/src/schemas.ts:127-135 | accepted if and only if the run id is a uuid, the node id and label are non-empty and the type is in the enum; positions are kept and metadata defaults to `{}` |
| Schemas.ParseCreateGraphEdge | packages/utils/src/schemas.ts:148-155 | accepted if and only if the run id is a uuid and both endpoints are non-empty; the run id, endpoints and label are kept; the type defaults to "default" and metadata to `{}` |
| Schemas.TokenCount | packages/utils/src/schemas.ts:179-180 | an absent count is 0; a present one is its value |
| Schemas.CostSubjectIssues | packages/utils/src/schemas.ts:174-177 | no issue if and only if any run id and the project id are uuids and the service and operation are non-empty |
| Schemas.CostAmountIssues | packages/utils/src/schemas.ts:179-181 | no issue if and only if each token count is absent or a non-negative integer, and the cost is present and non-negative |
| Schemas.ParseCreateCost | packages/utils/src/schemas.ts:173-183 | accepted if and only if both groups of checks pass; token counts default to 0, metadata to `{}`, and the run id, project id, service, operation, model and cost are kept |
| Schemas.ParsePagination | packages/utils/src/schemas.ts:211-214 | accepted if and only if the page is an integer of at least 1 and the limit an integer from 1 to 100; they default to 1 and 20 |
| Schemas.ParseInterToolsMessage | packages/utils/src/schemas.ts:222-227 | accepted if and only if the snippet is non-empty, the url valid and the project id a uuid; metadata defaults to `{}` |
| InterTools.ChatScript | packages/intertools/src/index.ts:85-90 | a missing or empty projectId gives 400 with the error comment, and only that case; otherwise the script for that project, with the theme defaulting to "light" and the content type and cache headers set |
| InterTools.PreviewMessage | packages/intertools/src/index.ts:262 | the message is the prefix, then the snippet when it has at most 200 characters; otherwise its first 200 characters and "..."; it is never longer than 223 characters |
| InterTools.PreviewMessageShortInjective | packages/intertools/src/index.ts:262 | snippets of up to 200 characters can be read back from the message |
| InterTools.PreviewMessageForgetsTail | packages/intertools/src/index.ts:262 | longer snippets that agree on their first 200 characters give the same message |
| InterTools.StoredMetadata | packages/intertools/src/index.ts:263-268 | the keys are url, source, fullContent and the caller's keys; a caller value wins, and otherwise the built-in values hold |
| InterTools.IngestedRow | packages/intertools/src/index.ts:259-270 | the row has level info, source "intertools", the validated project id, no run, the preview message and the stored metadata |
| InterTools.LimitFor | packages/intertools/src/index.ts:316 | the limit is never 0: absent, unreadable or zero is 50, and any other parsed value is kept, even a negative one |
| InterTools.LimitForRendered | packages/intertools/src/index.ts:316 | a positive decimal limit is taken as written, and a negative one passes through |
| InterTools.LimitForFallsBack | packages/intertools/src/index.ts:316 | "0" and text without digits fall back to 50 |
| InterTools.Views | packages/intertools/src/index.ts:332-338 | one view per row, in order, with the id, message, metadata, timestamp and creation time |
| InterTools.ViewsAppend | packages/intertools/src/index.ts:332-338 | the projection distributes over concatenation, so row order is kept |
| InterTools.MessagesReply | packages/intertools/src/index.ts:326-345 | a query error gives 500 "Internal server error"; otherwise 200 with one view per row |
| InterTools.InterToolsServer.PostMessage | packages/intertools/src/index.ts:252-310 | invalid input gives 400 "Invalid request data" with the issues; a reported insert error gives 500 "Failed to save message"; any other failure gives 500 "Internal server error"; only success appends the built row; the table's ids stay unique |
| RunRoute.ViewOf | apps/web/app/api/run/route.ts:39-50 | the reply keeps the id, project, name, config and creation time; status and trigger are their wire names; update, start and completion times are dropped |
| RunRoute.QueuedRun | apps/web/app/api/run/route.ts:14-22 | the inserted run is queued, not started and not completed, and carries the validated fields |
| RunRoute.RunStore.Create | apps/web/app/api/run/route.ts:6-65 | an unreadable body gives 500 "Internal server error"; an invalid body gives 400 with the issues; a failed insert gives 500 "Failed to create run"; only success appends a row, and that row is queued; ids stay unique |
| Auth.Verify | apps/server/src/controllers/auth.ts:143 | verification succeeds if and only if the field is a token signed with the secret and not yet expired, and it yields the token's payload |
| Auth.Select | apps/server/src/controllers/auth.ts:16-20 | the selection holds exactly the rows that match |
| Auth.Single | apps/server/src/controllers/auth.ts:20 | data is returned if and only if exactly one row matched; otherwise the no-rows error |
| Auth.Fetch | apps/server/src/controllers/auth.ts:87-93 | the lookup succeeds if and only if exactly one row matches, and returns a matching row of the table; otherwise it throws the no-rows `DatabaseError` |
| Auth.FetchFindsUnique | apps/server/src/controllers/auth.ts:87-93 | with unique keys, the lookup succeeds if and only if a matching row exists |
| Auth.AppendKeepsKeysUnique | apps/server/src/controllers/auth.ts:16-57 | a row whose id, username and email are all new keeps every key unique |
| Auth.AuthController.GenerateTokens | apps/server/src/controllers/auth.ts:197-211 | both tokens sign the same payload with the same secret at the same time; each token uses its own lifetime setting (`JWT_EXPIRES_IN`, `JWT_REFRESH_EXPIRES_IN`); `expiresIn` is the access lifetime |
| Auth.Lookup | apps/server/src/controllers/auth.ts:16-20 | a lookup whose error is discarded yields the row exactly when the query did not fail and exactly one row matched |
| Auth.ViolatedConstraint | apps/server/src/controllers/auth.ts:47-58 | an insert violates a key constraint exactly when its id, username or email is already in the table |
| Auth.AuthController.Register | apps/server/src/controllers/auth.ts:11-80 | invalid input is thrown; a username the lookup finds gives 400 before the email check; an email the lookup finds gives 400; a failed lookup reads as free, so the insert then meets the key constraints; an insert failure or key violation is thrown; nothing is inserted on any of these; success inserts exactly one row with the hashed password and answers 201 with that user's session; the stored credentials then log in; keys stay unique |
| Auth.AuthController.Login | apps/server/src/controllers/auth.ts:82-129 | invalid input is thrown; an unknown username is thrown as a database error and never reaches 401; a wrong password gives 401 "Invalid credentials"; a right one gives 200 with the session of that user |
| Auth.AuthController.Refresh | apps/server/src/controllers/auth.ts:131-161 | always a response, never passed on: a falsy field gives 400; 200 if and only if a token signed with the secret is presented unexpired, and then the new pair carries its claims; otherwise 401 "Invalid refresh token" |
| Auth.AuthController.Me | apps/server/src/controllers/auth.ts:163-195 | no or empty user id gives 401 "Not authenticated"; an unknown id is thrown; otherwise 200 with that user's profile |
| Auth.AuthController.LoginFindsRegisteredUser | apps/server/src/controllers/auth.ts:87-106 | in a valid table, login with a registered username always answers 200 or 401 |
| Auth.AuthController.LoginWithStoredPassword | apps/server/src/controllers/auth.ts:95-125 | the stored password of a row logs in, with that row's session |
| Auth.AuthController.MeFindsExistingUser | apps/server/src/controllers/auth.ts:174-180 | `me` with a non-empty id answers if and only if the id is in the table |
| Auth.AuthController.RefreshRoundTrip | apps/server/src/controllers/auth.ts:143-154 | an unexpired refresh token from `generateTokens` renews the same claims |
| Auth.AuthController.AccessTokenAlsoRefreshes | apps/server/src/controllers/auth.ts:198-204 | an unexpired access token is accepted as a refresh token too |
| CostCard.TotalCost | apps/web/components/cost-card.tsx:28 | absent or empty costs give 0, and non-negative costs give a non-negative total |
| CostCard.NonNegativeCostSum | apps/web/components/cost-card.tsx:28 | a sum of non-negative costs is non-negative |
| CostCard.TotalTokensIsRowSum | apps/web/components/cost-card.tsx:29-31 | the separate input and output reductions add up to the sum of each row's tokens |
| CostCard.Key | apps/web/components/cost-card.tsx:50 | the key is the service alone without a (truthy) model; otherwise the service followed by " (model)" |
| CostCard.KeyCanCollide | apps/web/components/cost-card.tsx:50 | two different rows can share a key |
| CostCard.Bump | apps/web/components/cost-card.tsx:54-56 | each of the group's cost, tokens and operations grows by the row's share |
| CostCard.AddRow | apps/web/components/cost-card.tsx:51-56 | one step keeps each key listed once and adds exactly the row's key |
| CostCard.Tallied | apps/web/components/cost-card.tsx:49-58 | the accumulator lists each of its keys once |
| CostCard.FirstIndex | apps/web/components/cost-card.tsx:49-58 | the position of the first row with a key, or the row count when none has it |
| CostCard.FirstIndexIsFirst | apps/web/components/cost-card.tsx:49-58 | no row before the first position of a key has that key |
| CostCard.TalliedOrder | apps/web/components/cost-card.tsx:49-58 | every listed key has a row, and the keys are listed in the order of their first rows |
| CostCard.TalliedKeys | apps/web/components/cost-card.tsx:49-58 | the accumulator has one group per distinct key of the rows, and no other |
| CostCard.EntriesOf | apps/web/components/cost-card.tsx:49-58 | one entry per accumulator key, in the order the keys were created, with its group |
| CostCard.IndexLinesAreIndices | apps/web/components/cost-card.tsx:60 | the array-index part holds only entries whose key is a canonical array index |
| CostCard.NamedLinesAreNames | apps/web/components/cost-card.tsx:60 | the other part holds only entries whose key is not an array index |
| CostCard.LinesSplit | apps/web/components/cost-card.tsx:60 | every entry goes to exactly one of the two parts |
| CostCard.InsertByIndex | apps/web/components/cost-card.tsx:60 | the result is in ascending index order and is the list plus the new entry |
| CostCard.SortByIndex | apps/web/components/cost-card.tsx:60 | the result is in ascending index order and is a permutation of the entries |
| CostCard.ObjectOrder | apps/web/components/cost-card.tsx:60 | `Object.entries` lists every entry exactly once: a permutation of the entries |
| CostCard.ObjectOrderLayout | apps/web/components/cost-card.tsx:60 | in `Object.entries` order the array-index keys come first, in ascending numeric order, and the other keys follow in creation order |
| CostCard.BreakdownConserves | apps/web/components/cost-card.tsx:49-58 | the groups' costs, tokens and operations sum to the rows' |
| CostCard.GroupSumPermutation | apps/web/components/cost-card.tsx:60-61 | a sum over entries does not depend on their order |
| CostCard.BreakdownTotals | apps/web/components/cost-card.tsx:28-60 | in `Object.entries` order before the slice, the operations sum to the number of rows, the costs to the total cost and the tokens to the total tokens |
| CostCard.InsertByCost | apps/web/components/cost-card.tsx:61 | the result is sorted by decreasing cost and is the list plus the new entry |
| CostCard.SortByCost | apps/web/components/cost-card.tsx:61 | the result is sorted by decreasing cost and is a permutation of the entries |
| CostCard.InsertByCostStable | apps/web/components/cost-card.tsx:61 | the inserted entry goes after every entry of its own cost |
| CostCard.SortByCostStable | apps/web/components/cost-card.tsx:61 | the sort is stable: for every cost, the entries of that cost keep their relative order |
| CostCard.SortByCostKeepsTies | apps/web/components/cost-card.tsx:61 | entries that all cost the same are left in their order |
| CostCard.BreakdownOf | apps/web/components/cost-card.tsx:46-63 | at most three entries, sorted by cost; none for absent or empty costs; otherwise as many as there are groups, up to three. It groups with the corrected accumulator, which also gives inherited names such as "constructor" their own group |
| CostCard.TopOfEntries | apps/web/components/cost-card.tsx:60-62 | listing, sorting by cost and keeping a prefix keeps only entries, and no entry left out costs more than one kept |
| CostCard.BreakdownIsTopThree | apps/web/components/cost-card.tsx:60-62 | every shown entry is a group of the rows, and every group left out costs no more than any shown |
| CostCard.BreakdownOfTies | apps/web/components/cost-card.tsx:60-62 | when all groups cost the same, the breakdown is the first three entries in `Object.entries` order |
| CostCard.ServiceBreakdown | apps/web/components/cost-card.tsx:46-63 | the accumulator loop, the `Object.entries` listing, the sort and the slice give exactly the breakdown. The loop uses the corrected accumulator, which also gives inherited names such as "constructor" their own group |
| CostCard.ShowsTokensIff | apps/web/components/cost-card.tsx:78 | the token line shows exactly when some row used an input or output token |
| CostCard.FormatCost | apps/web/components/cost-card.tsx:33-37 | "$0.00" exactly for 0; four decimals exactly below 0.01; two decimals otherwise |
| CostCard.FormatTokens | apps/web/components/cost-card.tsx:39-44 | a suffix exactly from 1000: "M" exactly from a million, otherwise "K"; the scaled amount times the scale is the count |
| CostCard.FormatTokensPlain | apps/web/components/cost-card.tsx:39-44 | below 1000 the count is shown as its decimal rendering, which reads back as the count |
| CostCard.MoreOperations | apps/web/components/cost-card.tsx:104-108 | the line shows exactly when there are more than three rows, with N = rows - 3 |
| CostCard.TalliedOneKey | apps/web/components/cost-card.tsx:49-58 | rows that share one key make one group |
| CostCard.MoreOperationsCountsRows | apps/web/components/cost-card.tsx:104-108 | N counts rows, not groups: four or more rows of one service show one group and "+(rows - 3) more" |
| CostCard.EmptyNoteAndBreakdownExclusive | apps/web/components/cost-card.tsx:86-114 | costs are absent or empty if and only if the breakdown is empty |
| CostCard.TalliedAsWritten | apps/web/components/cost-card.tsx:49-58 | the plain-object accumulator lists each key once |
| CostCard.AsWrittenDropsInheritedKeys | apps/web/components/cost-card.tsx:51-53 | a row keyed "constructor" leaves no entry, although its cost is part of the total |
| GraphViewer.NodeShape | apps/web/components/graph-viewer.tsx:105-118 | llm is round, decision a rhombus, data a subroutine, each exactly; tool and anything else a rectangle |
| GraphViewer.GenerateMermaidDiagram | apps/web/components/graph-viewer.tsx:88-103 | the two loops build the header, every node line in order, then every edge line in order; the text starts with "graph TD\n" |
| GraphViewer.NodeLinesAppend | apps/web/components/graph-viewer.tsx:92-95 | node lines follow the input order |
| GraphViewer.EdgeLinesAppend | apps/web/components/graph-viewer.tsx:98-100 | edge lines follow the input order |
| GraphViewer.DiagramAddNode | apps/web/components/graph-viewer.tsx:88-103 | a new node's line goes after the other node lines and before every edge line |
| GraphViewer.NodeLineCount | apps/web/components/graph-viewer.tsx:94 | a node without line breaks in its id and label makes exactly one line |
| GraphViewer.EdgeLineCount | apps/web/components/graph-viewer.tsx:99 | an edge without line breaks in its ids makes exactly one line |
| GraphViewer.NodeLinesCount | apps/web/components/graph-viewer.tsx:92-95 | the node part has one line per node |
| GraphViewer.EdgeLinesCount | apps/web/components/graph-viewer.tsx:98-100 | the edge part has one line per edge |
| GraphViewer.DiagramLineCount | apps/web/components/graph-viewer.tsx:88-103 | the diagram has 1 + nodes + edges lines, even when an edge names no node |
| GraphViewer.NodeStatusColor | apps/web/components/graph-viewer.tsx:120-133 | the gray card exactly for statuses other than the four known ones |
| GraphViewer.StatusBadgeColor | apps/web/components/graph-viewer.tsx:135-148 | the gray badge exactly for statuses other than the four known ones |
| GraphViewer.StatusCardColorsDistinct | apps/web/components/graph-viewer.tsx:120-133 | different known statuses get different card classes |
| GraphViewer.StatusBadgeColorsDistinct | apps/web/components/graph-viewer.tsx:135-148 | different known statuses get different badge classes |
| LogViewer.OnScroll | apps/web/components/log-viewer.tsx:23-29 | without a container nothing changes; otherwise the offset is the one the container reports, and the flag becomes whether that offset is within 10 pixels of the bottom |
| LogViewer.OnLogs | apps/web/components/log-viewer.tsx:17-21 | the flag never changes; a following, mounted viewer jumps to the content's end; otherwise nothing changes |
| LogViewer.ReplayConcat | apps/web/components/log-viewer.tsx:17-29 | replaying two series of events in turn is replaying their concatenation |
| LogViewer.AutoScrollKeepsFollowing | apps/web/components/log-viewer.tsx:17-28 | after an auto-scroll, the scroll it causes reports the end offset and, with the same dimensions, leaves the flag set and the view at the end |
| LogViewer.FlagChangesOnlyOnScroll | apps/web/components/log-viewer.tsx:17-29 | any series of log changes leaves the flag as it was |
| LogViewer.PausedViewStaysPut | apps/web/components/log-viewer.tsx:17-21 | once the flag is cleared, log changes never move the view |
| LogViewer.ScrollDecidesFollowing | apps/web/components/log-viewer.tsx:23-29 | after a scroll, the view is at the offset the container reports, and the viewer follows if and only if that offset is at the bottom |
| LogViewer.ScrollUpPauses | apps/web/components/log-viewer.tsx:17-29 | a scroll to more than 10 pixels above the end clears the flag, and any later log changes leave the view at that offset |
| LogViewer.ScrollToTopAfterAutoScroll | apps/web/components/log-viewer.tsx:17-29 | 1000 pixels of content in a 300-pixel view: after an auto-scroll, a user scroll to the top pauses following, and the next logs leave the view at the top |
| LogViewer.ScrollController.constructor | apps/web/components/log-viewer.tsx:15 | the viewer starts following |
| LogViewer.ScrollController.HandleScroll | apps/web/components/log-viewer.tsx:23-29 | the new state is the scroll step applied to the old one, with the offset the container reports |
| LogViewer.ScrollController.LogsEffect | apps/web/components/log-viewer.tsx:17-21 | the new state is the logs step applied to the old one |
| LogViewer.LevelColor | apps/web/components/log-viewer.tsx:31-44 | blue, yellow and red for info, warn and error; gray exactly for debug and any other text |
| LogViewer.LevelColorsOfLevels | apps/web/components/log-viewer.tsx:31-44 | among the levels, only debug is gray, and the other levels get different colours |
| LogViewer.Render | apps/web/components/log-viewer.tsx:56-116 | the spinner exactly while loading with no logs; otherwise the live banner exactly when live; the entry-count footer exactly when there are logs; the "No logs yet." note exactly when there is no footer |
| LogViewer.LoadedLogsNeverSpin | apps/web/components/log-viewer.tsx:56-62 | logs already shown stay shown while more load, with their count |

## Left out

- Database queries are not modelled: the Supabase client, the filters and `order`/`limit` of
  `GET /api/messages/:projectId`, and apps/web/lib/api.ts. Their results are parameters. The auth
  controller is the exception: its lookups are computed from the users table the model holds, and for
  `register` whether each lookup fails is a parameter.
- Auth.AuthController.Login: a lookup that fails for a reason other than "no rows" is not modelled. It
  would be thrown to the error handler like the no-rows error. The same holds for Auth.AuthController.Me.
- Schemas.ParseCreateUser, Schemas.ParseLogin, Schemas.ParseCreateProject, Schemas.ParseUpdateProject,
  Schemas.ParseCreateRun, Schemas.ParseCreateLog, Schemas.ParseCreateGraphNode,
  Schemas.ParseCreateGraphEdge, Schemas.ParseCreateCost, Schemas.ParsePagination and
  Schemas.ParseInterToolsMessage: each input field is either absent or a value of the type the schema
  expects. So a field of the wrong JSON type, an explicit `null` and a body that is not an object cannot
  be expressed. zod rejects all of these with an `invalid_type` issue.
- Schemas.StringField, InterTools.PreviewMessage and every other length: a Dafny `char` is a Unicode
  scalar value, so lengths count code points. JavaScript's `.length` and `slice` count UTF-16 code
  units, so a character outside the Basic Multilingual Plane counts 2 in the source and 1 here. Bounds
  and the 200-character cut agree with the source only on text inside the Basic Multilingual Plane.
- bcrypt and JWT are symbolic: no salts or algorithms. The `ms` parsing of lifetimes such as "1h" is a
  parameter.
- The check-then-insert race in `register`: the model is sequential and claims nothing about concurrent
  requests.
- Floating point: amounts are exact reals, and `toFixed` digits are not produced.
- The browser script that `/chat.js` serves, the DOM writes of the graph viewer, and `formatTimestamp`
  and the other locale formatting.
- Server and framework plumbing: Express and Next setup, middleware, logging calls, environment parsing.
- `DatabaseUtils.generateId`: it is random.
- The entity schemas (`userSchema`, `projectSchema`, ...), the integration and artifact create schemas and
  `sortSchema`: no modelled handler uses them.
- `DEFAULT_TIMEOUTS` and `INTEGRATION_TYPES`: plain constants that no modelled rule reads.
- zod's removal of undeclared keys: the raw input types have no such keys.
- packages/intertools/src/index.ts:262 (and 370) escape the backticks of a template literal outside any
  template, so the text as written is not valid TypeScript. The model uses the template string those lines
  evidently mean.
- Schemas.ParseCreateUser: states acceptance and the validated value. It does not state which fields the
  issues name or their order.
- Schemas.ParseLogin: does not state which fields the issues name.
- Schemas.ParseCreateProject: does not state which fields the issues name.
- Schemas.ParseUpdateProject: does not state which fields the issues name.
- Schemas.ParseCreateRun: does not state which fields the issues name.
- Schemas.ParseCreateLog: does not state which fields the issues name.
- Schemas.ParseCreateGraphNode: does not state which fields the issues name.
- Schemas.ParseCreateGraphEdge: does not state which fields the issues name.
- Schemas.ParseCreateCost: does not state which fields the issues name.
- Schemas.ParsePagination: does not state which fields the issues name.
- Schemas.ParseInterToolsMessage: does not state which fields the issues name.
- Schemas.FormatField: zod's email, url and uuid rules are oracles, not modelled.
- Js.ParseIntOfNatToString: `parseInt` is modelled for decimal text only. Hexadecimal prefixes, exponents
  and values beyond double precision are not modelled.
- Auth.Verify: the token's signature algorithm and clock skew are not modelled. A token is valid when its
  secret matches and `now` is before its expiry.
- Auth.AuthController.Login: bcrypt's 72-byte limit on passwords is not modelled. Comparison is exact
  equality of the password.
- CostCard.TotalCost: sums are exact. JavaScript's rounding of the running float sum is not modelled.
- CostCard.FormatCost: states which format is chosen, not its digits.
- CostCard.FormatTokens: states the suffix and the scaled amount, not the `toFixed(1)` digits.
- LogViewer.OnLogs: the browser clamps `scrollTop` to `scrollHeight - clientHeight`. The model stores
  `scrollHeight` as written.
- LogViewer.Render: states which parts show and how many rows. It does not model each row's content.

## Findings

| source | as written | input that shows it | evidently intended | confidence | as-written member | corrected member |
|---|---|---|---|---|---|---|
| apps/web/components/cost-card.tsx:49-58 | The breakdown accumulates into a plain object `{}` and creates an entry only when `!acc[key]`. A key that `Object.prototype` already defines, such as "constructor", is truthy at once. So no own entry is created, and the row's cost and tokens are added to the inherited value instead. `Object.entries` then does not show the row. | one cost row with service "constructor", no model, 10 + 5 tokens, cost 1.0: the total is 1.0 but the breakdown is empty | every row counted in exactly one breakdown entry (an accumulator without inherited keys), so the groups add up to the totals | not executed | CostCard.AsWrittenDropsInheritedKeys | CostCard.BreakdownConserves |
