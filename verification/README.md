# Lead distribution backend, modelled in Dafny

This project models the core of a small lead-management backend. An
administrator uploads a CSV, spreadsheet or JSON file of contacts. The upload
route decodes it into rows and maps each row to a lead: first name, phone and
notes. It then hands the leads out round-robin over the agent pool and saves
one list item per lead. Items can later be updated (status and priority) or
deleted. Agents are created through their own route, which refuses duplicate
emails and stores a hashed password. Listing the agents gives the pool an
upload distributes over.

Modules, leaf first:

- `Wrappers` (`wrappers.dfy`): `Option`, `Result` and the `ObjectId` type.
- `Text` (`text.dfy`): JavaScript's `includes` and the decimal rendering of a number.
- `UploadMiddleware` (`upload_middleware.dfy`): the MIME whitelist, the fixed `uploads/` directory and the stored-name rule.
- `ListItem` (`list_item.dfy`): the list-item schema, with required paths, enums, defaults and timestamps.
- `ListStore` (`list_store.dfy`): the item collection as a map, and the fan-out save of a batch.
- `AgentDirectory` (`agent_directory.dfy`): agent creation and listing.
- `Distributor` (`distributor.dfy`): the round-robin loop, its reference definition, the loop's wrap-around cursor, and the fairness result.
- `ListRoutes` (`list_routes.dfy`): MIME dispatch, row mapping, the upload handler, the handler behind the middleware, and PATCH and DELETE.

Abstractions:

- Decoded rows are maps from key to optional string. A missing key reads as `undefined`.
- The document store is a `map` from identifier to item, plus the next identifier to hand out. Every constructed document consumes an identifier, whether or not it validates.
- The password hash is a function parameter.
- The clock is a `now` parameter. One value serves the stored file name and the document timestamps of a request.
- Authentication is taken as always passing.

Behaviour of the code worth knowing when reading the model:

- There is no status or priority normaliser. PATCH writes the supplied strings verbatim, without schema validation. The schema's priority domain is Low/Medium/High with default Medium.
- The upload middleware accepts CSV, legacy Excel and modern Excel only; every other type is rejected by its filter.
- A successful upload answers status 200 with a message only.
- The middleware's filter runs before the handler. Through the route, a rejected file type therefore gets the filter's error even when there are no agents. The handler on its own refuses an empty pool before looking at the file; `HandleUpload` states the handler's order and `UploadRoute` the route's.
- A `.xls` file declared as `application/vnd.ms-excel` is dispatched to the CSV branch.
- The schema's `required` rejects an empty string as well as a missing value.

## Model

| member | source | states |
|---|---|---|
| Text.Includes | backend/routes/listRoutes.js:36 | the substring test is true exactly when the needle occurs at some position of the MIME type |
| Text.DecimalString | backend/middleware/upload.js:6 | the upload time renders as a non-empty digit string with no leading zero |
| Text.ParseDecimalInvertsDecimalString | backend/middleware/upload.js:6 | reading the rendered upload time back gives the time |
| Text.FirstIndexOf | backend/middleware/upload.js:6 | a helper for splitting a stored name back into its parts in the round-trip lemma: it finds the first dash, with no dash before it |
| UploadMiddleware.FileFilter | backend/middleware/upload.js:10-20 | a MIME type passes exactly when it is one of the three whitelisted types; any other fails with the fixed error message |
| UploadMiddleware.JsonRejected | backend/middleware/upload.js:11-18 | `application/json` is rejected by the filter |
| UploadMiddleware.StoredName | backend/middleware/upload.js:6 | the stored name ends with the original name, preceded by a dash and only digits before that |
| UploadMiddleware.StoredNameRoundTrip | backend/middleware/upload.js:6 | splitting a stored name at its first dash recovers the upload time and the full original name, even if that name holds dashes |
| ListItem.Validate | backend/models/listItem.js:3-23 | a document is saved exactly when first name and phone are non-empty and status and priority, after defaults, lie in their enums; the saved item conforms to the schema, keeps the given fields, defaults an unset status to Pending and priority to Medium, and stamps both times; a supplied status or priority is stored as given; a rejection is non-empty and names a path exactly when that path fails (required first name or phone, status or priority outside its enum) |
| ListItem.OmittedEnumsTakeDefaults | backend/models/listItem.js:11-20 | a document with required paths set and no status or priority is stored as Pending and Medium |
| ListStore.Save | backend/routes/listRoutes.js:122-126 | a save consumes one identifier, writes the document exactly when it validates, and changes no stored document |
| ListStore.SaveAll | backend/routes/listRoutes.js:120-130 | a batch save consumes one identifier per draft and keeps every earlier document unchanged |
| ListStore.SaveAllWritesValidDrafts | backend/routes/listRoutes.js:120-130 | after a batch save, draft i is stored at identifier nextId+i exactly when it validates, nothing outside that range is added, and the batch reports success exactly when every draft validated |
| ListStore.SaveAllNewKeysInBlock | backend/routes/listRoutes.js:120-130 | a batch save adds no identifier outside the block nextId .. nextId+N-1 it reserved |
| ListStore.SaveAllSlots | backend/routes/listRoutes.js:120-130 | identifier nextId+i holds draft i's validated document exactly when draft i validates, whether or not other drafts failed |
| ListStore.SaveAllReportsAllValid | backend/routes/listRoutes.js:126-130 | the awaited batch reports success exactly when every draft validated |
| AgentDirectory.FindByEmail | backend/routes/agentRoutes.js:14 | the email lookup finds an agent exactly when one with that email is stored |
| AgentDirectory.FreshId | backend/routes/agentRoutes.js:20-21 | a new agent's identifier differs from every stored one |
| AgentDirectory.CreateAgent | backend/routes/agentRoutes.js:9-27 | a known email is refused with "Agent already exists" and the directory unchanged; otherwise exactly one agent with the given name, email, mobile and the hash of the password is appended |
| AgentDirectory.CreatePreservesWellFormed | backend/routes/agentRoutes.js:14-21 | one creation keeps emails and identifiers pairwise distinct |
| AgentDirectory.CreateAllPreservesWellFormed | backend/routes/agentRoutes.js:14-21 | any run of sequential creations keeps emails and identifiers pairwise distinct |
| AgentDirectory.CreatedAgentJoinsPool | backend/routes/agentRoutes.js:9-37 | after a creation the listed pool (`ListAgents`, the agent listing of lines 32-33) is the earlier pool followed by the new agent |
| Distributor.CursorStep | backend/routes/listRoutes.js:127 | advancing the cursor modulo the pool size keeps it equal to the item index modulo the pool size |
| Distributor.DistributeAndSave | backend/routes/listRoutes.js:116-131 | the loop builds one document per lead, in order, lead i carrying agent i mod M (`NewListItem`: the lead's fields plus the agent, lines 122-125); it saves exactly as the batch save does |
| Distributor.Cursor | backend/routes/listRoutes.js:117-127 | the loop's agent cursor, advanced by one and wrapped to 0 at the pool size, always names an agent of the pool (stays below M) |
| Distributor.CursorCountsModulo | backend/routes/listRoutes.js:117-127 | after i leads the cursor is i mod M and it has wrapped i div M times |
| Distributor.PrefixLoad | backend/routes/listRoutes.js:117-127 | when lead i goes to agent k exactly when the cursor stood at k, the first n leads give agent k one lead per completed pass plus one if the current pass is past k |
| Distributor.PrefixLoadStep | backend/routes/listRoutes.js:121-127 | one more lead raises agent k's count by one exactly when the cursor stood at k for it, which keeps the per-pass count exact |
| Distributor.RoundRobinFair | backend/routes/listRoutes.js:117-127 | agent k receives N div M leads plus one exactly when k < N mod M, so each agent gets the floor or the ceiling of N/M |
| ListRoutes.CsvLead | backend/routes/listRoutes.js:28-32 | the CSV mapping reads FirstName, Phone and Notes; its partner `CsvIgnoresOtherKeys` shows no other column matters |
| ListRoutes.CsvIgnoresOtherKeys | backend/routes/listRoutes.js:28-32 | for every row, setting any column other than FirstName, Phone or Notes (a lower-case alias included) leaves the CSV lead unchanged: the CSV path has no alias fallback |
| ListRoutes.AliasLead | backend/routes/listRoutes.js:40-53 | on the spreadsheet and JSON paths each capitalised key wins when truthy; a missing, null or empty one falls through to its lower-case alias |
| ListRoutes.CsvHasNoAliasFallback | backend/routes/listRoutes.js:28-53 | a row with only the `name` alias has no first name on the CSV path and keeps it on the other paths |
| ListRoutes.JsonHasNoSheet | backend/routes/listRoutes.js:36-47 | the JSON type does not contain "sheet", so it reaches the JSON branch |
| ListRoutes.Classify | backend/routes/listRoutes.js:22-57 | the two CSV types go to the CSV branch; otherwise a type containing "sheet" goes to the spreadsheet branch; otherwise exactly the JSON type goes to the JSON branch; all else is unsupported |
| ListRoutes.UploadBatch | backend/routes/listRoutes.js:33-54 | distributing an upload keeps every earlier document unchanged |
| ListRoutes.UploadBatchAssignsPoolAgents | backend/routes/listRoutes.js:120-126 | every document an upload writes is assigned to an agent of the pool |
| ListRoutes.UploadDrafts | backend/routes/listRoutes.js:28-53 | an upload builds one document per row: row i mapped on its branch with agent i mod M |
| ListRoutes.UploadBatchSucceeds | backend/routes/listRoutes.js:120-130 | a batch succeeds exactly when every row's document validates, and then document i is row i's validated document |
| ListRoutes.UploadBatchReportsAllValid | backend/routes/listRoutes.js:120-130 | an upload batch reports success exactly when the document of every row validates |
| ListRoutes.UploadBatchDistributes | backend/routes/listRoutes.js:120-130 | a successful upload batch stores row i's validated document, with agent i mod M, at identifier nextId+i, and nothing outside that block |
| ListRoutes.UploadBatchWritesValidRows | backend/routes/listRoutes.js:120-130 | whatever the batch reports, identifier nextId+i holds row i's validated document exactly when row i validates, even when other rows fail, and nothing is added outside nextId..nextId+N-1 |
| ListRoutes.HandleUpload | backend/routes/listRoutes.js:15-63 | an empty pool gets "No agents available" before the file is inspected, with nothing saved; a missing file throws; an unsupported type gets "Unsupported file format" with nothing saved; otherwise rows are distributed round-robin; success exactly when all rows validate; when some row fails a CSV request gets no reply and a spreadsheet or JSON request gets a 500, and those replies occur only on those branches; either way row i's valid document is at nextId+i and nothing lands outside that block; nothing earlier changes |
| ListRoutes.UploadRoute | backend/routes/listRoutes.js:15-18 | behind the middleware a rejected type gets the filter error with nothing stored, even with no agents; a missing or accepted file gets exactly the handler's reply and store, with the listed agents as the pool; an accepted file is stored as `uploads/` plus its stored name; "Unsupported file format" is never answered |
| ListRoutes.AcceptedTypesReachCsvOrSpreadsheet | backend/middleware/upload.js:11-16 | every whitelisted type is dispatched to the CSV or the spreadsheet branch |
| ListRoutes.FilteredFileIsSupported | backend/middleware/upload.js:10-20 | a file that passed the filter is never classified unsupported |
| ListRoutes.DistributedDocument | backend/routes/listRoutes.js:120-127 | in a successful upload, the document of row i is at nextId+i with agent i mod M, Pending and Medium |
| ListRoutes.DistributedBlock | backend/routes/listRoutes.js:120-130 | a successful upload of N rows adds exactly the identifiers nextId..nextId+N-1 |
| ListRoutes.DistributedDocuments | backend/routes/listRoutes.js:120-127 | a successful upload of N rows adds exactly identifiers nextId..nextId+N-1; the document at nextId+i belongs to agent i mod M and starts as Pending and Medium |
| ListRoutes.EmptyUploadWritesNothing | backend/routes/listRoutes.js:40-46 | an upload with zero rows succeeds and writes nothing |
| ListRoutes.ThreeRowCsvUploadSucceeds | backend/routes/listRoutes.js:22-35 | a valid three-row CSV upload to two agents succeeds and distributes every row |
| ListRoutes.ThreeRowsPlacement | backend/routes/listRoutes.js:117-127 | three rows distributed over two agents into an empty store land at identifiers 0, 1, 2 with agents 0, 1, 0, all Pending and Medium |
| ListRoutes.ThreeRowsTwoAgents | backend/routes/listRoutes.js:22-35 | three CSV rows with two agents go to agents 0, 1, 0 as three Pending, Medium documents |
| ListRoutes.PatchItem | backend/routes/listRoutes.js:82-97 | an unknown id is "Task not found" and changes nothing; otherwise only supplied status and priority are overwritten, verbatim; name, phone, notes, agent and creation time are kept and the update time refreshed |
| ListRoutes.PatchConformsIffSuppliedValuesInEnums | backend/routes/listRoutes.js:84-88 | an update keeps a conforming document within the schema exactly when the values it supplies lie in the enums |
| ListRoutes.PatchStoresUnnormalisedStatus | backend/routes/listRoutes.js:84-88 | updating with status "completed" stores it as given, so the document leaves the schema's enum |
| ListRoutes.DeleteItem | backend/routes/listRoutes.js:102-111 | an unknown id is "Task not found" and changes nothing; otherwise exactly that document is removed and returned, and every other one is kept |
| ListRoutes.DeleteThenNotFound | backend/routes/listRoutes.js:104-105 | after a delete, deleting or updating the same id is not found |

## Left out

- `backend/server.js`: framework wiring, environment configuration and the database connection; no logic.
- `backend/routes/uploadRoutes.js`: a directory listing and a metadata echo, pure filesystem I/O.
- The GET route for list items (`backend/routes/listRoutes.js:68-77`): the join to agent names and the newest-first sort are store features.
- Decoding by the CSV parser, the spreadsheet reader and `JSON.parse` is not modelled. The file carries its decoded rows. Parse failures and non-string cell values are outside the model: spreadsheets and JSON may give numbers, and a numeric 0 is falsy.
- Promise.all completion order, and the moment the response is sent, are not modelled. The model gives the final store and the reported outcome only. Which rejection is reported is not modelled either.
- On the CSV branch the save runs in a stream callback. A failure there escapes the handler's error handling, and no reply is sent.
- ListRoutes.HandleUpload: on a CSV upload whose batch fails, the rejection of the async stream listener (backend/routes/listRoutes.js:27-35) is unhandled, and no handler for it is installed (backend/server.js). From Node 15 on this ends the server process. The model assumes every save already started still completes, so its store after a failed CSV batch (every valid row written) holds only if the process outlives the pending saves.
- AgentDirectory.CreatedAgentJoinsPool: the agent listing (`Agent.find()` with no sort, backend/routes/agentRoutes.js:32 and backend/routes/listRoutes.js:17) is taken to return agents in creation order. MongoDB does not guarantee that order, so which agent receives lead 0, and that a new agent comes last in the pool, rest on this assumption.
- Password hashing is a function parameter; salting and hashing errors are left out.
- The auth middleware is not part of this model; every request is taken as authenticated.
- `backend/models/agent.js` is not part of this model. Agent documents are taken to always save, since that schema's validators are unknown.
- Request bodies are taken to carry their fields as strings. Missing or null fields in an agent creation, and null or non-string PATCH values, are outside the model.
- Malformed identifiers, which make the store throw a cast error, are outside the model: identifiers are naturals.
- The response body of the framework's default error handler is not modelled; only status 500 and the error are.
- Distributor.DistributeAndSave: requires a non-empty pool. Its only caller refuses an empty pool first; with an empty pool and at least one lead, the source would throw reading the agent's id.
- ListRoutes.PatchItem: keeping a field the request did not supply assumes a Mongoose version (6 or later) that drops undefined keys from an update; the library version is not fixed in the code shown, and under Mongoose 5 an unsupplied status or priority would be written as null.
