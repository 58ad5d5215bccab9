/**
 * The list routes: the upload handler (agent-pool check, MIME dispatch, row
 * mapping, distribution), the same handler behind the upload middleware, and
 * the update and delete routes for a single item.
 */
module ListRoutes {
  import opened Wrappers
  import opened Text
  import opened ListItem
  import opened ListStore
  import opened AgentDirectory
  import opened Distributor
  import UploadMiddleware

  const NoAgentsAvailable: string := "No agents available"
  const UnsupportedFileFormat: string := "Unsupported file format"
  const Distributed: string := "File uploaded & distributed successfully"
  const TaskNotFound: string := "Task not found"
  const JsonMime: string := "application/json"

  /** A decoded row: column or property name to value, `None` for a null value. */
  type Row = map<string, Option<string>>

  /** Property access `row.key`: a missing key reads as undefined. */
  function Get(row: Row, key: string): Option<string> {
    if key in row then row[key] else None
  }

  /** JavaScript truthiness of a string-or-undefined value. */
  predicate Truthy(v: Option<string>) {
    v.Some? && v.value != ""
  }

  /** JavaScript's `a || b`: `a` when truthy, otherwise `b`, whatever `b` is. */
  function Or(a: Option<string>, b: Option<string>): Option<string> {
    if Truthy(a) then a else b
  }

  /** The CSV row mapping reads only the capitalised columns; there is no fallback. */
  function CsvLead(row: Row): (lead: Lead)
    ensures lead.firstName == Get(row, "FirstName")
    ensures lead.phone == Get(row, "Phone")
    ensures lead.notes == Get(row, "Notes")
  {
    Lead(Get(row, "FirstName"), Get(row, "Phone"), Get(row, "Notes"))
  }

  /**
   * The spreadsheet and JSON row mapping: each capitalised key wins when its
   * value is truthy; otherwise (missing, null or empty) the lower-case alias
   * is used, and may itself be missing.
   */
  function AliasLead(row: Row): (lead: Lead)
    ensures Truthy(Get(row, "FirstName")) ==> lead.firstName == Get(row, "FirstName")
    ensures !Truthy(Get(row, "FirstName")) ==> lead.firstName == Get(row, "name")
    ensures Truthy(Get(row, "Phone")) ==> lead.phone == Get(row, "Phone")
    ensures !Truthy(Get(row, "Phone")) ==> lead.phone == Get(row, "phone")
    ensures Truthy(Get(row, "Notes")) ==> lead.notes == Get(row, "Notes")
    ensures !Truthy(Get(row, "Notes")) ==> lead.notes == Get(row, "notes")
  {
    Lead(Or(Get(row, "FirstName"), Get(row, "name")),
         Or(Get(row, "Phone"), Get(row, "phone")),
         Or(Get(row, "Notes"), Get(row, "notes")))
  }

  /** A row with only alias keys loses its first name on the CSV path and keeps it on the other paths. */
  lemma CsvHasNoAliasFallback()
    ensures var row := map["name" := Some("Ann"), "Phone" := Some("555")];
      && CsvLead(row).firstName == None
      && AliasLead(row).firstName == Some("Ann")
      && CsvLead(row).phone == AliasLead(row).phone == Some("555")
  {
    var row := map["name" := Some("Ann"), "Phone" := Some("555")];
    assert "FirstName" !in row;
  }

  /** The CSV row mapping depends on the three capitalised columns only: any other column, aliases included, is ignored. */
  lemma CsvIgnoresOtherKeys(row: Row, k: string, v: Option<string>)
    requires k !in {"FirstName", "Phone", "Notes"}
    ensures CsvLead(row[k := v]) == CsvLead(row)
  {
  }

  /** The handler's branches, in the order it tests them. */
  datatype Format = Csv | Spreadsheet | JsonArray | Unsupported

  /**
   * MIME dispatch: the two CSV types first, then any type containing "sheet",
   * then exactly the JSON type; everything else is unsupported.
   */
  function Classify(mimetype: string): (f: Format)
    ensures f == Csv <==> mimetype == UploadMiddleware.CsvMime || mimetype == UploadMiddleware.LegacyExcelMime
    ensures f == Spreadsheet <==>
      && mimetype != UploadMiddleware.CsvMime && mimetype != UploadMiddleware.LegacyExcelMime
      && exists i :: OccursAt(mimetype, "sheet", i)
    ensures f == JsonArray <==> mimetype == JsonMime
    ensures f == Unsupported <==>
      && mimetype !in {UploadMiddleware.CsvMime, UploadMiddleware.LegacyExcelMime, JsonMime}
      && forall i :: !OccursAt(mimetype, "sheet", i)
  {
    if mimetype == UploadMiddleware.CsvMime || mimetype == UploadMiddleware.LegacyExcelMime then
      Csv
    else if Includes(mimetype, "sheet") then
      JsonHasNoSheet();
      Spreadsheet
    else if mimetype == JsonMime then
      assert !OccursAt(mimetype, "sheet", 0);
      JsonArray
    else
      Unsupported
  }

  lemma JsonHasNoSheet()
    ensures forall i :: !OccursAt(JsonMime, "sheet", i)
  {
    var head := JsonMime[..12];
    assert head == "application/";
    assert 's' !in head;
    forall i
      ensures !OccursAt(JsonMime, "sheet", i)
    {
      if 0 <= i && i + 5 <= |JsonMime| {
        assert JsonMime[i] == head[i];
        assert JsonMime[i..i + 5][0] == JsonMime[i];
      }
    }
  }

  /** The lead a decoded row becomes on the given branch. */
  function LeadOf(format: Format, row: Row): Lead {
    if format == Csv then CsvLead(row) else AliasLead(row)
  }

  function Leads(format: Format, rows: seq<Row>): seq<Lead> {
    seq(|rows|, i requires 0 <= i < |rows| => LeadOf(format, rows[i]))
  }

  /** An uploaded file: its declared type, its client-side name, and the rows its format's decoder yields. */
  datatype UploadedFile = UploadedFile(mimetype: string, originalName: string, rows: seq<Row>)

  /** An exception that ends a request. */
  datatype Failure =
    | FileUndefined          // reading the type of a missing file
    | ValidationFailed       // a document of the batch failed schema validation
    | UploadRejected(message: string)  // the upload middleware's filter error

  /** What the client receives: a JSON message, an error, or nothing at all. */
  datatype Response = Json(status: nat, message: string) | ErrorReply(status: nat, error: Failure) | NoReply

  /** Document `i` of a successful upload: row `i` mapped on its branch, assigned to agent `i mod M`, validated. */
  ghost predicate Distributes(before: Store, after: Store, format: Format, rows: seq<Row>, pool: seq<Agent>, now: nat)
    requires |pool| > 0
  {
    && (forall k :: k in after.items && k !in before.items ==> before.nextId <= k < before.nextId + |rows|)
    && forall i {:trigger rows[i]} :: 0 <= i < |rows| ==>
      && before.nextId + i in after.items
      && Validate(NewListItem(LeadOf(format, rows[i]), pool[i % |pool|].id), now).Ok?
      && after.items[before.nextId + i]
        == Validate(NewListItem(LeadOf(format, rows[i]), pool[i % |pool|].id), now).value
  }

  /** Every row of the upload yields a document that passes schema validation. */
  ghost predicate AllRowsValid(format: Format, rows: seq<Row>, pool: seq<Agent>, now: nat)
    requires |pool| > 0
  {
    forall i :: 0 <= i < |rows| ==> Validate(NewListItem(LeadOf(format, rows[i]), pool[i % |pool|].id), now).Ok?
  }

  /**
   * What an upload batch writes, whatever it reports: nothing outside the
   * reserved block, and at `nextId + i` row `i`'s validated document exactly
   * when that row validates.
   */
  ghost predicate WritesValidRows(before: Store, after: Store, format: Format, rows: seq<Row>, pool: seq<Agent>, now: nat)
    requires |pool| > 0
  {
    && (forall k :: k in after.items && k !in before.items ==> before.nextId <= k < before.nextId + |rows|)
    && forall i {:trigger rows[i]} :: 0 <= i < |rows| ==>
      && (before.nextId + i in after.items <==>
          Validate(NewListItem(LeadOf(format, rows[i]), pool[i % |pool|].id), now).Ok?)
      && (Validate(NewListItem(LeadOf(format, rows[i]), pool[i % |pool|].id), now).Ok? ==>
          after.items[before.nextId + i] == Validate(NewListItem(LeadOf(format, rows[i]), pool[i % |pool|].id), now).value)
  }

  /** Distributing and saving the rows of one upload on the given branch. */
  function UploadBatch(pool: seq<Agent>, format: Format, rows: seq<Row>, store: Store, now: nat): (r: (Store, bool))
    requires |pool| > 0 && Valid(store)
    ensures Valid(r.0) && AppendOnly(store, r.0)
  {
    SaveAll(store, RoundRobin(Leads(format, rows), pool), now)
  }

  /** Every document an upload writes is assigned to an agent of the pool. */
  lemma UploadBatchAssignsPoolAgents(pool: seq<Agent>, format: Format, rows: seq<Row>, store: Store, now: nat)
    requires |pool| > 0 && Valid(store)
    ensures forall k :: k in UploadBatch(pool, format, rows, store, now).0.items && k !in store.items ==>
      exists a :: a in pool && UploadBatch(pool, format, rows, store, now).0.items[k].agent == Some(a.id)
  {
    var drafts := RoundRobin(Leads(format, rows), pool);
    var after := UploadBatch(pool, format, rows, store, now).0;
    SaveAllNewKeysInBlock(store, drafts, now);
    SaveAllSlots(store, drafts, now);
    forall k | k in after.items && k !in store.items
      ensures exists a :: a in pool && after.items[k].agent == Some(a.id)
    {
      var i := k - store.nextId;
      assert 0 <= i < |drafts|;
      assert store.nextId + i == k;
      var a := pool[i % |pool|];
      assert a in pool;
      assert after.items[k].agent == drafts[i].agent == Some(a.id);
    }
  }

  /** The documents an upload builds: row `i` mapped on its branch and assigned to agent `i mod M`. */
  lemma UploadDrafts(pool: seq<Agent>, format: Format, rows: seq<Row>)
    requires |pool| > 0
    ensures |RoundRobin(Leads(format, rows), pool)| == |rows|
    ensures forall i :: 0 <= i < |rows| ==>
      RoundRobin(Leads(format, rows), pool)[i] == NewListItem(LeadOf(format, rows[i]), pool[i % |pool|].id)
  {
  }

  /** An upload batch reports success exactly when every row's document validates. */
  lemma UploadBatchReportsAllValid(pool: seq<Agent>, format: Format, rows: seq<Row>, store: Store, now: nat)
    requires |pool| > 0 && Valid(store)
    ensures UploadBatch(pool, format, rows, store, now).1 <==>
      AllRowsValid(format, rows, pool, now)
  {
    var drafts := RoundRobin(Leads(format, rows), pool);
    UploadDrafts(pool, format, rows);
    SaveAllReportsAllValid(store, drafts, now);
  }

  /** A successful upload batch writes exactly the documents of its rows, each at its own identifier. */
  lemma UploadBatchDistributes(pool: seq<Agent>, format: Format, rows: seq<Row>, store: Store, now: nat)
    requires |pool| > 0 && Valid(store)
    ensures UploadBatch(pool, format, rows, store, now).1 ==>
      Distributes(store, UploadBatch(pool, format, rows, store, now).0, format, rows, pool, now)
  {
    var drafts := RoundRobin(Leads(format, rows), pool);
    UploadDrafts(pool, format, rows);
    SaveAllNewKeysInBlock(store, drafts, now);
    SaveAllSlots(store, drafts, now);
    SaveAllReportsAllValid(store, drafts, now);
  }

  /** An upload batch succeeds exactly when every row's document validates, and then writes exactly those documents. */
  lemma UploadBatchSucceeds(pool: seq<Agent>, format: Format, rows: seq<Row>, store: Store, now: nat)
    requires |pool| > 0 && Valid(store)
    ensures UploadBatch(pool, format, rows, store, now).1 <==>
      AllRowsValid(format, rows, pool, now)
    ensures UploadBatch(pool, format, rows, store, now).1 ==>
      Distributes(store, UploadBatch(pool, format, rows, store, now).0, format, rows, pool, now)
  {
    UploadBatchReportsAllValid(pool, format, rows, store, now);
    UploadBatchDistributes(pool, format, rows, store, now);
  }

  /**
   * Whatever the batch reports, the document of every valid row is written at
   * its own identifier, no other row's is, and nothing lands outside the block.
   */
  lemma UploadBatchWritesValidRows(pool: seq<Agent>, format: Format, rows: seq<Row>, store: Store, now: nat)
    requires |pool| > 0 && Valid(store)
    ensures forall k :: k in UploadBatch(pool, format, rows, store, now).0.items && k !in store.items ==>
      store.nextId <= k < store.nextId + |rows|
    ensures forall i :: 0 <= i < |rows| ==>
      (store.nextId + i in UploadBatch(pool, format, rows, store, now).0.items <==>
        Validate(NewListItem(LeadOf(format, rows[i]), pool[i % |pool|].id), now).Ok?)
    ensures forall i :: 0 <= i < |rows| && Validate(NewListItem(LeadOf(format, rows[i]), pool[i % |pool|].id), now).Ok? ==>
      UploadBatch(pool, format, rows, store, now).0.items[store.nextId + i]
        == Validate(NewListItem(LeadOf(format, rows[i]), pool[i % |pool|].id), now).value
  {
    var drafts := RoundRobin(Leads(format, rows), pool);
    UploadDrafts(pool, format, rows);
    SaveAllNewKeysInBlock(store, drafts, now);
    SaveAllSlots(store, drafts, now);
  }

  /**
   * The upload handler, given the agent pool it read, the uploaded file (if
   * any), the item store and the clock. An empty pool is refused before the
   * file is looked at; a missing file then throws; an unsupported type is
   * refused; otherwise every row is distributed round-robin and saved. A
   * failed save answers with an error on the spreadsheet and JSON branches
   * and leaves the request unanswered on the CSV branch, where the save runs
   * in a stream callback outside the handler's error handling.
   */
  function HandleUpload(pool: seq<Agent>, file: Option<UploadedFile>, store: Store, now: nat): (out: (Response, Store))
    requires Valid(store)
    ensures |pool| == 0 ==> out == (Json(400, NoAgentsAvailable), store)
    ensures |pool| > 0 && file.None? ==> out == (ErrorReply(500, FileUndefined), store)
    ensures |pool| > 0 && file.Some? && Classify(file.value.mimetype) == Unsupported ==>
      out == (Json(400, UnsupportedFileFormat), store)
    ensures Valid(out.1) && AppendOnly(store, out.1)
    ensures forall k :: k in out.1.items && k !in store.items ==>
      exists a :: a in pool && out.1.items[k].agent == Some(a.id)
    ensures out.0 == Json(200, Distributed) ==>
      && |pool| > 0 && file.Some? && Classify(file.value.mimetype) != Unsupported
      && Distributes(store, out.1, Classify(file.value.mimetype), file.value.rows, pool, now)
    ensures |pool| > 0 && file.Some? && Classify(file.value.mimetype) != Unsupported ==>
      (out.0 == Json(200, Distributed) <==> AllRowsValid(Classify(file.value.mimetype), file.value.rows, pool, now))
    ensures (&& |pool| > 0 && file.Some? && Classify(file.value.mimetype) == Csv
             && !AllRowsValid(Csv, file.value.rows, pool, now)) ==>
      out.0 == NoReply
    ensures (&& |pool| > 0 && file.Some? && Classify(file.value.mimetype) in {Spreadsheet, JsonArray}
             && !AllRowsValid(Classify(file.value.mimetype), file.value.rows, pool, now)) ==>
      out.0 == ErrorReply(500, ValidationFailed)
    ensures out.0 == NoReply ==> file.Some? && Classify(file.value.mimetype) == Csv
    ensures out.0 == ErrorReply(500, ValidationFailed) ==>
      file.Some? && Classify(file.value.mimetype) in {Spreadsheet, JsonArray}
    ensures |pool| > 0 && file.Some? && Classify(file.value.mimetype) != Unsupported ==>
      WritesValidRows(store, out.1, Classify(file.value.mimetype), file.value.rows, pool, now)
  {
    if |pool| == 0 then
      (Json(400, NoAgentsAvailable), store)
    else if file.None? then
      (ErrorReply(500, FileUndefined), store)
    else
      var format := Classify(file.value.mimetype);
      if format == Unsupported then
        (Json(400, UnsupportedFileFormat), store)
      else
        var batch := UploadBatch(pool, format, file.value.rows, store, now);
        UploadBatchAssignsPoolAgents(pool, format, file.value.rows, store, now);
        UploadBatchSucceeds(pool, format, file.value.rows, store, now);
        UploadBatchWritesValidRows(pool, format, file.value.rows, store, now);
        var reply :=
          if batch.1 then Json(200, Distributed)
          else if format == Csv then NoReply
          else ErrorReply(500, ValidationFailed);
        (reply, batch.0)
  }

  /** The result of the upload route, including where the middleware stored the file. */
  datatype RouteOutcome = RouteOutcome(response: Response, store: Store, storedPath: Option<string>)

  /**
   * The upload route: the middleware's filter runs before the handler, so a
   * rejected type fails with the filter's error even when there are no
   * agents, and nothing is stored. An accepted file is stored under the fixed
   * directory, whatever the handler then answers. The pool is the listing of
   * the agent directory.
   */
  function UploadRoute(dir: Directory, file: Option<UploadedFile>, store: Store, now: nat): (out: RouteOutcome)
    requires Valid(store)
    ensures file.Some? && file.value.mimetype !in UploadMiddleware.AcceptedMimes ==>
      out == RouteOutcome(ErrorReply(500, UploadRejected(UploadMiddleware.FilterRejection)), store, None)
    ensures file.Some? && file.value.mimetype in UploadMiddleware.AcceptedMimes ==>
      out.storedPath == Some(UploadMiddleware.Destination + UploadMiddleware.StoredName(now, file.value.originalName))
    ensures |dir| == 0 && (file.None? || file.value.mimetype in UploadMiddleware.AcceptedMimes) ==>
      out.response == Json(400, NoAgentsAvailable) && out.store == store
    ensures file.None? || file.value.mimetype in UploadMiddleware.AcceptedMimes ==>
      (out.response, out.store) == HandleUpload(ListAgents(dir), file, store, now)
    ensures out.storedPath.Some? <==> file.Some? && file.value.mimetype in UploadMiddleware.AcceptedMimes
    ensures out.response != Json(400, UnsupportedFileFormat)
    ensures Valid(out.store) && AppendOnly(store, out.store)
  {
    if file.Some? && UploadMiddleware.FileFilter(file.value.mimetype).Reject? then
      RouteOutcome(ErrorReply(500, UploadRejected(UploadMiddleware.FileFilter(file.value.mimetype).message)), store, None)
    else
      FilteredFileIsSupported(file);
      var handled := HandleUpload(ListAgents(dir), file, store, now);
      var path := if file.Some? then
          Some(UploadMiddleware.Destination + UploadMiddleware.StoredName(now, file.value.originalName))
        else None;
      RouteOutcome(handled.0, handled.1, path)
  }

  /** Every type the filter accepts is dispatched to the CSV or the spreadsheet branch. */
  lemma AcceptedTypesReachCsvOrSpreadsheet(mimetype: string)
    requires UploadMiddleware.FileFilter(mimetype).Accept?
    ensures Classify(mimetype) == Csv || Classify(mimetype) == Spreadsheet
  {
    if mimetype == UploadMiddleware.XlsxMime {
      assert OccursAt(mimetype, "sheet", 60);
    }
  }

  lemma FilteredFileIsSupported(file: Option<UploadedFile>)
    requires file.None? || UploadMiddleware.FileFilter(file.value.mimetype).Accept?
    ensures file.Some? ==> Classify(file.value.mimetype) != Unsupported
  {
    if file.Some? {
      AcceptedTypesReachCsvOrSpreadsheet(file.value.mimetype);
    }
  }

  /**
   * Updating status and priority: an unknown id is not found and changes
   * nothing; otherwise only the supplied fields are overwritten, verbatim
   * and without schema validation, and the update time is refreshed.
   */
  function PatchItem(store: Store, id: ObjectId, status: Option<string>, priority: Option<string>, now: nat)
    : (r: (Result<Item, string>, Store))
    ensures r.0.Err? <==> id !in store.items
    ensures r.0.Err? ==> r.0.error == TaskNotFound && r.1 == store
    ensures r.0.Ok? ==> r.1 == Store(store.items[id := r.0.value], store.nextId)
    ensures r.0.Ok? ==>
      var before := store.items[id];
      && r.0.value.firstName == before.firstName
      && r.0.value.phone == before.phone
      && r.0.value.notes == before.notes
      && r.0.value.agent == before.agent
      && r.0.value.createdAt == before.createdAt
      && r.0.value.status == (if status.Some? then status.value else before.status)
      && r.0.value.priority == (if priority.Some? then priority.value else before.priority)
      && r.0.value.updatedAt == now
  {
    if id !in store.items then
      (Err(TaskNotFound), store)
    else
      var before := store.items[id];
      var after := before.(status := status.GetOr(before.status),
                           priority := priority.GetOr(before.priority),
                           updatedAt := now);
      (Ok(after), Store(store.items[id := after], store.nextId))
  }

  /** An update keeps a document within the schema exactly when the values it supplies are in the enums. */
  lemma PatchConformsIffSuppliedValuesInEnums(store: Store, id: ObjectId, status: Option<string>, priority: Option<string>, now: nat)
    requires id in store.items && Conforms(store.items[id])
    ensures Conforms(PatchItem(store, id, status, priority, now).0.value) <==>
      (status.None? || status.value in StatusValues) && (priority.None? || priority.value in PriorityValues)
  {
  }

  /** The update route does not normalise: a lower-case status is stored as given and breaks the schema's enum. */
  lemma PatchStoresUnnormalisedStatus()
    ensures var item := Item("Ann", "555", None, Some(0), "Pending", "Medium", 0, 0);
      var store := Store(map[0 := item], 1);
      var r := PatchItem(store, 0, Some("completed"), None, 5);
      && Conforms(item) && r.0.Ok? && r.0.value.status == "completed" && !Conforms(r.0.value)
  {
    assert "completed" != "Completed";
  }

  /** Deleting: an unknown id is not found and changes nothing; otherwise exactly that document is removed and returned. */
  function DeleteItem(store: Store, id: ObjectId): (r: (Result<Item, string>, Store))
    ensures r.0.Err? <==> id !in store.items
    ensures r.0.Err? ==> r.0.error == TaskNotFound && r.1 == store
    ensures r.0.Ok? ==> r.0.value == store.items[id] && id !in r.1.items
    ensures r.0.Ok? ==> r.1.nextId == store.nextId && r.1.items.Keys == store.items.Keys - {id}
    ensures forall k :: k in r.1.items ==> k in store.items && r.1.items[k] == store.items[k]
  {
    if id !in store.items then
      (Err(TaskNotFound), store)
    else
      (Ok(store.items[id]), Store(store.items - {id}, store.nextId))
  }

  /** After a delete the id is gone: deleting or updating it again is not found. */
  lemma DeleteThenNotFound(store: Store, id: ObjectId, status: Option<string>, priority: Option<string>, now: nat)
    requires id in store.items
    ensures DeleteItem(DeleteItem(store, id).1, id).0 == Err(TaskNotFound)
    ensures PatchItem(DeleteItem(store, id).1, id, status, priority, now).0 == Err(TaskNotFound)
  {
  }

  /** An upload with no rows succeeds and writes nothing. */
  lemma EmptyUploadWritesNothing(pool: seq<Agent>, file: UploadedFile, store: Store, now: nat)
    requires Valid(store) && |pool| > 0 && |file.rows| == 0
    requires Classify(file.mimetype) != Unsupported
    ensures HandleUpload(pool, Some(file), store, now).0 == Json(200, Distributed)
    ensures HandleUpload(pool, Some(file), store, now).1.items == store.items
  {
    var out := HandleUpload(pool, Some(file), store, now);
    DistributedDocuments(store, out.1, Classify(file.mimetype), file.rows, pool, now);
    assert out.1.items.Keys == store.items.Keys;
  }

  function SampleRows(): seq<Row> {
    var row := map["FirstName" := Some("A"), "Phone" := Some("1")];
    [row, row, row]
  }

  /** A three-row CSV upload with two agents answers with success and writes one document per row. */
  lemma ThreeRowCsvUploadSucceeds(a0: Agent, a1: Agent, now: nat)
    ensures var out := HandleUpload([a0, a1], Some(UploadedFile("text/csv", "leads.csv", SampleRows())), Store(map[], 0), now);
      out.0 == Json(200, Distributed) && Distributes(Store(map[], 0), out.1, Csv, SampleRows(), [a0, a1], now)
  {
    var rows, pool := SampleRows(), [a0, a1];
    var lead := Lead(Some("A"), Some("1"), None);
    assert Classify("text/csv") == Csv;
    assert forall i :: 0 <= i < |rows| ==> LeadOf(Csv, rows[i]) == lead;
    assert Validate(NewListItem(lead, a0.id), now).Ok? && Validate(NewListItem(lead, a1.id), now).Ok?;
    assert forall i :: 0 <= i < |rows| ==> i % |pool| == 0 || i % |pool| == 1;
  }

  /** The document at `nextId + i` exists, belongs to agent `i mod M`, and is Pending with Medium priority. */
  ghost predicate PlacedAsDefault(before: Store, after: Store, pool: seq<Agent>, i: nat)
    requires |pool| > 0
  {
    && before.nextId + i in after.items
    && after.items[before.nextId + i].agent == Some(pool[i % |pool|].id)
    && after.items[before.nextId + i].status == DefaultStatus
    && after.items[before.nextId + i].priority == DefaultPriority
  }

  /** Document `i` of a successful upload: at `nextId + i`, with agent `i mod M`, Pending and Medium. */
  lemma DistributedDocument(before: Store, after: Store, format: Format, rows: seq<Row>, pool: seq<Agent>, now: nat, i: nat)
    requires |pool| > 0 && Distributes(before, after, format, rows, pool, now)
    requires i < |rows|
    ensures before.nextId + i in after.items
    ensures after.items[before.nextId + i].agent == Some(pool[i % |pool|].id)
    ensures after.items[before.nextId + i].status == DefaultStatus
    ensures after.items[before.nextId + i].priority == DefaultPriority
  {
    var d := NewListItem(LeadOf(format, rows[i]), pool[i % |pool|].id);
    assert after.items[before.nextId + i] == Validate(d, now).value;
  }

  /** A successful upload adds exactly the identifiers of its block. */
  lemma DistributedBlock(before: Store, after: Store, format: Format, rows: seq<Row>, pool: seq<Agent>, now: nat)
    requires |pool| > 0 && Distributes(before, after, format, rows, pool, now)
    ensures forall k :: k in after.items && k !in before.items <==>
      k !in before.items && before.nextId <= k < before.nextId + |rows|
  {
    forall k | k !in before.items && before.nextId <= k < before.nextId + |rows|
      ensures k in after.items
    {
      DistributedDocument(before, after, format, rows, pool, now, k - before.nextId);
    }
  }

  /** Every document of a successful upload is at its own identifier, with agent `i mod M`, Pending and Medium. */
  lemma DistributedRows(before: Store, after: Store, format: Format, rows: seq<Row>, pool: seq<Agent>, now: nat)
    requires |pool| > 0 && Distributes(before, after, format, rows, pool, now)
    ensures forall i :: 0 <= i < |rows| ==> PlacedAsDefault(before, after, pool, i)
  {
    forall i | 0 <= i < |rows|
      ensures PlacedAsDefault(before, after, pool, i)
    {
      DistributedDocument(before, after, format, rows, pool, now, i);
    }
  }

  /**
   * A successful upload of N rows writes exactly the identifiers
   * `nextId .. nextId + N - 1`; the document at `nextId + i` belongs to agent
   * `i mod M` and starts as Pending with Medium priority.
   */
  lemma DistributedDocuments(before: Store, after: Store, format: Format, rows: seq<Row>, pool: seq<Agent>, now: nat)
    requires |pool| > 0 && Distributes(before, after, format, rows, pool, now)
    ensures forall k :: k in after.items && k !in before.items <==>
      k !in before.items && before.nextId <= k < before.nextId + |rows|
    ensures forall i :: 0 <= i < |rows| ==> PlacedAsDefault(before, after, pool, i)
  {
    DistributedBlock(before, after, format, rows, pool, now);
    DistributedRows(before, after, format, rows, pool, now);
  }

  /** Three rows distributed over two agents into an empty store land at 0, 1, 2 with agents 0, 1, 0. */
  lemma ThreeRowsPlacement(after: Store, format: Format, rows: seq<Row>, a0: Agent, a1: Agent, now: nat)
    requires |rows| == 3 && Distributes(Store(map[], 0), after, format, rows, [a0, a1], now)
    ensures after.items.Keys == {0, 1, 2}
    ensures [after.items[0].agent, after.items[1].agent, after.items[2].agent] == [Some(a0.id), Some(a1.id), Some(a0.id)]
    ensures forall k :: k in after.items ==> after.items[k].status == "Pending" && after.items[k].priority == "Medium"
  {
    var before, pool := Store(map[], 0), [a0, a1];
    DistributedBlock(before, after, format, rows, pool, now);
    DistributedDocument(before, after, format, rows, pool, now, 0);
    DistributedDocument(before, after, format, rows, pool, now, 1);
    DistributedDocument(before, after, format, rows, pool, now, 2);
    assert after.items.Keys == {0, 1, 2};
  }

  /**
   * A three-row CSV upload with two agents: rows go to agents 0, 1, 0, and
   * three pending, medium-priority documents are written.
   */
  lemma ThreeRowsTwoAgents(a0: Agent, a1: Agent, now: nat)
    ensures var out := HandleUpload([a0, a1], Some(UploadedFile("text/csv", "leads.csv", SampleRows())), Store(map[], 0), now);
      && out.0 == Json(200, Distributed)
      && out.1.items.Keys == {0, 1, 2}
      && [out.1.items[0].agent, out.1.items[1].agent, out.1.items[2].agent] == [Some(a0.id), Some(a1.id), Some(a0.id)]
      && forall k :: k in out.1.items ==> out.1.items[k].status == "Pending" && out.1.items[k].priority == "Medium"
  {
    var out := HandleUpload([a0, a1], Some(UploadedFile("text/csv", "leads.csv", SampleRows())), Store(map[], 0), now);
    ThreeRowCsvUploadSucceeds(a0, a1, now);
    ThreeRowsPlacement(out.1, Csv, SampleRows(), a0, a1, now);
  }
}
