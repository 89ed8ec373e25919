/** The letter analysis function: for each queued S3 event it fetches the letter image,
    has a model read the wished-for present and the address off it, geocodes the address
    and stores the present. Records that fail are reported back to the queue one by one. */
module LetterAnalysis {
  import opened Wrappers
  import opened AppType
  import GsiApi
  import LetterQueue

  type Bytes = seq<bv8>

  /** The `s3` part of one entry of an S3 event notification. */
  datatype S3Entity = S3Entity(bucketName: string, objectKey: string)

  /** The decoded body of an SQS message; `Malformed` when `json.loads` or one of the
      lookups leading to the entries raises. */
  datatype MessageBody = Malformed | S3Event(records: seq<S3Entity>)

  /** One entry of `event["Records"]`. */
  datatype SqsRecord = SqsRecord(messageId: string, body: MessageBody)

  datatype EventParam = EventParam(s3Bucket: string, s3Key: string)

  datatype LetterInfo = LetterInfo(presentName: string, address: string)

  /** The parameters of the `present` insert, in query order. */
  datatype PresentRow = PresentRow(presentName: string, address: string, latitude: Coord,
                                   longitude: Coord)

  /** The steps of one record, in the order they run. */
  datatype Stage = ParseEvent | GetObject | Analyze | Geocode | Insert

  const Pipeline: seq<Stage> := [ParseEvent, GetObject, Analyze, Geocode, Insert]

  /** Everything outside the function. `None` or `false` stands for a call that raised.
      `converse` yields the JSON object decoded from the model's reply text. */
  datatype LetterServices = LetterServices(
    getObject: EventParam -> Option<Bytes>,
    converse: Bytes -> Option<map<string, string>>,
    search: GsiApi.SearchService,
    updateCommit: PresentRow -> bool,
    openDb: Option<DbHandle>)

  /** `EventParam`: bucket and key of the first S3 entry of the message body. */
  function EventParamOf(body: MessageBody): (r: Result<EventParam, Stage>)
    ensures r.Ok? <==> body.S3Event? && |body.records| >= 1
    ensures r.Ok? ==> r.value == EventParam(body.records[0].bucketName, body.records[0].objectKey)
  {
    if body.Malformed? || |body.records| == 0 then Err(ParseEvent)
    else Ok(EventParam(body.records[0].bucketName, body.records[0].objectKey))
  }

  /** Only the first S3 entry of a message is read. */
  lemma OnlyFirstEntryUsed(first: S3Entity, rest1: seq<S3Entity>, rest2: seq<S3Entity>)
    ensures EventParamOf(S3Event([first] + rest1)) == EventParamOf(S3Event([first] + rest2))
  {
  }

  /** The field extraction of `analyze_letter_image`: both `present` and `address` must be there. */
  function LetterInfoOf(reply: map<string, string>): (r: Option<LetterInfo>)
    ensures r.Some? <==> "present" in reply && "address" in reply
    ensures r.Some? ==> r.value.presentName == reply["present"] && r.value.address == reply["address"]
  {
    if "present" in reply && "address" in reply then Some(LetterInfo(reply["present"], reply["address"]))
    else None
  }

  /** The parameter tuple of `insert_present`. */
  function InsertParams(info: LetterInfo, address: Address): (row: PresentRow)
    ensures row.presentName == info.presentName && row.address == address.address
    ensures row.latitude == address.point.latitude && row.longitude == address.point.longitude
  {
    PresentRow(info.presentName, address.address, address.point.latitude, address.point.longitude)
  }

  /** What one record went through: the steps started, and the stored row or the step
      that raised. */
  datatype Attempt = Attempt(started: seq<Stage>, outcome: Result<PresentRow, Stage>)

  /** The body of the `try` block for one record. The steps run in pipeline order, and
      the first one that raises ends the record: a step starts only when all before it
      succeeded, and the insert only after parse, fetch, analysis and geocoding. */
  function ProcessRecord(record: SqsRecord, env: LetterServices): (a: Attempt)
    ensures 1 <= |a.started| <= |Pipeline| && a.started == Pipeline[..|a.started|]
    ensures a.outcome.Ok? ==> a.started == Pipeline
    ensures a.outcome.Err? ==> a.outcome.error == a.started[|a.started| - 1]
  {
    match EventParamOf(record.body)
    case Err(_) => Attempt(Pipeline[..1], Err(ParseEvent))
    case Ok(param) =>
      match env.getObject(param)
      case None => Attempt(Pipeline[..2], Err(GetObject))
      case Some(image) =>
        var info := if env.converse(image).Some? then LetterInfoOf(env.converse(image).value) else None;
        if info.None? then Attempt(Pipeline[..3], Err(Analyze))
        else
          match GsiApi.AddressSearch(info.value.address, env.search)
          case Err(_) => Attempt(Pipeline[..4], Err(Geocode))
          case Ok(address) =>
            var row := InsertParams(info.value, address);
            if env.updateCommit(row) then Attempt(Pipeline, Ok(row)) else Attempt(Pipeline, Err(Insert))
  }

  /** A body that is not an S3 event with an entry fails the record at the first step. */
  lemma ParseFailureFailsRecord(record: SqsRecord, env: LetterServices)
    requires EventParamOf(record.body).Err?
    ensures ProcessRecord(record, env).outcome == Err(ParseEvent)
  {
  }

  /** A failed `get_object` fails the record at the fetch step. */
  lemma FetchFailureFailsRecord(record: SqsRecord, env: LetterServices, param: EventParam)
    requires EventParamOf(record.body) == Ok(param) && env.getObject(param).None?
    ensures ProcessRecord(record, env).outcome == Err(GetObject)
  {
  }

  /** A failed model call fails the record at the analysis step. */
  lemma AnalysisFailureFailsRecord(record: SqsRecord, env: LetterServices, param: EventParam, image: Bytes)
    requires EventParamOf(record.body) == Ok(param) && env.getObject(param) == Some(image)
    requires env.converse(image).None?
    ensures ProcessRecord(record, env).outcome == Err(Analyze)
  {
  }

  /** A failed address search, whatever the reason, fails the record at the geocoding step. */
  lemma GeocodeFailureFailsRecord(record: SqsRecord, env: LetterServices, param: EventParam,
                                  image: Bytes, info: LetterInfo)
    requires EventParamOf(record.body) == Ok(param) && env.getObject(param) == Some(image)
    requires env.converse(image).Some? && LetterInfoOf(env.converse(image).value) == Some(info)
    requires GsiApi.AddressSearch(info.address, env.search).Err?
    ensures ProcessRecord(record, env).outcome == Err(Geocode)
  {
  }

  /** Once parse, fetch, analysis and geocoding succeeded, the record is stored exactly when
      the insert of `InsertParams(info, address)` commits, and fails at the insert step otherwise. */
  lemma InsertDecidesRecord(record: SqsRecord, env: LetterServices, param: EventParam, image: Bytes,
                            info: LetterInfo, address: Address)
    requires EventParamOf(record.body) == Ok(param) && env.getObject(param) == Some(image)
    requires env.converse(image).Some? && LetterInfoOf(env.converse(image).value) == Some(info)
    requires GsiApi.AddressSearch(info.address, env.search) == Ok(address)
    ensures env.updateCommit(InsertParams(info, address)) ==>
              ProcessRecord(record, env).outcome == Ok(InsertParams(info, address))
    ensures !env.updateCommit(InsertParams(info, address)) ==>
              ProcessRecord(record, env).outcome == Err(Insert)
  {
  }

  /** A stored record went through every step: its body names an object, the object was
      fetched, the model's reply has both fields, the address was found, and the insert of
      exactly the stored row committed. */
  lemma StoredOnlyIfAllStepsSucceed(record: SqsRecord, env: LetterServices)
    requires ProcessRecord(record, env).outcome.Ok?
    ensures EventParamOf(record.body).Ok?
    ensures var param := EventParamOf(record.body).value;
            && env.getObject(param).Some?
            && env.converse(env.getObject(param).value).Some?
            && LetterInfoOf(env.converse(env.getObject(param).value).value).Some?
            && var info := LetterInfoOf(env.converse(env.getObject(param).value).value).value;
               && GsiApi.AddressSearch(info.address, env.search).Ok?
               && var row := InsertParams(info, GsiApi.AddressSearch(info.address, env.search).value);
                  && env.updateCommit(row)
                  && ProcessRecord(record, env).outcome.value == row
  {
  }

  /** The stored row carries the present named by the model, and the address text and
      position of the geocoder's first hit, not the raw address read from the letter. */
  lemma StoredRowIsGeocoded(record: SqsRecord, env: LetterServices)
    requires ProcessRecord(record, env).outcome.Ok?
    ensures var param := EventParamOf(record.body).value;
            var reply := env.converse(env.getObject(param).value).value;
            var hits := env.search(GsiApi.AddressSearchUrl, GsiApi.SearchParams(reply["address"])).value;
            var row := ProcessRecord(record, env).outcome.value;
            && row.presentName == reply["present"]
            && |hits| >= 1 && |hits[0].coordinates| >= 2
            && row.address == hits[0].title
            && row.latitude == hits[0].coordinates[1] && row.longitude == hits[0].coordinates[0]
  {
  }

  /** A reply without a `present` or an `address` field raises, and so fails the record at
      the analysis step. */
  lemma MissingFieldFailsRecord(record: SqsRecord, env: LetterServices)
    requires EventParamOf(record.body).Ok?
    requires env.getObject(EventParamOf(record.body).value).Some?
    requires var image := env.getObject(EventParamOf(record.body).value).value;
             env.converse(image).Some?
             && ("present" !in env.converse(image).value || "address" !in env.converse(image).value)
    ensures ProcessRecord(record, env).outcome == Err(Analyze)
  {
  }

  /** An address search without any hit fails the record at the geocoding step. */
  lemma NoHitFailsRecord(record: SqsRecord, env: LetterServices, info: LetterInfo)
    requires EventParamOf(record.body).Ok?
    requires env.getObject(EventParamOf(record.body).value).Some?
    requires var image := env.getObject(EventParamOf(record.body).value).value;
             env.converse(image).Some? && LetterInfoOf(env.converse(image).value) == Some(info)
    requires env.search(GsiApi.AddressSearchUrl, GsiApi.SearchParams(info.address)) == Some([])
    ensures ProcessRecord(record, env).outcome == Err(Geocode)
  {
  }

  predicate Fails(record: SqsRecord, env: LetterServices)
  {
    ProcessRecord(record, env).outcome.Err?
  }

  /** `{"itemIdentifier": message_id}` */
  datatype BatchItemFailure = BatchItemFailure(itemIdentifier: string)

  datatype BatchResponse = BatchResponse(batchItemFailures: seq<BatchItemFailure>)

  /** The failure entries of a batch: one per failed record, in record order. */
  function FailedItems(records: seq<SqsRecord>, env: LetterServices): (items: seq<BatchItemFailure>)
    ensures |items| <= |records|
  {
    if records == [] then []
    else
      var last := records[|records| - 1];
      FailedItems(records[..|records| - 1], env)
        + (if Fails(last, env) then [BatchItemFailure(last.messageId)] else [])
  }

  /** The rows stored for a batch: one per successful record, in record order. */
  function InsertedRows(records: seq<SqsRecord>, env: LetterServices): (rows: seq<PresentRow>)
    ensures |rows| + |FailedItems(records, env)| == |records|
  {
    if records == [] then []
    else
      var last := records[|records| - 1];
      var outcome := ProcessRecord(last, env).outcome;
      InsertedRows(records[..|records| - 1], env) + (if outcome.Ok? then [outcome.value] else [])
  }

  /** Records are independent: a batch's failures are those of its first part followed by
      those of the rest, so a failure never stops the records after it. */
  lemma {:induction false} FailedItemsAppend(a: seq<SqsRecord>, b: seq<SqsRecord>, env: LetterServices)
    ensures FailedItems(a + b, env) == FailedItems(a, env) + FailedItems(b, env)
    decreases |b|
  {
    if b == [] {
      assert a + b == a;
    } else {
      assert (a + b)[..|a + b| - 1] == a + b[..|b| - 1];
      FailedItemsAppend(a, b[..|b| - 1], env);
    }
  }

  /** A message id is reported exactly when some record with that id failed. */
  lemma {:induction false} FailedItemsExactly(records: seq<SqsRecord>, env: LetterServices, id: string)
    ensures BatchItemFailure(id) in FailedItems(records, env) <==>
            exists i :: 0 <= i < |records| && records[i].messageId == id && Fails(records[i], env)
  {
    if records != [] {
      var init := records[..|records| - 1];
      FailedItemsExactly(init, env, id);
      assert forall i :: 0 <= i < |init| ==> init[i] == records[i];
    }
  }

  /** The stored rows of a batch are those of its first part followed by those of the rest. */
  lemma {:induction false} InsertedRowsAppend(a: seq<SqsRecord>, b: seq<SqsRecord>, env: LetterServices)
    ensures InsertedRows(a + b, env) == InsertedRows(a, env) + InsertedRows(b, env)
    decreases |b|
  {
    if b == [] {
      assert a + b == a;
    } else {
      assert (a + b)[..|a + b| - 1] == a + b[..|b| - 1];
      InsertedRowsAppend(a, b[..|b| - 1], env);
    }
  }

  /** A row is stored exactly when some record of the batch succeeded with that row. */
  lemma {:induction false} InsertedRowsExactly(records: seq<SqsRecord>, env: LetterServices, row: PresentRow)
    ensures row in InsertedRows(records, env) <==>
            exists i :: 0 <= i < |records| && ProcessRecord(records[i], env).outcome == Ok(row)
  {
    if records != [] {
      var init := records[..|records| - 1];
      InsertedRowsExactly(init, env, row);
      assert forall i :: 0 <= i < |init| ==> init[i] == records[i];
    }
  }

  /** The loop of `lambda_handler`: every record is tried, whatever happened to the ones
      before it. */
  method ProcessBatch(records: seq<SqsRecord>, env: LetterServices)
    returns (failures: seq<BatchItemFailure>, inserted: seq<PresentRow>)
    ensures failures == FailedItems(records, env)
    ensures inserted == InsertedRows(records, env)
  {
    failures, inserted := [], [];
    for i := 0 to |records|
      invariant failures == FailedItems(records[..i], env)
      invariant inserted == InsertedRows(records[..i], env)
    {
      assert records[..i + 1][..i] == records[..i];
      var attempt := ProcessRecord(records[i], env);
      match attempt.outcome {
        case Ok(row) =>
          inserted := inserted + [row];
        case Err(_) =>
          failures := failures + [BatchItemFailure(records[i].messageId)];
      }
    }
    assert records[..|records|] == records;
  }

  datatype HandlerError = DbConnectFailed

  /** A warm or cold instance of the function; `aurora` is the module-level database client
      kept between invocations. */
  class LetterAnalysisHandler {
    var aurora: Option<DbHandle>

    /** A cold start: no client yet. */
    constructor ()
      ensures aurora == None
    {
      aurora := None;
    }

    /** `lambda_handler`. The database client is created only when there is none and is
        reused otherwise; if creating it raises, the whole invocation fails before any
        record is looked at. */
    method LambdaHandler(records: seq<SqsRecord>, env: LetterServices)
      returns (res: Result<BatchResponse, HandlerError>, inserted: seq<PresentRow>)
      modifies this
      ensures old(aurora).Some? ==> aurora == old(aurora)
      ensures old(aurora).None? ==> aurora == env.openDb
      ensures aurora.None? ==> res == Err(DbConnectFailed) && inserted == []
      ensures aurora.Some? ==> res == Ok(BatchResponse(FailedItems(records, env)))
                               && inserted == InsertedRows(records, env)
    {
      if aurora.None? {
        aurora := env.openDb;
        if aurora.None? {
          return Err(DbConnectFailed), [];
        }
      }
      var failures;
      failures, inserted := ProcessBatch(records, env);
      res := Ok(BatchResponse(failures));
    }
  }

  function MessageIds(records: seq<SqsRecord>): (ids: seq<string>)
    ensures |ids| == |records|
  {
    seq(|records|, i requires 0 <= i < |records| => records[i].messageId)
  }

  function FailedIds(items: seq<BatchItemFailure>): seq<string>
  {
    seq(|items|, i requires 0 <= i < |items| => items[i].itemIdentifier)
  }

  /** How the queue settles a received batch after an invocation: with the failures the
      handler reported, or the whole batch when the invocation itself failed. */
  function AfterInvocation(q: LetterQueue.Queues, records: seq<SqsRecord>,
                           res: Result<BatchResponse, HandlerError>, budget: nat): (t: LetterQueue.Queues)
    requires LetterQueue.Valid(q, budget)
    ensures LetterQueue.Valid(t, budget)
  {
    var reported := if res.Err? then MessageIds(records) else FailedIds(res.value.batchItemFailures);
    LetterQueue.SettleBatch(q, MessageIds(records), reported, budget)
  }

  /** Among records with distinct message ids, a record's id is reported exactly when that
      record failed. */
  lemma ReportedExactly(records: seq<SqsRecord>, env: LetterServices, i: int)
    requires LetterQueue.Distinct(MessageIds(records)) && 0 <= i < |records|
    ensures records[i].messageId in FailedIds(FailedItems(records, env)) <==> Fails(records[i], env)
  {
    var id := records[i].messageId;
    var ids := MessageIds(records);
    var items := FailedItems(records, env);
    var failed := FailedIds(items);
    FailedItemsExactly(records, env, id);
    if id in failed {
      var k :| 0 <= k < |failed| && failed[k] == id;
      assert items[k] == BatchItemFailure(id);
      var j :| 0 <= j < |records| && records[j].messageId == id && Fails(records[j], env);
      assert ids[j] == ids[i];
    }
    if Fails(records[i], env) {
      var k :| 0 <= k < |items| && items[k] == BatchItemFailure(id);
      assert failed[k] == id;
    }
  }

  /** With partial-batch reporting, a successful invocation over a batch of distinct
      received messages deletes exactly the records that were stored and leaves exactly
      the failed ones waiting on the queue, with their receive counts. */
  lemma BatchSettles(q: LetterQueue.Queues, records: seq<SqsRecord>, env: LetterServices, budget: nat)
    requires LetterQueue.Valid(q, budget) && LetterQueue.Distinct(MessageIds(records))
    requires forall i :: 0 <= i < |records| ==> records[i].messageId in q.inFlight
    ensures var t := AfterInvocation(q, records, Ok(BatchResponse(FailedItems(records, env))), budget);
            forall i :: 0 <= i < |records| ==>
              (Fails(records[i], env) ==> records[i].messageId in t.ready
                                          && t.ready[records[i].messageId] == q.inFlight[records[i].messageId])
              && (!Fails(records[i], env) ==> !LetterQueue.Known(t, records[i].messageId))
  {
    var ids := MessageIds(records);
    var failed := FailedIds(FailedItems(records, env));
    LetterQueue.SettleBatchEffect(q, ids, failed, budget);
    forall i | 0 <= i < |records|
      ensures ids[i] == records[i].messageId
      ensures records[i].messageId in failed <==> Fails(records[i], env)
    {
      ReportedExactly(records, env, i);
    }
  }

  /** With distinct message ids, each record is either stored with its own row and not
      reported, or reported: never both, never neither. */
  lemma StoredOrReported(records: seq<SqsRecord>, env: LetterServices, i: int)
    requires LetterQueue.Distinct(MessageIds(records)) && 0 <= i < |records|
    ensures var outcome := ProcessRecord(records[i], env).outcome;
            var reported := records[i].messageId in FailedIds(FailedItems(records, env));
            && (outcome.Ok? ==> outcome.value in InsertedRows(records, env) && !reported)
            && (outcome.Err? ==> reported)
  {
    ReportedExactly(records, env, i);
    var outcome := ProcessRecord(records[i], env).outcome;
    if outcome.Ok? {
      InsertedRowsExactly(records, env, outcome.value);
    }
  }

  /** When the invocation itself fails, no message of the batch is deleted. */
  lemma FailedInvocationKeepsBatch(q: LetterQueue.Queues, records: seq<SqsRecord>, budget: nat)
    requires LetterQueue.Valid(q, budget) && LetterQueue.Distinct(MessageIds(records))
    requires forall i :: 0 <= i < |records| ==> records[i].messageId in q.inFlight
    ensures var t := AfterInvocation(q, records, Err(DbConnectFailed), budget);
            forall i :: 0 <= i < |records| ==> records[i].messageId in t.ready
  {
    var ids := MessageIds(records);
    LetterQueue.SettleBatchEffect(q, ids, ids, budget);
    assert forall i :: 0 <= i < |records| ==> ids[i] == records[i].messageId && ids[i] in ids;
  }
}
