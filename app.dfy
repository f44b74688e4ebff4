/** The web front end: `upload` validates a CSV and queues one batch job,
    `download` serves a stored report, `get_result` reports a task's outcome. */
module App {
  import opened PyStr
  import opened PyJson
  import opened Tasks

  /** A parsed CSV: each column's cells, by column name. */
  datatype Table = Table(columns: map<string, seq<string>>)

  /** The `file` part of the form: the client's file name, and what
      `read_csv` makes of its bytes (a table, or the exception it raised). */
  datatype UploadedFile = UploadedFile(filename: string, parsed: Result<Table>)

  datatype HttpResponse = HttpResponse(status: int, body: string)

  const NoFile := HttpResponse(400, "No file uploaded")
  const NoTextColumn := HttpResponse(400, "CSV must have a 'text' column")
  /** What Flask answers when a view raises. */
  const ServerError := HttpResponse(500, "Internal Server Error")
  const FileNotFound := HttpResponse(404, "File not found")

  /** `if not file`: the part is missing, or its file name is empty (an empty
      `FileStorage` is false). */
  predicate HasFile(file: Option<UploadedFile>) {
    file.Some? && file.value.filename != ""
  }

  /** Whether an upload is refused, and with what, or accepted with its texts. */
  datatype Decision = Refuse(resp: HttpResponse) | Accept(texts: seq<string>)

  /** The validation of `upload`: the file is checked first, then the parse,
      then the `text` column; the texts are that column, in row order. */
  function UploadDecision(file: Option<UploadedFile>): (d: Decision)
    ensures !HasFile(file) ==> d == Refuse(NoFile)
    ensures HasFile(file) && file.value.parsed.Raise? ==> d == Refuse(ServerError)
    ensures HasFile(file) && file.value.parsed.Ok? && "text" !in file.value.parsed.value.columns ==> d == Refuse(NoTextColumn)
    ensures d.Accept? <==> HasFile(file) && file.value.parsed.Ok? && "text" in file.value.parsed.value.columns
    ensures d.Accept? ==> d.texts == file.value.parsed.value.columns["text"]
  {
    if !HasFile(file) then Refuse(NoFile)
    else match file.value.parsed
      case Raise(_) => Refuse(ServerError)
      case Ok(df) =>
        if "text" in df.columns then Accept(df.columns["text"]) else Refuse(NoTextColumn)
  }

  /** A request without a file is refused as such, whatever else it carries:
      the column check is never reached. */
  lemma NoFileFirst(parsed: Result<Table>)
    ensures UploadDecision(Some(UploadedFile("", parsed))) == Refuse(NoFile)
    ensures UploadDecision(None) == Refuse(NoFile)
  {
  }

  /** `str(user_email)`: the address, or `None` when the form had none. */
  function EmailText(email: Option<string>): string {
    if email.Some? then email.value else "None"
  }

  const SuccessPrefix := "Upload successful! Results will be emailed to "
  const SuccessSuffix := " when ready."

  /** The confirmation page names the address the report will go to. */
  function SuccessMessage(email: Option<string>): (m: string)
    ensures StartsWith(m, SuccessPrefix)
    ensures OccursAt(m, EmailText(email), |SuccessPrefix|)
  {
    StartsWithConcat(SuccessPrefix, EmailText(email) + SuccessSuffix);
    OccursInConcat(SuccessPrefix, EmailText(email), SuccessSuffix);
    SuccessPrefix + EmailText(email) + SuccessSuffix
  }

  /** What `download` answers: the stored report, or 404. */
  datatype Served = SendFile(rows: seq<Record>) | Refused(resp: HttpResponse)

  function ServeReport(store: map<string, seq<Record>>, batchId: string): (d: Served)
    ensures d.SendFile? <==> ReportFile(batchId) in store
    ensures d.SendFile? ==> d.rows == store[ReportFile(batchId)]
    ensures d.Refused? ==> d.resp == FileNotFound
  {
    if ReportFile(batchId) in store then SendFile(store[ReportFile(batchId)]) else Refused(FileNotFound)
  }

  /** After `batch_complete` has written a batch's report, downloading that
      batch serves exactly its records, and every other batch is served as before. */
  lemma {:induction false} DownloadAfterReport(store: map<string, seq<Record>>, results: seq<Record>, batchId: string,
                                               generatedId: string, other: string)
    requires other != batchId
    ensures ServeReport(WriteReport(store, results, ReportName(Some(batchId), generatedId), None), batchId) == SendFile(results)
    ensures ServeReport(WriteReport(store, results, ReportName(Some(batchId), generatedId), None), other) == ServeReport(store, other)
  {
    if ReportFile(other) == ReportFile(batchId) {
      ReportFileInjective(other, batchId);
    }
  }

  /** A report that could not be written changes no download. */
  lemma DownloadAfterFailedWrite(store: map<string, seq<Record>>, results: seq<Record>, name: string, fault: string, batchId: string)
    ensures ServeReport(WriteReport(store, results, name, Some(fault)), batchId) == ServeReport(store, batchId)
  {
  }

  const Pending := JObj([("status", JStr("pending"))])

  /** What `get_result` answers: the finished task's value unchanged, or the
      pending marker. */
  function ResultPayload(finished: map<string, Json>, taskId: string): (j: Json)
    ensures taskId in finished ==> j == finished[taskId]
    ensures taskId !in finished ==> j == Pending
  {
    if taskId in finished then finished[taskId] else Pending
  }

  /** A record a task produced is returned with its keys and values as stored. */
  lemma ResultVerbatim(finished: map<string, Json>, taskId: string, r: Record)
    requires taskId in finished && finished[taskId] == RecordJson(r)
    ensures ResultPayload(finished, taskId).JObj?
    ensures Lookup(ResultPayload(finished, taskId).entries, "text") == Some(JStr(r.text))
  {
  }

  /** The web process: the shared backend (results directory and broker) and
      the results of finished tasks, as the result backend holds them. */
  class Server {
    const backend: Backend
    var finished: map<string, Json>

    ghost predicate Valid()
      reads this, backend
    {
      backend.Valid()
    }

    constructor(backend: Backend)
      requires backend.Valid()
      ensures this.backend == backend && finished == map[]
      ensures Valid()
    {
      this.backend := backend;
      finished := map[];
    }

    /** `upload`: refused requests queue nothing; an accepted one queues
        exactly one batch job with the column's texts, the address and the
        batch id, and confirms with the address. */
    method Upload(file: Option<UploadedFile>, email: Option<string>, batchId: string) returns (resp: HttpResponse)
      requires Valid()
      modifies backend
      ensures Valid()
      ensures backend.store == old(backend.store) && backend.effects == old(backend.effects)
      ensures UploadDecision(file).Refuse? ==> resp == UploadDecision(file).resp && backend.jobs == old(backend.jobs)
      ensures UploadDecision(file).Accept? ==>
                resp == HttpResponse(200, SuccessMessage(email)) &&
                backend.jobs == old(backend.jobs) + [BatchJob(UploadDecision(file).texts, email, Some(batchId))]
    {
      if !HasFile(file) {
        return NoFile;
      }
      var parsed := file.value.parsed;
      if parsed.Raise? {
        return ServerError;
      }
      var df := parsed.value;
      if "text" !in df.columns {
        return NoTextColumn;
      }
      backend.Enqueue(BatchJob(df.columns["text"], email, Some(batchId)));
      resp := HttpResponse(200, SuccessMessage(email));
    }

    /** `download`: reads the results directory and changes nothing. */
    method Download(batchId: string) returns (d: Served)
      ensures d == ServeReport(backend.store, batchId)
    {
      d := ServeReport(backend.store, batchId);
    }

    /** The result backend records the value a task returned; `get_result`
        answers it from then on. */
    method Finish(taskId: string, value: Json)
      modifies this
      ensures finished == old(finished)[taskId := value]
      ensures ResultPayload(finished, taskId) == value
    {
      finished := finished[taskId := value];
    }

    /** `get_result`: reads the task results and changes nothing. */
    method GetResult(taskId: string) returns (j: Json)
      ensures j == ResultPayload(finished, taskId)
    {
      j := ResultPayload(finished, taskId);
    }
  }
}
