/** The batch task layer: `process_text` classifies one row,
    `process_batch_and_email` fans a batch out as one job per text plus one
    completion callback, and `batch_complete` writes `<batch_id>.csv` into the
    results directory and then, when there is an address, mails it. */
module Tasks {
  import opened PyStr
  import opened PyJson
  import opened Models

  /** The dict `process_text` returns for one row. */
  datatype Record =
    | Classified(text: string, topic: Json, sentiment: string)
    | Failed(text: string, error: string)

  /** The record as the dict it is in Python, keys in insertion order. */
  function RecordJson(r: Record): (j: Json)
    ensures j.JObj?
    ensures Keys(j.entries) == if r.Classified? then ["text", "topic", "sentiment"] else ["text", "error"]
    ensures Lookup(j.entries, "text") == Some(JStr(r.text))
  {
    match r
    case Classified(text, topic, sentiment) =>
      JObj([("text", JStr(text)), ("topic", topic), ("sentiment", JStr(sentiment))])
    case Failed(text, error) =>
      JObj([("text", JStr(text)), ("error", JStr(error))])
  }

  /** What the outside world does while one row is processed: the inference
      service's two answers, and the exception (if any) raised by the logging
      call inside the `try`, the only statement there that can raise. */
  datatype RowWorld = RowWorld(topic: Response, sentiment: Response, logFault: Option<string>)

  /** `process_text`: the row's text with its topic and sentiment, or with the
      error that interrupted it. */
  function ProcessText(text: string, world: RowWorld): (r: Record)
    ensures r.text == text
    ensures r.Classified? <==> world.logFault.None?
    ensures r.Classified? ==> r.topic == ClassifyTopic(world.topic) && r.sentiment == AnalyzeSentiment(world.sentiment)
    ensures r.Failed? ==> r.error == world.logFault.value
  {
    var topic := ClassifyTopic(world.topic);
    var sentiment := AnalyzeSentiment(world.sentiment);
    match world.logFault
    case None => Classified(text, topic, sentiment)
    case Some(e) => Failed(text, e)
  }

  /** What the completion callback of the chord receives: one record per text,
      in the order of the texts, whatever order the rows finished in. */
  function ChordResults(texts: seq<string>, worlds: seq<RowWorld>): (rows: seq<Record>)
    requires |worlds| == |texts|
    ensures |rows| == |texts|
    ensures forall i :: 0 <= i < |texts| ==> rows[i] == ProcessText(texts[i], worlds[i])
  {
    if texts == [] then []
    else [ProcessText(texts[0], worlds[0])] + ChordResults(texts[1..], worlds[1..])
  }

  /** A row whose processing failed still has its record, and no other row's
      record depends on it. */
  lemma RowIsolation(texts: seq<string>, worlds: seq<RowWorld>, k: nat, w: RowWorld)
    requires |worlds| == |texts| && k < |texts|
    ensures var rows := ChordResults(texts, worlds);
            var rows' := ChordResults(texts, worlds[k := w]);
            |rows'| == |rows| && rows'[k].text == texts[k] &&
            forall i :: 0 <= i < |texts| && i != k ==> rows'[i] == rows[i]
  {
  }

  // --------------------------------------------------------------- payloads

  function StatusPayload(status: string, key: string, value: Json): Json {
    JObj([("status", JStr(status)), (key, value)])
  }

  function QueuedStatus(numTexts: nat): Json {
    StatusPayload("batch_queued", "num_texts", JNum(numTexts))
  }

  function CompleteStatus(file: string): Json {
    StatusPayload("complete", "file", JStr(file))
  }

  function ErrorStatus(message: string): Json {
    StatusPayload("error", "message", JStr(message))
  }

  /** A Python truth test on the optional address: `None` and `""` are false. */
  predicate Truthy(email: Option<string>) {
    email.Some? && email.value != ""
  }

  const CsvSuffix := ".csv"

  /** `f"{batch_id}.csv"`: the file a batch's report is written to and served from. */
  function ReportFile(id: string): (name: string)
    ensures |name| == |id| + |CsvSuffix|
    ensures name[..|id|] == id && name[|id|..] == CsvSuffix
  {
    id + CsvSuffix
  }

  /** Distinct ids give distinct report files. */
  lemma ReportFileInjective(a: string, b: string)
    requires ReportFile(a) == ReportFile(b)
    ensures a == b
  {
    assert |a| == |b|;
    assert a == ReportFile(a)[..|a|];
  }

  /** The id a report is filed under: the batch id, or the clock-derived id
      generated when none was given. */
  function ReportName(batchId: Option<string>, generatedId: string): string {
    ReportFile(if batchId.Some? then batchId.value else generatedId)
  }

  // ----------------------------------------------------------- fan-out jobs

  /** What is sent to the broker. */
  datatype Job =
    | BatchJob(texts: seq<string>, userEmail: Option<string>, batchId: Option<string>)  // process_batch_and_email
    | TextJob(text: string)                                                            // process_text
    | CallbackJob(userEmail: Option<string>, batchId: Option<string>)                  // batch_complete

  function TextJobs(texts: seq<string>): (jobs: seq<Job>)
    ensures |jobs| == |texts|
    ensures forall i :: 0 <= i < |texts| ==> jobs[i] == TextJob(texts[i])
  {
    seq(|texts|, i requires 0 <= i < |texts| => TextJob(texts[i]))
  }

  /** The jobs one call of `process_batch_and_email` sends: nothing when the
      dispatch fails, otherwise the chord's header and then its callback. */
  function Dispatched(texts: seq<string>, userEmail: Option<string>, batchId: Option<string>, dispatchFault: Option<string>): seq<Job> {
    if dispatchFault.Some? then [] else TextJobs(texts) + [CallbackJob(userEmail, batchId)]
  }

  /** A successful dispatch sends exactly one job per text, in the order of the
      texts, and then one callback carrying the address and the batch id. */
  lemma DispatchOnePerText(texts: seq<string>, userEmail: Option<string>, batchId: Option<string>)
    ensures var jobs := Dispatched(texts, userEmail, batchId, None);
            |jobs| == |texts| + 1 &&
            (forall i :: 0 <= i < |texts| ==> jobs[i] == TextJob(texts[i])) &&
            jobs[|texts|] == CallbackJob(userEmail, batchId)
  {
  }

  // ------------------------------------------------------ report and mail

  /** What is done outside the results directory's contents, in order. */
  datatype Effect =
    | FileWritten(name: string)
    | MailAttempted(recipient: string, attachment: string, delivered: bool)

  /** The results directory after `batch_complete`: the report is written (over
      any earlier file of that name) unless building or writing it failed. */
  function WriteReport(store: map<string, seq<Record>>, results: seq<Record>, name: string, writeFault: Option<string>): map<string, seq<Record>> {
    if writeFault.None? then store[name := results] else store
  }

  /** The effects of `batch_complete`: the write, then a mail attempt when the
      address is truthy. Nothing at all when the report could not be written. */
  function ReportEffects(userEmail: Option<string>, name: string, writeFault: Option<string>, delivered: bool): seq<Effect> {
    if writeFault.Some? then []
    else [FileWritten(name)] + if Truthy(userEmail) then [MailAttempted(userEmail.value, name, delivered)] else []
  }

  /** The value `batch_complete` returns: it does not depend on the address nor on the mail. */
  function ReportStatus(name: string, writeFault: Option<string>): Json {
    if writeFault.None? then CompleteStatus(name) else ErrorStatus(writeFault.value)
  }

  /** A mail is attempted only after its attachment was written, and only
      when the address is truthy; a failed write has no effect at all. */
  lemma MailFollowsWrite(userEmail: Option<string>, name: string, writeFault: Option<string>, delivered: bool)
    ensures var effects := ReportEffects(userEmail, name, writeFault, delivered);
            forall i :: 0 <= i < |effects| && effects[i].MailAttempted? ==>
              Truthy(userEmail) && i > 0 && effects[i - 1] == FileWritten(effects[i].attachment)
    ensures writeFault.Some? ==> ReportEffects(userEmail, name, writeFault, delivered) == []
  {
  }

  /** Writing the same report twice leaves the directory as writing it once,
      and no other file is touched or removed. */
  lemma WriteReportIdempotent(store: map<string, seq<Record>>, results: seq<Record>, name: string, writeFault: Option<string>)
    ensures WriteReport(WriteReport(store, results, name, writeFault), results, name, writeFault) == WriteReport(store, results, name, writeFault)
    ensures store.Keys <= WriteReport(store, results, name, writeFault).Keys
    ensures forall f :: f in store && f != name ==> WriteReport(store, results, name, writeFault)[f] == store[f]
  {
  }

  /** The broker's job log, the results directory and the log of writes and
      mails, as the worker processes see them. */
  class Backend {
    var store: map<string, seq<Record>>
    var jobs: seq<Job>
    var effects: seq<Effect>

    /** Every mail follows the write of its attachment, and every file written
        is still in the results directory. */
    ghost predicate Valid()
      reads this
    {
      (forall i :: 0 <= i < |effects| && effects[i].MailAttempted? ==>
         exists j :: 0 <= j < i && effects[j] == FileWritten(effects[i].attachment)) &&
      (forall i :: 0 <= i < |effects| && effects[i].FileWritten? ==> effects[i].name in store)
    }

    constructor()
      ensures Valid()
      ensures store == map[] && jobs == [] && effects == []
    {
      store, jobs, effects := map[], [], [];
    }

    /** `apply_async`: one job handed to the broker. */
    method Enqueue(job: Job)
      requires Valid()
      modifies this
      ensures Valid()
      ensures jobs == old(jobs) + [job]
      ensures store == old(store) && effects == old(effects)
    {
      jobs := jobs + [job];
    }

    /** `process_batch_and_email`: the generator builds one `process_text`
        signature per text; the chord then sends them with the callback. */
    method ProcessBatchAndEmail(texts: seq<string>, userEmail: Option<string>, batchId: Option<string>, dispatchFault: Option<string>)
      returns (status: Json)
      requires Valid()
      modifies this
      ensures Valid()
      ensures jobs == old(jobs) + Dispatched(texts, userEmail, batchId, dispatchFault)
      ensures store == old(store) && effects == old(effects)
      ensures status == if dispatchFault.None? then QueuedStatus(|texts|) else ErrorStatus(dispatchFault.value)
    {
      var header: seq<Job> := [];
      var i := 0;
      while i < |texts|
        invariant 0 <= i <= |texts|
        invariant |header| == i
        invariant forall k :: 0 <= k < i ==> header[k] == TextJob(texts[k])
      {
        header := header + [TextJob(texts[i])];
        i := i + 1;
      }
      if dispatchFault.Some? {
        return ErrorStatus(dispatchFault.value);
      }
      assert header == TextJobs(texts);
      jobs := jobs + header + [CallbackJob(userEmail, batchId)];
      status := QueuedStatus(|texts|);
    }

    /** `batch_complete`: write the report, then mail it when there is an
        address. The mail's outcome changes neither the status nor the file. */
    method BatchComplete(results: seq<Record>, userEmail: Option<string>, batchId: Option<string>,
                         generatedId: string, writeFault: Option<string>, delivered: bool)
      returns (status: Json)
      requires Valid()
      modifies this
      ensures Valid()
      ensures store == WriteReport(old(store), results, ReportName(batchId, generatedId), writeFault)
      ensures effects == old(effects) + ReportEffects(userEmail, ReportName(batchId, generatedId), writeFault, delivered)
      ensures jobs == old(jobs)
      ensures status == ReportStatus(ReportName(batchId, generatedId), writeFault)
    {
      if writeFault.Some? {
        return ErrorStatus(writeFault.value);
      }
      var name := ReportName(batchId, generatedId);
      store := store[name := results];
      ghost var before := effects;
      effects := effects + [FileWritten(name)];
      if Truthy(userEmail) {
        effects := effects + [MailAttempted(userEmail.value, name, delivered)];
        assert effects[|before|] == FileWritten(name);
      }
      assert forall i :: 0 <= i < |before| ==> effects[i] == before[i];
      status := CompleteStatus(name);
    }

    /** A batch end to end: the fan-out, every row processed, and the callback
        run on the records in text order. The report then holds one record per
        text, in the order of the texts, rows that failed included. */
    method RunBatch(texts: seq<string>, userEmail: Option<string>, batchId: Option<string>, dispatchFault: Option<string>,
                    worlds: seq<RowWorld>, generatedId: string, writeFault: Option<string>, delivered: bool)
      returns (queued: Json, finished: Option<Json>)
      requires Valid() && |worlds| == |texts|
      modifies this
      ensures Valid()
      ensures dispatchFault.Some? ==> store == old(store) && finished == None
      ensures dispatchFault.None? ==> finished == Some(ReportStatus(ReportName(batchId, generatedId), writeFault))
      ensures dispatchFault.None? && writeFault.None? ==>
                var name := ReportName(batchId, generatedId);
                name in store && |store[name]| == |texts| &&
                forall i :: 0 <= i < |texts| ==> store[name][i].text == texts[i]
    {
      queued := ProcessBatchAndEmail(texts, userEmail, batchId, dispatchFault);
      if dispatchFault.Some? {
        return queued, None;
      }
      var rows := ChordResults(texts, worlds);
      var status := BatchComplete(rows, userEmail, batchId, generatedId, writeFault, delivered);
      finished := Some(status);
    }

    /** The callback delivered twice with the same inputs leaves the directory
        as one delivery does. */
    method BatchCompleteTwice(results: seq<Record>, userEmail: Option<string>, batchId: string, writeFault: Option<string>, delivered: bool)
      returns (first: Json, second: Json)
      requires Valid()
      modifies this
      ensures Valid()
      ensures store == WriteReport(old(store), results, ReportName(Some(batchId), ""), writeFault)
      ensures first == second
    {
      first := BatchComplete(results, userEmail, Some(batchId), "", writeFault, delivered);
      second := BatchComplete(results, userEmail, Some(batchId), "", writeFault, delivered);
    }
  }
}
