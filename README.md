# text_app in Dafny

A model of the text analysis service `text_app`, with proofs about it. A user uploads a CSV with a `text` column. The web process queues one batch job. A Celery worker fans the batch out to one `process_text` job per row. Each row is sent to two Hugging Face inference endpoints: a zero-shot topic classifier and a sentiment model. Their answers, in whatever shape the router returns them, are normalised to a topic label and a lower-case sentiment label, or to an error string. When every row is done, the `batch_complete` callback writes `<batch_id>.csv` to the results directory. It then mails the file to the submitter when there is an address. The report can be downloaded by batch id, and a task's result can be polled.

The files are:

- `py_str.dfy` (module `PyStr`): the Python `str` operations the normaliser relies on. These are `find`, `split`, `join`, `replace`, ASCII `lower` and `[:n]`. It also proves that `replace` is `join` of `split`, and that `join` undoes `split`.
- `py_json.dfy` (module `PyJson`): a decoded JSON value as the Python object `response.json()` yields. It gives that value Python's `[0]`, `[key]` and `in`, each returning either a value or the `str(e)` of the exception CPython raises.
- `models.dfy` (module `Models`): `classify_topic` and `analyze_sentiment`, as total functions of the service's answer. The answer is either a decoded body or the message of a failed request.
- `tasks.dfy` (module `Tasks`): the per-row record and the chord's fan-in. It also holds the class `Backend`, which has the results directory (`store`), the broker's job log (`jobs`) and the log of file writes and mail attempts (`effects`). Its methods `ProcessBatchAndEmail` and `BatchComplete` update these fields.
- `app.dfy` (module `App`): the upload decision and the class `Server`. `Server.Upload` validates the request and enqueues on the shared `Backend`. `Download` and `GetResult` read the store and the finished task results without changing anything.

Some facts about the code that the model follows:

- The code does not re-sort rows by a row index, and its records carry no `row_index`.
- It does not reject empty rows.
- It keeps no completion counter: the chord's callback receives the records in text order.
- A report is overwritten by a later write; there is no write-once guard.
- A failure to dispatch the batch yields one `{"status": "error", ...}` answer, not per-row error records.

## Model

| member | source | states |
|---|---|---|
| PyStr.Find | app/models.py:45 | `s.find(p)` behind the substring test `"outputs" in s`: the lowest index where `p` occurs, or -1 exactly when it occurs nowhere |
| PyStr.SplitJoinRoundTrip | app/models.py:82 | joining the pieces of `s.split(p)` with `p` gives back `s` |
| PyStr.SplitFirstIsPrefix | app/models.py:82 | the first piece of `s.split(p)` is a prefix of `s` |
| PyStr.SplitPiecesFree | app/models.py:82 | no piece of `s.split(p)` contains `p` |
| PyStr.ReplaceIsSplitJoin | app/models.py:82 | `s.replace(pat, rep)` (leftmost, non-overlapping, one pass) equals `rep.join(s.split(pat))` |
| PyStr.ReplaceWithoutFirstChar | app/models.py:82 | a string without the pattern's first character is unchanged by `replace` |
| PyStr.ReplaceShorter | app/models.py:82 | a string shorter than the pattern is unchanged by `replace` |
| PyStr.LowerAscii | app/models.py:82 | `lower()` keeps the length, lowers each ASCII capital, and leaves no capital |
| PyStr.LowerAsciiIdentity | app/models.py:82 | `lower()` leaves a string without capitals unchanged |
| PyStr.Truncate | app/models.py:61 | `s[:n]` is the prefix of `s` of length `n`, or `s` itself when `s` is no longer than `n` |
| PyJson.Lookup | app/models.py:51 | a dict lookup finds a value exactly when some entry has the key, and the value found is bound to it |
| PyJson.Keys | app/models.py:58 | `list(d.keys())` lists the keys in insertion order |
| PyJson.Index0 | app/models.py:45-48 | `x[0]` succeeds exactly on a non-empty list or string, giving the first element or first character, and fails otherwise |
| PyJson.GetKey | app/models.py:46 | `x[key]` succeeds only on a dict holding the key, and gives the value bound to it |
| PyJson.Contains | app/models.py:45 | `needle in x` is key membership on a dict, element equality on a list, substring occurrence on a str, and a TypeError on anything else |
| Models.Caught | app/models.py:60-61 | an `except` answer is its tag followed by the first 60 characters of the message, or the whole message when it is shorter |
| Models.ClassifyTopic | app/models.py:38-61 | a failed request, and any exception raised while reading a received body, give a `TopicErr: ` string of at most 70 characters; any answer that is not a `TopicErr: ` string comes from a body whose unwrapped value is an object with `labels` or `label` |
| Models.Normalise | app/models.py:82 | the normalised sentiment label contains no ASCII capital |
| Models.NormaliseLabel | app/models.py:82 | `replace` succeeds exactly on a string label, giving its normalised form; any other value raises |
| Models.AnalyzeSentiment | app/models.py:64-84 | the answer is a `SentErr: ` string exactly when it holds an ASCII capital, so errors and labels never collide; a failed request, and any exception raised while reading a received body, give an error of at most 69 characters |
| Models.NormaliseIsSplitJoin | app/models.py:82 | normalising removes every leftmost non-overlapping `LABEL_`, keeping the pieces between them, then lower-cases |
| Models.NormaliseIdempotent | app/models.py:82 | normalising twice equals normalising once |
| Models.NormalisePrefixed | app/models.py:82 | a label `LABEL_` + rest, where rest has no `L`, normalises to the lower-cased rest |
| Models.NormaliseExamples | app/models.py:82 | `LABEL_POSITIVE` gives `positive`, `LABEL_2` gives `2`, `Neutral` gives `neutral` |
| Models.ReplaceDropsPrefix | app/models.py:82 | a leading `LABEL_` is deleted and the scan resumes right after it |
| Models.ReplaceSinglePass | app/models.py:82 | removal is one pass: in `LABLABEL_EL_` the inner `LABEL_` is deleted and the `LABEL_` this forms is kept |
| Models.NormaliseSinglePass | app/models.py:82 | hence `LABLABEL_EL_` normalises to `label_`, not to the empty string |
| Models.UnwrapShapes | app/models.py:44-48 | a non-list is kept; a list is replaced by its first object, or by that object's `outputs`; an empty list raises IndexError |
| Models.UnwrapNestedList | app/models.py:44-48 | a nested list is unwrapped one level only and stays a list; when it holds the string `"outputs"` the `in` test passes and subscripting it raises TypeError |
| Models.UnwrapOutputsString | app/models.py:44-48 | a first element that is a string containing `outputs` passes the `in` test, and subscripting it raises TypeError |
| Models.TopicLabelsShapes | app/models.py:43-52 | `{"labels":[L,…]}`, `[{"labels":[L,…]}]` and `[{"outputs":{"labels":[L,…]}}]` give L unchanged, whatever else the object holds, `label` included |
| Models.TopicLabelShapes | app/models.py:54-56 | an object with `label` and no `labels` gives that label unchanged, in the same three shapes |
| Models.TopicUnexpectedFormat | app/models.py:57-58 | an unwrapped value that is not an object with `labels` or `label` gives `TopicErr: Unexpected format (…)`, naming the keys or the type |
| Models.TopicEmptyLists | app/models.py:44-61 | an empty top-level list and an empty `labels` list both give `TopicErr: list index out of range` |
| Models.TopicNestedList | app/models.py:44-58 | a list of lists is reported as an unexpected `<class 'list'>`, or as a caught TypeError when the inner list holds `"outputs"`; never a label |
| Models.TopicOutputsString | app/models.py:44-61 | a first element that is a string containing `outputs` gives a caught TypeError, never a label |
| Models.SentimentShapes | app/models.py:69-82 | `{"label":L}`, `[{"label":L}]`, `[[{"label":L},…]]`, `[{"outputs":{"label":L}}]` and `[{"outputs":[{"label":L},…]}]` all give the normalised L |
| Models.SentimentNonStringLabel | app/models.py:76-84 | a non-string label gives `SentErr: '<type>' object has no attribute 'replace'` |
| Models.SentimentUnrecognised | app/models.py:75-80 | an unwrapped value that is neither an object with `label` nor a non-empty list, or a non-empty list whose first element does not contain `label` (the test raising nothing), gives exactly `SentErr: Unexpected resp format` |
| Models.SentimentOneLevelOnly | app/models.py:69-80 | three levels of list around a label object are not unwrapped and give the unexpected-format error |
| Models.SentimentOutputsInList | app/models.py:69-84 | a first element that is a list holding `"outputs"` gives a caught TypeError, never a label |
| Models.SentimentOutputsInString | app/models.py:69-84 | a first element that is a string containing `outputs` gives a caught TypeError, never a label |
| Tasks.RecordJson | app/tasks.py:30-34 | a success record has exactly the keys text, topic and sentiment; a failure record has exactly text and error; both keep the text |
| Tasks.ProcessText | app/tasks.py:21-34 | the record keeps the text; it is a success exactly when nothing in the `try` raised; it then holds the two classifiers' answers, and otherwise holds the exception text |
| Tasks.ChordResults | app/tasks.py:88-90 | the callback receives one record per text, in text order, each the record of that text |
| Tasks.RowIsolation | app/tasks.py:32-34 | a change in one row's outcome changes only that row's record; the record still keeps the row's text |
| Tasks.ReportFile | app/tasks.py:53 | the report's file name is the id followed by `.csv` |
| Tasks.ReportFileInjective | app/tasks.py:53 | distinct batch ids give distinct report files |
| Tasks.TextJobs | app/tasks.py:88 | the chord header has one `process_text` job per text, in order |
| Tasks.DispatchOnePerText | app/tasks.py:88-90 | a successful dispatch sends one job per text in order, then one callback carrying the address and the batch id |
| Tasks.MailFollowsWrite | app/tasks.py:54-66 | a mail is attempted only for a truthy address, right after its attachment was written, and never when the write failed |
| Tasks.WriteReportIdempotent | app/tasks.py:53-54 | writing the same report twice equals writing it once, and no other file is changed or removed |
| Tasks.Backend.Enqueue | app/app.py:45-49 | `apply_async` appends one job to the broker log and changes nothing else |
| Tasks.Backend.ProcessBatchAndEmail | app/tasks.py:80-96 | on success the log grows by one job per text plus the callback, and the answer is `{"status":"batch_queued","num_texts":n}`; on failure nothing is queued and the answer is the error status; the store and the mail log are unchanged |
| Tasks.Backend.BatchComplete | app/tasks.py:39-75 | the results are stored as given under `<batch_id>.csv`, or under the generated id when there is none; the status is `complete` with that file name whatever the mail did; a failed write leaves the store as it was, attempts no mail and answers the error status; mails always follow their writes |
| Tasks.Backend.RunBatch | app/tasks.py:80-96 | end to end, the stored report has one record per text, in text order, with failed rows included; a failed dispatch changes no file |
| Tasks.Backend.BatchCompleteTwice | app/tasks.py:53-54 | a callback delivered twice leaves the store as one delivery does, with the same status |
| App.UploadDecision | app/app.py:34-39 | a missing or unnamed file is refused with 400 "No file uploaded" before anything else; an unparsable file gives 500; a table without `text` gives 400 "CSV must have a 'text' column"; otherwise the texts are the `text` column in order |
| App.NoFileFirst | app/app.py:34-35 | without a file the answer is "No file uploaded", whatever the file part would have held |
| App.SuccessMessage | app/app.py:51 | the confirmation starts with "Upload successful! Results will be emailed to " and the submitted address (or `None`) follows right after it |
| App.ServeReport | app/app.py:56-59 | a download sends a file exactly when `<batch_id>.csv` is stored, and then sends its stored records; otherwise it answers 404 "File not found" |
| App.DownloadAfterReport | app/app.py:56-59 | after a batch's report is written, downloading that batch serves exactly its records, and every other batch is served as before |
| App.DownloadAfterFailedWrite | app/app.py:56-59 | a failed report write changes no download |
| App.ResultPayload | app/app.py:65-69 | a finished task's value is returned unchanged; an unfinished one gives `{"status":"pending"}` |
| App.ResultVerbatim | app/app.py:66-67 | a record stored as a task's result comes back as a dict with the same text |
| App.Server.Upload | app/app.py:30-51 | a refused upload queues nothing; an accepted one queues exactly one batch job with the column's texts, the address and the batch id, and confirms with the address; files are untouched |
| App.Server.Download | app/app.py:54-59 | `download` answers from the results directory and changes nothing |
| App.Server.Finish | app/app.py:65-67 | the result backend's record of a finished task: from then on `get_result` answers that task's value |
| App.Server.GetResult | app/app.py:63-69 | `get_result` answers from the finished results and changes nothing |

## Left out

- The HTTP call in `post_request` (app/models.py:31-34), with its 60 s timeout and `raise_for_status`, is an input: either a decoded body or the message of the exception. The endpoint URLs and the request bodies (the text and the candidate topics) are therefore not modelled.
- A decoded object is taken to have distinct keys. `PyJson.Lookup` takes the first binding of a key, whereas Python's `json` keeps the last one, so objects with a repeated key are not modelled faithfully.
- JSON floats appear only through their type name. Decoded numbers are integers, and `bool` is kept apart from `int`.
- `lower()` is modelled on ASCII letters only; Python lowers every Unicode capital.
- Models.TopicUnexpectedFormat: the key list is written with single quotes and without Python's `repr` escaping of quotes or backslashes inside keys.
- The CPython exception texts are those of Python 3.11 and 3.12; other versions word a few of them differently.
- Celery's broker, workers, chord scheduling and `AsyncResult` (app/tasks.py:1-16, app/celeryconfig.py) are not modelled. The chord is "the callback gets the records in text order". A failed dispatch queues nothing, which ignores a partial send.
- pandas `read_csv`, `DataFrame` and `to_csv` become a column map and a record sequence. Empty CSV cells, which pandas reads as float NaN and which make `text[:50]` at app/tasks.py:24 raise outside the `try`, are not modelled: texts are strings.
- Tasks.ProcessText: the only statement in the `try` that can raise is the logging call, so the fault is a parameter; the two classifiers never raise.
- Timestamp-derived batch ids (app/app.py:42, app/tasks.py:51) are supplied as opaque string parameters.
- `send_email` (app/email_utils.py) is a mail effect whose `delivered` flag is recorded and affects nothing, since it swallows its own errors.
- Tasks.Backend.BatchComplete: a write fault leaves the store as it was; a partly written file is not modelled.
- The logger (app/logger.py) has no effect on results, except as the fault source above.
- app/test.py is a script holding copies of the two classifiers; the same model covers them.
- The HTML home page (app/app.py:16-27) is not modelled.
- The two `RESULTS_DIR` defaults (app/app.py:12, app/tasks.py:9) are taken to name one shared store.
- App.ResultPayload: Celery's result backend is reduced to `Server.Finish`, which records a task's value; nothing ties it to the worker that ran the task; a failed task's exception, which `jsonify` cannot serialise, is not modelled.
- Flask's 500 page for an unparsable upload is reduced to status 500 with a fixed body.
