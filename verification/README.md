# Meeting-summary service: counselling client and task registry

This project models, in Dafny, the deterministic core of a meeting-minutes
service that fronts a remote agent server:

- **Counsel** (`Counselor.counsel`). The user's question gets a
  retrieval-filter directive naming the meeting appended to it. The
  question is sent to the counselling agent. The agent's event stream
  (`data: {json}` lines) is re-framed as `(content, reasoning, status)`
  records: reasoning gives a `thinking` record, answer text gives an `end`
  record, and everything else is dropped.
- **History** (`get_history`, `clean_history`). The meeting's chat history
  is read back. Only non-empty user and assistant turns are kept. The
  filter directive is stripped from user turns. The session is deleted on
  request.
- **Knowledge ingestion** (`upload_knowledge`, `get_knowledge_status`). A
  transcript is uploaded. Its processing status is then polled until it
  is `completed` or `failed`, or the timeout has passed.
- **Task registry** (`api.py`). Each summary request becomes a task in a
  process-wide table. A background runner moves the task from pending to
  processing, then to completed or failed. Clients poll a task, or list
  all of them, without blocking.

Files:

- `wrappers.dfy`: `Option` and `Result`.
- `text.dfy`: the Python string operations used here. These are
  `startswith`, `replace(pat, "")` (as `RemoveAll`) and the blank test
  `not s or not s.strip()` with Python's whitespace set.
- `counselor.dfy`: module `Counselor`.
- `task_api.dfy`: module `TaskApi`, with the class `Registry`.

Abstractions:

- Every HTTP exchange is a parameter `Reply<T>`. It is either `NoReply(cause)`,
  for a request that raised, or `Reply(status, text, body)`.
- `json.loads` on an event line is a parameter `decode: string -> Decoded`.
- The clock of the poll loop is the elapsed time recorded with each poll.
- UUIDs are a caller-supplied id that is required to be fresh.
- `datetime.now()` is a caller-supplied natural-number timestamp.
- The task's human-readable `message` strings are the enumeration `Note`.

The two halves of `process_meeting_summary` are `Registry.Begin` and
`Registry.Finish`. The awaited summarizer call falls between them.
`Begin` requires a pending task, the state `Create` leaves behind.
`Finish` requires a processing task, the state `Begin` leaves behind. Their
only caller is the single background run that `Create` schedules for a new
task.

Points where the code does something other than the obvious reading of
the service, and the model follows the code:

- Event types are matched by the exact names `RunContent` and
  `ToolCallCompleted`.
- Only a payload that is not JSON at all is skipped. A payload that is
  valid JSON but not an object makes reading a field raise, and the
  exception ends the stream (`Halt.PayloadNotObject`).
- The history is meant to hold only non-empty turns, but `get_history`
  tests for non-empty content before it strips the directive. A user turn
  made only of the directive therefore comes back with empty content
  (`EmptyQueryComesBackEmpty`).

## Model

| member | source | states |
|---|---|---|
| `Text.RemoveAll` | counselor.py:113-114 | `replace(suffix, "")` never lengthens the text |
| `Text.RemoveAllAbsent` | counselor.py:113-114 | a user turn without the filter suffix is returned unchanged |
| `Text.StripStart` | api.py:113 | the leading part of `strip()`: what it drops is whitespace, and what it keeps is a suffix of the text that does not start with whitespace |
| `Text.StripEnd` | api.py:113 | the trailing part of `strip()`: what it drops is whitespace, and what it keeps is a prefix of the text that does not end with whitespace |
| `Text.BlankIffAllSpace` | api.py:113 | `not s or not s.strip()` (`IsBlank`, over Python's whitespace set `IsSpace`) holds exactly when every character is whitespace |
| `Counselor.CounselRequest` | counselor.py:62-68 | the request is streamed, in the meeting's own session, and its message is the user's message followed by exactly the meeting's filter suffix |
| `Counselor.Classify` | counselor.py:76-94 | lines without the marker, malformed payloads and objects whose event is not `RunContent` (a tool call included) are skipped. A `RunContent` object with non-empty reasoning emits exactly `("", reasoning, thinking)`, even if it also has content. One with empty reasoning and non-empty content emits exactly `(content, "", end)`. One with neither is skipped. Conversely, a line emits only when it is a `data: ` line with a `RunContent` object. A thinking record is exactly `("", reasoning, thinking)` with non-empty reasoning, so reasoning wins over content. An end record is exactly `(content, "", end)` with empty reasoning and non-empty content. The stream aborts exactly on a payload that is JSON but not an object |
| `Counselor.StreamOf` | counselor.py:75-92 | a stream holds at most one record per input line |
| `Counselor.StreamOfAppend` | counselor.py:75-94 | the stream of `a + b` is the stream of `a` followed by that of `b`, so records keep their lines' order and nothing follows an abort |
| `Counselor.StreamOfSingle` | counselor.py:76-94 | one line contributes no record (blank, no marker, malformed, tool call, other events), exactly its classified record, or an abort |
| `Counselor.CounselStream` | counselor.py:70-96 | a transport error or an HTTP status 400-599 ends the stream before any record. Otherwise the stream is exactly `StreamOf` of the reply's lines, so `StreamOfAppend` and `StreamOfSingle` describe it, and there are at most as many records as lines |
| `Counselor.Counsel` | counselor.py:61-96 | the loop over the lines sends the augmented request and produces exactly `CounselStream` of the reply |
| `Counselor.ThreeEventExample` | counselor.py:84-92 | the events reasoning `think1`, a tool call and answer `answer1`, with blank lines between them, give exactly `[("", "think1", thinking), ("answer1", "", end)]`, whose status tags are `thinking` and `end` |
| `Counselor.StripFilterRoundTrip` | counselor.py:113-114 | stripping the suffix from `message + suffix` (built as at counselor.py:63) gives back `message` when the message holds no `"\n\n"` |
| `Counselor.StripFilterLosesEmbeddedSuffix` | counselor.py:113-114 | without that proviso the round trip fails: a message equal to the suffix comes back empty |
| `Counselor.FilterHistory` | counselor.py:108-118 | the kept turns are no more than the input turns, every one has role user or assistant, and assistant turns are non-empty |
| `Counselor.KeepTurn` | counselor.py:110-117 | a turn is kept exactly when its role is user or assistant and its content is non-empty. The role is kept, an assistant turn is kept unchanged, and a user turn has the suffix stripped |
| `Counselor.FilterHistoryKeeps` | counselor.py:108-118 | every non-empty assistant turn of the input is in the result. Every assistant turn of the result was in the input. Every non-empty user turn of the input is in the result with the suffix stripped. Every user turn of the result is a non-empty user turn of the input with the suffix stripped |
| `Counselor.FilterHistoryAppend` | counselor.py:109-117 | filtering `a + b` is filtering `a` followed by filtering `b`, so input order is kept |
| `Counselor.EmptyQueryComesBackEmpty` | counselor.py:112-115 | a user turn holding only the directive passes the non-empty test and is returned with empty content |
| `Counselor.FilterExchange` | counselor.py:112-117 | a recorded question and answer read back as the question asked and the answer unchanged |
| `Counselor.HistoryRoundTrip` | counselor.py:109-118 | suppose a session is recorded as augmented queries and non-empty answers, and no question holds `"\n\n"`. Reading it back gives exactly the questions as asked, with the answers in order |
| `Counselor.GetHistory` | counselor.py:98-121 | a transport error or a status other than 200 is a failure carrying the cause or the status and body. Otherwise the loop returns exactly the filtered history |
| `Counselor.CleanHistory` | counselor.py:123-134 | deleting succeeds if and only if the server answers 204. Any other status is a failure carrying status and body. A transport error is a failure carrying its cause |
| `Counselor.KnowledgeStatus` | counselor.py:17-24 | the lookup succeeds if and only if the server answers 200, and then gives the record's status field. Any other answer fails with its status and body text. A transport error fails with `RequestFailed` carrying its cause |
| `Counselor.PollStep` | counselor.py:47-59 | the loop keeps polling exactly on a 200 answer whose status is neither `completed` nor `failed`, seen before the deadline. A failed status lookup stops the loop at once with that failure, and only a failed lookup gives `Rejected`. Otherwise one poll gives success exactly on `completed` and failed exactly on `failed`, whatever the time. It gives timeout exactly for another status with elapsed ≥ timeout. Past the deadline a poll always decides |
| `Counselor.Decide` | counselor.py:46-59 | the `while True` loop: a poll that decides stops it with its own verdict. The loop is still polling only if no poll decided |
| `Counselor.DecideIsFirstDecisive` | counselor.py:46-59 | the loop's verdict is that of the first poll that decides one. It is still polling exactly when no poll decides |
| `Counselor.FirstDecisive` | counselor.py:46-59 | a decided verdict comes from some poll whose own decision it is |
| `Counselor.DeadlineEndsPolling` | counselor.py:55-58 | once any poll sees the deadline passed, the loop has stopped |
| `Counselor.ProcessingThenCompleted` | counselor.py:46-59 | `processing` at 0.0 s and 0.5 s, then `completed` at 1.0 s, with a 10 s timeout, ends with success |
| `Counselor.TerminalStatusBeatsTimeout` | counselor.py:51-58 | a `completed` or `failed` status wins over the timeout, however late it is seen |
| `Counselor.TimeoutOnlyPastDeadline` | counselor.py:55-58 | a timeout verdict implies some poll saw a status other than completed or failed, with elapsed ≥ timeout |
| `Counselor.UploadVerdict` | counselor.py:35-59 | a transport error or a status other than 202 on the upload fails before any poll. Success implies a 202 |
| `Counselor.UploadForm` | counselor.py:30-34 | the uploaded content is named `meeting_transcripts_` followed by the meeting id, is tagged with the meeting id, and carries the transcript unchanged |
| `Counselor.UploadKnowledge` | counselor.py:26-59 | the upload form names the meeting, and the poll loop returns exactly `UploadVerdict` |
| `TaskApi.NewTask` | api.py:124-133 | a new record carries the given id and conversation, is pending and well formed (no result, no error), and has `created_at == updated_at` |
| `TaskApi.Started` | api.py:66-68 | starting turns pending into processing and stamps the time. It keeps result, error and identity |
| `TaskApi.Finished` | api.py:82-96 | minutes give completed with result `{success: True, content}` and no error. An exception gives failed with its text as error and no result |
| `TaskApi.EvolvesTransitive` | api.py:62-96 | "no task goes back to an earlier state" composes over any sequence of operations |
| `TaskApi.Registry.constructor` | api.py:37 | the table starts empty |
| `TaskApi.StatusValueIdentifies` | api.py:30-34 | the four wire values `pending`, `processing`, `completed` and `failed` are distinct, so the value names the state exactly |
| `TaskApi.Registry.Create` | api.py:108-147 | a blank conversation is refused with 400 and the table is unchanged. Otherwise exactly one pending record is added under the fresh id and every other entry stays the same |
| `TaskApi.Registry.Begin` | api.py:66-68 | only the task's own entry changes, from pending to processing |
| `TaskApi.Registry.Finish` | api.py:82-96 | only the task's own entry changes, from processing to completed or failed |
| `TaskApi.Registry.Process` | api.py:62-96 | the whole background run goes pending → processing → completed for minutes or failed for an exception, and only that entry changes |
| `TaskApi.Registry.GetStatus` | api.py:158-177 | an unknown id gives 404. A known id gives the stored fields verbatim, and the table is not modified. A completed view has a successful result and no error. A failed view has an error and no result |
| `TaskApi.Registry.ListTasks` | api.py:180-194 | one summary (id, status, timestamps) per stored task, in insertion order, every task listed, and `total` equals the table size |

## Left out

- HTTP traffic (`requests.get/post/delete`, `raise_for_status`, `iter_lines`) is out of the model. Its result is given as a `Reply`.
- Error message texts: the `(False, message)` texts are not built. The model carries the status code and body, or the cause, instead.
- `json.loads`, `json.dumps` and `response.json()` are not modelled. Payloads are given decoded. A reply body that is not JSON, and field values that are not strings, are not modelled.
- The FastAPI application, CORS, the pydantic models, uvicorn, the `/` and `/health` endpoints and the `BackgroundTasks`/`asyncio`/thread-pool dispatch are left out. They are framework plumbing and concurrency. The two halves of a background run are separate methods so that a poll can observe the processing state.
- The create handler's generic 500 path (api.py:151-155) is left out, because nothing in the modelled body can raise.
- `uuid.uuid4`, `datetime.now`, `time.time` and `time.sleep` become parameters: a fresh id, timestamps, and elapsed times.
- Counselor.UploadKnowledge: the real loop runs until the clock passes the timeout. The model is given finitely many polls and answers `StillPolling` if they run out undecided. `DeadlineEndsPolling` shows this cannot happen once a poll is past the deadline. The default `timeout=10` is not modelled: the timeout is always passed in.
- Laziness of the counsel generator, and client disconnection, are not modelled. The model takes the finished list of lines. A transport error in the middle of the stream is not modelled either.
- Counselor.KnowledgeStatus: `get_knowledge_status` does not catch a transport error on its request (counselor.py:20), so the exception escapes to the caller. The model returns it as the value `RequestFailed(cause)` instead, and does not capture that the exception unwinds past the caller.
- Counselor.UploadVerdict: in the same way, a transport error on the upload or on a status lookup (counselor.py:35, :47) escapes `upload_knowledge` as an exception. The model returns it as the value `Rejected(RequestFailed(cause))`.
- `summarizer.py` and `summary_agent.py` are not part of this model. The summarizer's outcome is given as `Summarized`.
- `main.py`, the `__main__` blocks and logging are not part of this model.
