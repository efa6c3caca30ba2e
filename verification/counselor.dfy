/** The counselling client of the meeting-summary service: it streams
    answers from a remote counselling agent, reads back and deletes a
    meeting's chat history, and uploads a transcript into the remote
    knowledge base, polling until it has been ingested.

    Every HTTP exchange is given as the reply it produced; `json.loads` is
    given as a decoding function; the clock is given as the elapsed time
    seen at each poll. */
module Counselor {
  import opened Wrappers
  import opened Text

  /** What a request to the remote server gave back: either the request
      raised before any answer arrived (connection refused, read timeout),
      or a status code, the body as text, and the body as decoded. */
  datatype Reply<T> = NoReply(cause: string) | Reply(status: int, text: string, body: T)

  /** Why an operation failed: the server answered with an unexpected
      status (the message carries the status code and the body text), or
      the request itself raised. */
  datatype Failure = RemoteError(status: int, text: string) | RequestFailed(cause: string)

  // ---------------------------------------------------------------------
  // Counsel: the augmented query and the event-stream classification
  // ---------------------------------------------------------------------

  /** The retrieval-filter directive appended to every counsel query. */
  const FilterDirective: string := "\n\nSearch knowledge with filters: meeting_id="

  /** The suffix appended for one meeting. */
  function FilterSuffix(meetingId: string): string {
    FilterDirective + meetingId
  }

  /** The message actually sent to the counselling agent. */
  function QueryWithFilters(message: string, meetingId: string): string {
    message + FilterSuffix(meetingId)
  }

  /** The form posted to the counselling agent's run endpoint. */
  datatype RunRequest = RunRequest(message: string, stream: bool, sessionId: string)

  /** The request `counsel` sends: the augmented query, streamed, in the
      meeting's own session. */
  function CounselRequest(meetingId: string, message: string): (req: RunRequest)
    ensures req.stream && req.sessionId == meetingId
    ensures StartsWith(req.message, message)
    ensures req.message[|message|..] == FilterSuffix(meetingId)
  {
    RunRequest(QueryWithFilters(message, meetingId), true, meetingId)
  }

  /** The marker every event line of the stream begins with. */
  const DataPrefix: string := "data: "

  /** The fields of a decoded event payload that the client reads; a field
      the payload lacks reads as "". */
  datatype Payload = Payload(event: string, reasoning: string, content: string)

  /** What decoding the text after the marker gives: not JSON at all, JSON
      that is not an object (so reading a field from it raises), or an
      object. */
  datatype Decoded = Malformed | NotObject | Object(payload: Payload)

  /** The status tag of an emitted record. */
  datatype Phase = Thinking | End {
    function Tag(): string {
      match this
      case Thinking => "thinking"
      case End => "end"
    }
  }

  /** One record of the re-framed stream: answer text, reasoning text, tag. */
  datatype Record = Record(content: string, reasoning: string, phase: Phase)

  /** What one line of the inbound stream contributes. */
  datatype LineOutcome = Skip | Emit(record: Record) | Abort

  /** Why the record stream stopped early. */
  datatype Halt = Raised(cause: string) | HttpStatus(status: int) | PayloadNotObject

  /** The records produced, and the error that ended the stream, if any. */
  datatype Stream = Stream(records: seq<Record>, halt: Option<Halt>)

  /** The text after the marker of a line that begins with it. */
  function PayloadText(line: string): string
    requires StartsWith(line, DataPrefix)
  {
    line[|DataPrefix|..]
  }

  /** Classifies one line: blank lines, lines without the marker, payloads
      that do not decode, tool-call-completed events and all other events
      are skipped; a run-content event yields its reasoning if it has any,
      otherwise its answer text if it has any. */
  function Classify(line: string, decode: string -> Decoded): (r: LineOutcome)
    ensures !StartsWith(line, DataPrefix) ==> r == Skip
    ensures StartsWith(line, DataPrefix) && decode(PayloadText(line)) == Malformed ==> r == Skip
    ensures (StartsWith(line, DataPrefix) && decode(PayloadText(line)).Object?
             && decode(PayloadText(line)).payload.event != "RunContent") ==> r == Skip
    ensures (StartsWith(line, DataPrefix) && decode(PayloadText(line)).Object?
             && decode(PayloadText(line)).payload.event == "RunContent") ==>
              var p := decode(PayloadText(line)).payload;
              && (p.reasoning != "" ==> r == Emit(Record("", p.reasoning, Thinking)))
              && (p.reasoning == "" && p.content != "" ==> r == Emit(Record(p.content, "", End)))
              && (p.reasoning == "" && p.content == "" ==> r == Skip)
    ensures r.Emit? ==> StartsWith(line, DataPrefix)
                        && decode(PayloadText(line)).Object?
                        && decode(PayloadText(line)).payload.event == "RunContent"
    ensures r.Abort? <==> StartsWith(line, DataPrefix) && decode(PayloadText(line)) == NotObject
    ensures r.Emit? && r.record.phase == Thinking ==>
              r.record == Record("", decode(PayloadText(line)).payload.reasoning, Thinking)
              && r.record.reasoning != ""
    ensures r.Emit? && r.record.phase == End ==>
              r.record == Record(decode(PayloadText(line)).payload.content, "", End)
              && r.record.content != ""
              && decode(PayloadText(line)).payload.reasoning == ""
  {
    if line == "" then Skip
    else if !StartsWith(line, DataPrefix) then Skip
    else match decode(PayloadText(line))
      case Malformed => Skip
      case NotObject => Abort
      case Object(p) =>
        if p.event == "ToolCallCompleted" then Skip
        else if p.event == "RunContent" && p.reasoning != "" then Emit(Record("", p.reasoning, Thinking))
        else if p.event == "RunContent" && p.content != "" then Emit(Record(p.content, "", End))
        else Skip
  }

  /** Appends what one more line contributes to a stream that has not
      stopped. */
  function Step(s: Stream, line: string, decode: string -> Decoded): Stream {
    if s.halt.Some? then s
    else match Classify(line, decode)
      case Skip => s
      case Emit(r) => Stream(s.records + [r], None)
      case Abort => Stream(s.records, Some(PayloadNotObject))
  }

  /** The stream produced by a sequence of inbound lines, in order: one
      record at most per line, stopping at the first payload that is not an
      object. */
  function StreamOf(lines: seq<string>, decode: string -> Decoded): (s: Stream)
    ensures |s.records| <= |lines|
    decreases |lines|
  {
    if lines == [] then Stream([], None)
    else Step(StreamOf(lines[..|lines| - 1], decode), lines[|lines| - 1], decode)
  }

  /** Concatenation of two streams: nothing follows an error. */
  function Join(s: Stream, t: Stream): Stream {
    if s.halt.Some? then s else Stream(s.records + t.records, t.halt)
  }

  /** The stream of the concatenated lines is the concatenation of the
      streams: records keep the relative order of the lines they come from,
      and an error ends the stream for good. */
  lemma {:induction false} StreamOfAppend(a: seq<string>, b: seq<string>, decode: string -> Decoded)
    ensures StreamOf(a + b, decode) == Join(StreamOf(a, decode), StreamOf(b, decode))
    decreases |b|
  {
    if b == [] {
      assert a + b == a;
    } else {
      var b' := b[..|b| - 1];
      var x := b[|b| - 1];
      assert (a + b)[..|a + b| - 1] == a + b';
      assert (a + b)[|a + b| - 1] == x;
      StreamOfAppend(a, b', decode);
      var sa, sb' := StreamOf(a, decode), StreamOf(b', decode);
      if sa.halt.None? && sb'.halt.None? {
        match Classify(x, decode)
        case Skip =>
        case Emit(r) =>
          assert sa.records + (sb'.records + [r]) == (sa.records + sb'.records) + [r];
        case Abort =>
      }
    }
  }

  /** A single line contributes exactly what `Classify` says. */
  lemma StreamOfSingle(line: string, decode: string -> Decoded)
    ensures StreamOf([line], decode) == match Classify(line, decode)
      case Skip => Stream([], None)
      case Emit(r) => Stream([r], None)
      case Abort => Stream([], Some(PayloadNotObject))
  {
  }

  /** What the generator of `counsel` yields for a reply: a transport error
      or an error status (400 to 599, as `raise_for_status` treats them)
      ends it before any record, otherwise the reply's lines are
      classified. */
  function CounselStream(reply: Reply<seq<string>>, decode: string -> Decoded): (s: Stream)
    ensures reply.NoReply? ==> s == Stream([], Some(Raised(reply.cause)))
    ensures reply.Reply? && 400 <= reply.status < 600 ==> s == Stream([], Some(HttpStatus(reply.status)))
    ensures reply.Reply? && !(400 <= reply.status < 600) ==> s == StreamOf(reply.body, decode)
    ensures reply.Reply? && !(400 <= reply.status < 600) ==> |s.records| <= |reply.body|
  {
    match reply
    case NoReply(cause) => Stream([], Some(Raised(cause)))
    case Reply(status, _, lines) =>
      if 400 <= status < 600 then Stream([], Some(HttpStatus(status)))
      else StreamOf(lines, decode)
  }

  /** `Counselor.counsel`: builds the request for `message` in meeting
      `meetingId` and, given the reply to it, produces the record stream
      line by line. */
  method Counsel(meetingId: string, message: string, reply: Reply<seq<string>>, decode: string -> Decoded)
    returns (req: RunRequest, out: Stream)
    ensures req == CounselRequest(meetingId, message)
    ensures out == CounselStream(reply, decode)
  {
    req := CounselRequest(meetingId, message);
    if reply.NoReply? {
      return req, Stream([], Some(Raised(reply.cause)));
    }
    if 400 <= reply.status < 600 {
      return req, Stream([], Some(HttpStatus(reply.status)));
    }
    var lines := reply.body;
    out := Stream([], None);
    var i := 0;
    while i < |lines| && out.halt.None?
      invariant 0 <= i <= |lines|
      invariant out == StreamOf(lines[..i], decode)
    {
      assert lines[..i + 1][..i] == lines[..i];
      match Classify(lines[i], decode) {
        case Skip =>
        case Emit(r) =>
          out := Stream(out.records + [r], None);
        case Abort =>
          out := Stream(out.records, Some(PayloadNotObject));
      }
      i := i + 1;
    }
    StreamOfAppend(lines[..i], lines[i..], decode);
    assert lines[..i] + lines[i..] == lines;
  }

  /** A typical exchange: a reasoning event, a tool-call event and an
      answer event, separated by blank lines, give exactly one thinking
      record and one end record. */
  lemma ThreeEventExample(decode: string -> Decoded, a: string, b: string, c: string)
    requires decode(a) == Object(Payload("RunContent", "think1", ""))
    requires decode(b) == Object(Payload("ToolCallCompleted", "", ""))
    requires decode(c) == Object(Payload("RunContent", "", "answer1"))
    ensures StreamOf([DataPrefix + a, "", DataPrefix + b, "", DataPrefix + c], decode)
         == Stream([Record("", "think1", Thinking), Record("answer1", "", End)], None)
    ensures var rs := StreamOf([DataPrefix + a, "", DataPrefix + b, "", DataPrefix + c], decode).records;
            rs[0].phase.Tag() == "thinking" && rs[1].phase.Tag() == "end"
  {
    var la, lb, lc := DataPrefix + a, DataPrefix + b, DataPrefix + c;
    assert PayloadText(la) == a && PayloadText(lb) == b && PayloadText(lc) == c;
    StreamOfAppend([la, "", lb, ""], [lc], decode);
    StreamOfAppend([la, ""], [lb, ""], decode);
    StreamOfAppend([la], [""], decode);
    StreamOfAppend([lb], [""], decode);
    assert [la, ""] + [lb, ""] == [la, "", lb, ""];
    assert [la, "", lb, ""] + [lc] == [la, "", lb, "", lc];
    StreamOfSingle(la, decode);
    StreamOfSingle(lb, decode);
    StreamOfSingle(lc, decode);
    StreamOfSingle("", decode);
  }

  // ---------------------------------------------------------------------
  // History: reading back and deleting a meeting's chat history
  // ---------------------------------------------------------------------

  /** One turn of the remote chat history; a missing field reads as "". */
  datatype Turn = Turn(role: string, content: string)

  /** Removes every copy of the meeting's filter suffix from a user turn. */
  function StripFilter(content: string, meetingId: string): string {
    RemoveAll(content, FilterSuffix(meetingId))
  }

  /** Stripping the suffix from the augmented query gives back the message,
      provided the message holds no blank line ("\n\n"), so that the suffix
      cannot also match earlier. */
  lemma {:induction false} StripFilterRoundTrip(message: string, meetingId: string)
    requires !Contains(message, "\n\n")
    ensures StripFilter(QueryWithFilters(message, meetingId), meetingId) == message
  {
    var p := FilterSuffix(meetingId);
    assert FilterDirective[0] == '\n' && FilterDirective[1] == '\n' && FilterDirective[2] == 'S';
    assert p[0] == '\n' && p[1] == '\n' && p[2] == 'S';
    NoEarlierOccurrence(message, p);
    RemoveAllTrailing(message, p);
  }

  /** Without that proviso the round trip can fail: a message that is
      itself the suffix comes back empty. */
  lemma {:induction false} StripFilterLosesEmbeddedSuffix(meetingId: string)
    ensures StripFilter(QueryWithFilters(FilterSuffix(meetingId), meetingId), meetingId) == ""
  {
    var p := FilterSuffix(meetingId);
    RemoveAllTrailing([], p);
    assert [] + p == p;
    assert (p + p)[..|p|] == p && (p + p)[|p|..] == p;
  }

  /** What one remote turn becomes in the returned history: user and
      assistant turns with non-empty content are kept, user content with
      the filter suffix removed; every other turn is dropped. */
  function KeepTurn(t: Turn, meetingId: string): (r: Option<Turn>)
    ensures r.Some? <==> (t.role == "user" || t.role == "assistant") && t.content != ""
    ensures r.Some? ==> r.value.role == t.role
    ensures r.Some? && t.role == "assistant" ==> r.value == t
    ensures r.Some? && t.role == "user" ==> r.value.content == StripFilter(t.content, meetingId)
  {
    if t.role == "user" && t.content != "" then Some(Turn("user", StripFilter(t.content, meetingId)))
    else if t.role == "assistant" && t.content != "" then Some(Turn("assistant", t.content))
    else None
  }

  /** The kept turns, in their original order. */
  function FilterHistory(turns: seq<Turn>, meetingId: string): (r: seq<Turn>)
    ensures |r| <= |turns|
    ensures forall k :: 0 <= k < |r| ==> r[k].role == "user" || r[k].role == "assistant"
    ensures forall k :: 0 <= k < |r| && r[k].role == "assistant" ==> r[k].content != ""
    decreases |turns|
  {
    if turns == [] then []
    else
      var kept := KeepTurn(turns[|turns| - 1], meetingId);
      FilterHistory(turns[..|turns| - 1], meetingId) + (if kept.Some? then [kept.value] else [])
  }

  /** The filtered history keeps every non-empty assistant turn unchanged,
      holds no assistant turn that was not in the input, keeps every
      non-empty user turn with the suffix removed, and every user turn in it
      is a non-empty user turn of the input with the suffix removed. */
  lemma {:induction false} FilterHistoryKeeps(turns: seq<Turn>, meetingId: string)
    ensures forall t :: t in turns && t.role == "assistant" && t.content != ""
                        ==> t in FilterHistory(turns, meetingId)
    ensures forall t :: t in FilterHistory(turns, meetingId) && t.role == "assistant" ==> t in turns
    ensures forall t :: t in turns && t.role == "user" && t.content != ""
                        ==> Turn("user", StripFilter(t.content, meetingId)) in FilterHistory(turns, meetingId)
    ensures forall t :: t in FilterHistory(turns, meetingId) && t.role == "user" ==>
              exists j :: 0 <= j < |turns| && turns[j].role == "user" && turns[j].content != ""
                          && t.content == StripFilter(turns[j].content, meetingId)
    decreases |turns|
  {
    if turns != [] {
      var init, last := turns[..|turns| - 1], turns[|turns| - 1];
      FilterHistoryKeeps(init, meetingId);
      assert turns == init + [last];
      forall t | t in FilterHistory(turns, meetingId) && t.role == "user"
        ensures exists j :: 0 <= j < |turns| && turns[j].role == "user" && turns[j].content != ""
                            && t.content == StripFilter(turns[j].content, meetingId)
      {
        if t in FilterHistory(init, meetingId) {
          var j :| 0 <= j < |init| && init[j].role == "user" && init[j].content != ""
                   && t.content == StripFilter(init[j].content, meetingId);
          assert turns[j] == init[j];
        } else {
          assert turns[|turns| - 1] == last;
        }
      }
    }
  }

  /** Filtering commutes with concatenation: the output keeps the input's
      order. */
  lemma {:induction false} FilterHistoryAppend(a: seq<Turn>, b: seq<Turn>, meetingId: string)
    ensures FilterHistory(a + b, meetingId) == FilterHistory(a, meetingId) + FilterHistory(b, meetingId)
    decreases |b|
  {
    if b == [] {
      assert a + b == a;
    } else {
      var b' := b[..|b| - 1];
      assert (a + b)[..|a + b| - 1] == a + b';
      assert (a + b)[|a + b| - 1] == b[|b| - 1];
      FilterHistoryAppend(a, b', meetingId);
    }
  }

  /** The non-empty test is made before the suffix is stripped, so a user
      turn whose whole content is the suffix comes back with empty content. */
  lemma EmptyQueryComesBackEmpty(meetingId: string)
    ensures FilterHistory([Turn("user", QueryWithFilters("", meetingId))], meetingId) == [Turn("user", "")]
  {
  }

  /** One question asked through `counsel` and the agent's answer. */
  datatype Exchange = Exchange(message: string, answer: string)

  /** The history the server records for a series of exchanges: each
      question as the augmented query it received, then the answer. */
  function Recorded(exchanges: seq<Exchange>, meetingId: string): (r: seq<Turn>)
    ensures |r| == 2 * |exchanges|
  {
    if exchanges == [] then []
    else Recorded(exchanges[..|exchanges| - 1], meetingId)
         + [Turn("user", QueryWithFilters(exchanges[|exchanges| - 1].message, meetingId)),
            Turn("assistant", exchanges[|exchanges| - 1].answer)]
  }

  /** The history the user expects to see: each question as they typed it,
      then the answer. */
  function AsAsked(exchanges: seq<Exchange>): (r: seq<Turn>)
    ensures |r| == 2 * |exchanges|
  {
    if exchanges == [] then []
    else AsAsked(exchanges[..|exchanges| - 1])
         + [Turn("user", exchanges[|exchanges| - 1].message),
            Turn("assistant", exchanges[|exchanges| - 1].answer)]
  }

  /** Reading back a recorded history gives the questions as asked and the
      answers unchanged, when no question holds a blank line and every
      answer is non-empty. */
  lemma {:induction false} HistoryRoundTrip(exchanges: seq<Exchange>, meetingId: string)
    requires forall k :: 0 <= k < |exchanges| ==> !Contains(exchanges[k].message, "\n\n")
    requires forall k :: 0 <= k < |exchanges| ==> exchanges[k].answer != ""
    ensures FilterHistory(Recorded(exchanges, meetingId), meetingId) == AsAsked(exchanges)
    decreases |exchanges|
  {
    if exchanges != [] {
      var init, e := exchanges[..|exchanges| - 1], exchanges[|exchanges| - 1];
      var q := Turn("user", QueryWithFilters(e.message, meetingId));
      var ans := Turn("assistant", e.answer);
      assert forall k :: 0 <= k < |init| ==> init[k] == exchanges[k];
      HistoryRoundTrip(init, meetingId);
      FilterHistoryAppend(Recorded(init, meetingId), [q, ans], meetingId);
      FilterExchange(e, meetingId);
      calc {
        FilterHistory(Recorded(exchanges, meetingId), meetingId);
        FilterHistory(Recorded(init, meetingId) + [q, ans], meetingId);
        FilterHistory(Recorded(init, meetingId), meetingId) + FilterHistory([q, ans], meetingId);
        AsAsked(init) + [Turn("user", e.message), ans];
        AsAsked(exchanges);
      }
    }
  }

  /** One recorded exchange reads back as asked. */
  lemma FilterExchange(e: Exchange, meetingId: string)
    requires !Contains(e.message, "\n\n") && e.answer != ""
    ensures FilterHistory([Turn("user", QueryWithFilters(e.message, meetingId)), Turn("assistant", e.answer)], meetingId)
         == [Turn("user", e.message), Turn("assistant", e.answer)]
  {
    var q := Turn("user", QueryWithFilters(e.message, meetingId));
    var ans := Turn("assistant", e.answer);
    StripFilterRoundTrip(e.message, meetingId);
    assert [q, ans][..1] == [q];
    assert [q][..0] == [];
  }

  /** `Counselor.get_history`: the meeting's history as returned to the
      caller, or why it could not be read. */
  method GetHistory(meetingId: string, reply: Reply<seq<Turn>>) returns (r: Result<seq<Turn>, Failure>)
    ensures reply.NoReply? ==> r == Failure(RequestFailed(reply.cause))
    ensures reply.Reply? && reply.status != 200 ==> r == Failure(RemoteError(reply.status, reply.text))
    ensures reply.Reply? && reply.status == 200 ==> r == Success(FilterHistory(reply.body, meetingId))
  {
    if reply.NoReply? {
      return Failure(RequestFailed(reply.cause));
    }
    if reply.status != 200 {
      return Failure(RemoteError(reply.status, reply.text));
    }
    var turns := reply.body;
    var filtered: seq<Turn> := [];
    for i := 0 to |turns|
      invariant filtered == FilterHistory(turns[..i], meetingId)
    {
      assert turns[..i + 1][..i] == turns[..i];
      var t := turns[i];
      if t.role == "user" && t.content != "" {
        filtered := filtered + [Turn("user", StripFilter(t.content, meetingId))];
      } else if t.role == "assistant" && t.content != "" {
        filtered := filtered + [Turn("assistant", t.content)];
      }
    }
    assert turns[..|turns|] == turns;
    r := Success(filtered);
  }

  /** `Counselor.clean_history`: deleting the session succeeds exactly when
      the server answers 204 No Content; any other answer is reported with
      its status and body. */
  function CleanHistory(reply: Reply<()>): (r: Result<(), Failure>)
    ensures r.Success? <==> reply.Reply? && reply.status == 204
    ensures r.Failure? && reply.Reply? ==> r.error == RemoteError(reply.status, reply.text)
    ensures reply.NoReply? ==> r == Failure(RequestFailed(reply.cause))
    ensures reply.NoReply? ==> r.Failure? && r.error == RequestFailed(reply.cause)
  {
    match reply
    case NoReply(cause) => Failure(RequestFailed(cause))
    case Reply(status, text, _) =>
      if status != 204 then Failure(RemoteError(status, text)) else Success(())
  }

  // ---------------------------------------------------------------------
  // Knowledge ingestion: upload, then poll until a verdict
  // ---------------------------------------------------------------------

  /** The form of the upload request: the content's name, the metadata
      linking it to the meeting, and the transcript. */
  datatype KnowledgeForm = KnowledgeForm(name: string, meetingId: string, text: string)

  /** The upload's form: named after the meeting, tagged with it, and
      carrying the transcript unchanged. */
  function UploadForm(meetingId: string, conversation: string): (f: KnowledgeForm)
    ensures StartsWith(f.name, "meeting_transcripts_") && f.name[|"meeting_transcripts_"|..] == meetingId
    ensures f.meetingId == meetingId && f.text == conversation
  {
    KnowledgeForm("meeting_transcripts_" + meetingId, meetingId, conversation)
  }

  /** `Counselor.get_knowledge_status`: the `status` field of the content
      record (absent when the record has none) when the server answers 200;
      otherwise the status code and body. A request that raises is reported
      as `RequestFailed`, standing for the exception that escapes. */
  function KnowledgeStatus(reply: Reply<Option<string>>): (r: Result<Option<string>, Failure>)
    ensures r.Success? <==> reply.Reply? && reply.status == 200
    ensures r.Success? ==> r.value == reply.body
    ensures r.Failure? && reply.Reply? ==> r.error == RemoteError(reply.status, reply.text)
    ensures reply.NoReply? ==> r == Failure(RequestFailed(reply.cause))
  {
    match reply
    case NoReply(cause) => Failure(RequestFailed(cause))
    case Reply(status, text, st) =>
      if status != 200 then Failure(RemoteError(status, text)) else Success(st)
  }

  /** One round of the poll loop: the status lookup's reply and the time
      elapsed since polling started, read after the lookup. */
  datatype Poll = Poll(reply: Reply<Option<string>>, elapsed: real)

  /** The verdict of `upload_knowledge`. `Ingested` is its (True, "success"),
      `IngestFailed` its (False, "failed"), `TimedOut` its (False, "timeout"),
      `Rejected` its (False, message) for an unexpected status (or the
      exception that escapes); `StillPolling` says the given polls ran out
      before the loop stopped. */
  datatype Ingest = Ingested | IngestFailed | TimedOut | Rejected(failure: Failure) | StillPolling

  /** The decision taken after one poll; `None` means sleep and poll again.
      A terminal status is checked before the clock. */
  function PollStep(p: Poll, timeout: int): (r: Option<Ingest>)
    ensures r != Some(StillPolling)
    ensures r == Some(Ingested) <==> p.reply.Reply? && p.reply.status == 200 && p.reply.body == Some("completed")
    ensures r == Some(IngestFailed) <==> p.reply.Reply? && p.reply.status == 200 && p.reply.body == Some("failed")
    ensures r == Some(TimedOut) <==>
              p.reply.Reply? && p.reply.status == 200
              && p.reply.body != Some("completed") && p.reply.body != Some("failed")
              && p.elapsed >= timeout as real
    ensures p.elapsed >= timeout as real ==> r.Some?
    ensures KnowledgeStatus(p.reply).Failure? ==> r == Some(Rejected(KnowledgeStatus(p.reply).error))
    ensures r.Some? && r.value.Rejected? ==> KnowledgeStatus(p.reply).Failure?
    ensures r.None? <==>
              p.reply.Reply? && p.reply.status == 200
              && p.reply.body != Some("completed") && p.reply.body != Some("failed")
              && p.elapsed < timeout as real
  {
    match KnowledgeStatus(p.reply)
    case Failure(f) => Some(Rejected(f))
    case Success(st) =>
      if st == Some("completed") then Some(Ingested)
      else if st == Some("failed") then Some(IngestFailed)
      else if p.elapsed >= timeout as real then Some(TimedOut)
      else None
  }

  /** The verdict of the first poll that decides one. */
  function Decide(polls: seq<Poll>, timeout: int): (v: Ingest)
    ensures v == StillPolling ==> forall i :: 0 <= i < |polls| ==> PollStep(polls[i], timeout).None?
    ensures polls != [] && PollStep(polls[0], timeout).Some? ==> v == PollStep(polls[0], timeout).value
    decreases |polls|
  {
    if polls == [] then StillPolling
    else match PollStep(polls[0], timeout)
      case Some(v) => v
      case None => Decide(polls[1..], timeout)
  }

  /** `Decide` picks out the first decisive poll: the loop is still polling
      exactly when no poll decides, and otherwise it stops with the verdict
      of the first that does. */
  lemma {:induction false} DecideIsFirstDecisive(polls: seq<Poll>, timeout: int)
    ensures Decide(polls, timeout) == StillPolling <==>
              forall i :: 0 <= i < |polls| ==> PollStep(polls[i], timeout).None?
    ensures forall k :: 0 <= k < |polls| && PollStep(polls[k], timeout).Some?
                        && (forall j :: 0 <= j < k ==> PollStep(polls[j], timeout).None?)
                        ==> Decide(polls, timeout) == PollStep(polls[k], timeout).value
    decreases |polls|
  {
    if polls != [] {
      DecideIsFirstDecisive(polls[1..], timeout);
      if PollStep(polls[0], timeout).None? {
        forall k | 0 < k < |polls| && PollStep(polls[k], timeout).Some?
                   && (forall j :: 0 <= j < k ==> PollStep(polls[j], timeout).None?)
          ensures Decide(polls[1..], timeout) == PollStep(polls[k], timeout).value
        {
          assert polls[1..][k - 1] == polls[k];
          forall j | 0 <= j < k - 1 ensures PollStep(polls[1..][j], timeout).None? {
            assert polls[1..][j] == polls[j + 1];
          }
        }
        forall i | 0 <= i < |polls[1..]| ensures polls[1..][i] == polls[i + 1] { }
      }
    }
  }

  /** Once a poll sees the deadline passed, the loop has stopped: polling
      never outlives the timeout. */
  lemma DeadlineEndsPolling(polls: seq<Poll>, timeout: int, k: nat)
    requires k < |polls| && polls[k].elapsed >= timeout as real
    ensures Decide(polls, timeout) != StillPolling
  {
    DecideIsFirstDecisive(polls, timeout);
  }

  /** A completed or failed status wins over the deadline, however late it
      is seen, provided no earlier poll decided. */
  lemma TerminalStatusBeatsTimeout(polls: seq<Poll>, timeout: int, k: nat)
    requires k < |polls| && polls[k].reply.Reply? && polls[k].reply.status == 200
    requires polls[k].reply.body == Some("completed") || polls[k].reply.body == Some("failed")
    requires forall j :: 0 <= j < k ==> PollStep(polls[j], timeout).None?
    ensures Decide(polls, timeout) == (if polls[k].reply.body == Some("completed") then Ingested else IngestFailed)
  {
    DecideIsFirstDecisive(polls, timeout);
  }

  /** A typical ingestion: two `processing` polls within the deadline keep
      the loop going, and the `completed` poll that follows ends it with
      success. */
  lemma ProcessingThenCompleted(text: string)
    ensures Decide([Poll(Reply(200, text, Some("processing")), 0.0),
                    Poll(Reply(200, text, Some("processing")), 0.5),
                    Poll(Reply(200, text, Some("completed")), 1.0)], 10) == Ingested
  {
  }

  /** The whole operation as a function of its replies: a transport error
      or a status other than 202 Accepted on the upload ends it before any
      poll; otherwise the polls decide. */
  function UploadVerdict(upload: Reply<string>, polls: seq<Poll>, timeout: int): (v: Ingest)
    ensures upload.NoReply? ==> v == Rejected(RequestFailed(upload.cause))
    ensures upload.Reply? && upload.status != 202 ==> v == Rejected(RemoteError(upload.status, upload.text))
    ensures upload.Reply? && upload.status == 202 ==> v == Decide(polls, timeout)
  {
    match upload
    case NoReply(cause) => Rejected(RequestFailed(cause))
    case Reply(status, text, _) =>
      if status != 202 then Rejected(RemoteError(status, text))
      else Decide(polls, timeout)
  }

  /** A timeout is reported only after some poll saw a status that is
      neither completed nor failed with the deadline passed. */
  lemma TimeoutOnlyPastDeadline(upload: Reply<string>, polls: seq<Poll>, timeout: int)
    requires UploadVerdict(upload, polls, timeout) == TimedOut
    ensures exists k :: 0 <= k < |polls| && polls[k].elapsed >= timeout as real
                        && polls[k].reply.Reply? && polls[k].reply.status == 200
                        && polls[k].reply.body != Some("completed") && polls[k].reply.body != Some("failed")
  {
    var k := FirstDecisive(polls, timeout);
    assert PollStep(polls[k], timeout) == Some(TimedOut);
  }

  /** The index of the poll whose verdict `Decide` returns. */
  lemma {:induction false} FirstDecisive(polls: seq<Poll>, timeout: int) returns (k: nat)
    requires Decide(polls, timeout) != StillPolling
    ensures k < |polls| && PollStep(polls[k], timeout) == Some(Decide(polls, timeout))
    decreases |polls|
  {
    if PollStep(polls[0], timeout).Some? {
      k := 0;
    } else {
      var k' := FirstDecisive(polls[1..], timeout);
      k := k' + 1;
    }
  }

  /** `Counselor.upload_knowledge`: submits the transcript, then polls the
      content's status until a verdict (or until the given polls run out). */
  method UploadKnowledge(meetingId: string, conversation: string, timeout: int,
                         upload: Reply<string>, polls: seq<Poll>)
    returns (form: KnowledgeForm, v: Ingest)
    ensures form == UploadForm(meetingId, conversation)
    ensures v == UploadVerdict(upload, polls, timeout)
  {
    form := UploadForm(meetingId, conversation);
    if upload.NoReply? {
      return form, Rejected(RequestFailed(upload.cause));
    }
    if upload.status != 202 {
      return form, Rejected(RemoteError(upload.status, upload.text));
    }
    var i := 0;
    while i < |polls|
      invariant 0 <= i <= |polls|
      invariant Decide(polls, timeout) == Decide(polls[i..], timeout)
    {
      var status := KnowledgeStatus(polls[i].reply);
      if status.Failure? {
        return form, Rejected(status.error);
      }
      if status.value == Some("completed") {
        return form, Ingested;
      } else if status.value == Some("failed") {
        return form, IngestFailed;
      } else if polls[i].elapsed >= timeout as real {
        return form, TimedOut;
      }
      assert polls[i..][1..] == polls[i + 1..];
      i := i + 1;
    }
    v := StillPolling;
  }
}
