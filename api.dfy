/**
 * The HTTP layer's own logic: question and message validation, the
 * events-mode Server-Sent-Events generator (which keeps the frames of the
 * five graph nodes, numbers them and closes with one `complete` frame), and
 * the non-streaming `/research` endpoint's result.
 */
module Api {
  import opened Wrappers
  import opened Text
  import opened Json
  import opened Workflow
  import Nodes

  // ---------------------------------------------------------------------------
  // Request validation

  /** `question.strip()` is not empty. */
  predicate ValidQuestion(question: string)
  {
    Strip(question) != ""
  }

  /** A question is valid exactly when it has a character that is not whitespace. */
  lemma ValidQuestionHasText(question: string)
    ensures ValidQuestion(question) <==> exists i :: 0 <= i < |question| && !IsSpace(question[i])
  {
    if !ValidQuestion(question) {
      forall i | 0 <= i < |question|
        ensures IsSpace(question[i])
      {
        assert IsBlank(question);
      }
    }
  }

  const EmptyQuestion := "Question cannot be empty"

  /** `str(HTTPException(status, detail))`. */
  function HttpErrorText(status: nat, detail: string): string
  {
    NatToString(status) + ": " + detail
  }

  /** An HTTP response: a body, or an error status with its detail. */
  datatype HttpResult<T> = Ok(body: T) | HttpError(status: nat, detail: string)

  // ---------------------------------------------------------------------------
  // The events-mode generator of `research_stream_endpoint`

  /** The node names whose events become frames. */
  const TrackedNodes: set<string> :=
    {"generate_queries", "web_search", "aggregate_results", "reflection", "answer_generation"}

  /** A workflow event with its timestamp, in integer milliseconds. */
  datatype TimedEvent = TimedEvent(event: StreamEvent, ts: int)

  /** The JSON payload of a frame; its encoding as text is not modelled. */
  datatype Payload =
    | StartPayload(node: string, input: Json)
    | CompletePayload(node: string, output: Json, durationMs: int)
    | FinalPayload(finalAnswer: Json, citations: Json)
    | ErrorPayload(error: string)
  {
    function TypeName(): string
    {
      match this
      case StartPayload(_, _) => "node_start"
      case CompletePayload(_, _, _) => "node_complete"
      case FinalPayload(_, _) => "complete"
      case ErrorPayload(_) => "error"
    }
  }

  /** A frame: numbered frames carry an id and an event line; the error frame carries only data. */
  datatype Frame = Frame(id: Option<nat>, payload: Payload)

  /** An event that becomes a frame: a start or completion of a tracked node. */
  predicate IsTracked(e: TimedEvent)
  {
    (e.event.NodeStart? || e.event.NodeComplete?) && e.event.NodeName() in TrackedNodes
  }

  /** What a completion of the answer node contributes to the closing frame. */
  datatype AnswerCapture = NoAnswer | AnswerFound(finalAnswer: Json, citations: Json) | CaptureRaised

  /**
   * `if "output" in output_data: output_data["output"].get(...)`: an object
   * with an `output` object yields its `final_answer` (default "") and
   * `citations` (default []); a non-object `output`, or indexing a list or
   * string by "output", or `in` on a scalar, raises.
   */
  function CaptureAnswer(data: Json): (c: AnswerCapture)
    ensures data.JObj? && HasKey(data.fields, "output") && Get(data.fields, "output").value.JObj? ==>
      c == AnswerFound(Get(Get(data.fields, "output").value.fields, "final_answer").GetOr(JStr("")),
                       Get(Get(data.fields, "output").value.fields, "citations").GetOr(JArr([])))
    ensures data.JObj? && !HasKey(data.fields, "output") ==> c == NoAnswer
  {
    match data
    case JObj(fields) =>
      (match Get(fields, "output")
       case None => NoAnswer
       case Some(JObj(output)) =>
         AnswerFound(Get(output, "final_answer").GetOr(JStr("")), Get(output, "citations").GetOr(JArr([])))
       case Some(_) => CaptureRaised)
    case JArr(items) => if JStr("output") in items then CaptureRaised else NoAnswer
    case JStr(t) => if Contains(t, "output") then CaptureRaised else NoAnswer
    case _ => CaptureRaised
  }

  /** The generator's variables: frames sent, `event_counter`, `node_start_times`, the captured answer, the exception. */
  datatype Emitter = Emitter(
    frames: seq<Frame>,
    counter: nat,
    starts: map<string, int>,
    finalAnswer: Json,
    citations: Json,
    failure: Option<string>)

  const FreshEmitter: Emitter := Emitter([], 0, map[], JStr(""), JArr([]), None)

  /** The generator after one more event (the loop stops at the first exception). */
  function Step(em: Emitter, e: TimedEvent): Emitter
  {
    var name := e.event.NodeName();
    if em.failure.Some? || !IsTracked(e) then em
    else if e.event.NodeStart? then
      em.(frames := em.frames + [Frame(Some(em.counter), StartPayload(name, JObj([("message", JStr(e.event.message))])))],
          counter := em.counter + 1,
          starts := em.starts[name := e.ts])
    else
      var start := if name in em.starts then em.starts[name] else e.ts;
      var capture := if name == "answer_generation" then CaptureAnswer(e.event.data) else NoAnswer;
      if capture.CaptureRaised? then em.(failure := Some(Nodes.AttributeErrorText))
      else
        em.(frames := em.frames + [Frame(Some(em.counter), CompletePayload(name, e.event.data, e.ts - start))],
            counter := em.counter + 1,
            finalAnswer := if capture.AnswerFound? then capture.finalAnswer else em.finalAnswer,
            citations := if capture.AnswerFound? then capture.citations else em.citations)
  }

  /** The generator after the first `n` events. */
  function EmitPrefix(events: seq<TimedEvent>, n: nat): Emitter
    requires n <= |events|
  {
    if n == 0 then FreshEmitter else Step(EmitPrefix(events, n - 1), events[n - 1])
  }

  /** The frames of a whole stream: the numbered frames, then the `complete` frame, or a data-only error frame. */
  function StreamFrames(events: seq<TimedEvent>): seq<Frame>
  {
    var em := EmitPrefix(events, |events|);
    em.frames +
      if em.failure.Some? then [Frame(None, ErrorPayload(em.failure.value))]
      else [Frame(Some(em.counter), FinalPayload(em.finalAnswer, em.citations))]
  }

  /** The tracked events among `es`. */
  function CountTracked(es: seq<TimedEvent>): nat
  {
    if es == [] then 0 else CountTracked(es[..|es| - 1]) + if IsTracked(es[|es| - 1]) then 1 else 0
  }

  /** The timestamp of the latest tracked start of `name` in `es`. */
  function LastStart(es: seq<TimedEvent>, name: string): (t: Option<int>)
  {
    if es == [] then None
    else
      var e := es[|es| - 1];
      if IsTracked(e) && e.event.NodeStart? && e.event.node == name then Some(e.ts)
      else LastStart(es[..|es| - 1], name)
  }

  /** The answer of the latest answer-node completion in `es` that has an `output`. */
  function LastAnswer(es: seq<TimedEvent>): (a: AnswerCapture)
    ensures !a.CaptureRaised?
  {
    if es == [] then NoAnswer
    else
      var e := es[|es| - 1];
      if e.event.NodeComplete? && e.event.node == "answer_generation" && CaptureAnswer(e.event.data).AnswerFound?
      then CaptureAnswer(e.event.data)
      else LastAnswer(es[..|es| - 1])
  }

  /** Frame `i` has id `i`, and every frame is a start or completion of a tracked node. */
  predicate NodeFrames(frames: seq<Frame>)
  {
    forall i :: 0 <= i < |frames| ==>
      && frames[i].id == Some(i)
      && (frames[i].payload.StartPayload? || frames[i].payload.CompletePayload?)
      && frames[i].payload.node in TrackedNodes
  }

  lemma NodeFramesSnoc(frames: seq<Frame>, f: Frame)
    requires NodeFrames(frames)
    requires f.id == Some(|frames|) && (f.payload.StartPayload? || f.payload.CompletePayload?)
    requires f.payload.node in TrackedNodes
    ensures NodeFrames(frames + [f])
  {
  }

  /**
   * Until an exception: frame `i` has id `i`, the counter is the number of
   * frames, which is the number of tracked events so far, and every frame
   * is a start or completion of a tracked node.
   */
  lemma {:induction false} FramesNumbered(events: seq<TimedEvent>, n: nat)
    requires n <= |events|
    ensures var em := EmitPrefix(events, n);
      && em.counter == |em.frames|
      && (em.failure.None? ==> em.counter == CountTracked(events[..n]))
      && NodeFrames(em.frames)
  {
    if n > 0 {
      FramesNumbered(events, n - 1);
      assert events[..n][..n - 1] == events[..n - 1];
      var em, e := EmitPrefix(events, n - 1), events[n - 1];
      var em' := Step(em, e);
      if em'.frames != em.frames {
        NodeFramesSnoc(em.frames, em'.frames[|em.frames|]);
        assert em'.frames == em.frames + [em'.frames[|em.frames|]];
      }
    }
  }

  /** `node_start_times` holds, for each tracked name, the time of its latest start. */
  lemma {:induction false} StartsAreLatest(events: seq<TimedEvent>, n: nat, name: string)
    requires n <= |events|
    requires EmitPrefix(events, n).failure.None?
    ensures var em := EmitPrefix(events, n);
      (if name in em.starts then Some(em.starts[name]) else None) == LastStart(events[..n], name)
  {
    if n > 0 {
      StartsAreLatest(events, n - 1, name);
      assert events[..n][..n - 1] == events[..n - 1];
    }
  }

  /**
   * A completion frame's duration is its timestamp minus the latest start
   * of the same node, or 0 when the node never started.
   */
  lemma DurationFromLatestStart(events: seq<TimedEvent>, n: nat)
    requires 0 < n <= |events|
    requires EmitPrefix(events, n).failure.None?
    requires IsTracked(events[n - 1]) && events[n - 1].event.NodeComplete?
    ensures var em := EmitPrefix(events, n);
      var e := events[n - 1];
      && em.frames[|em.frames| - 1].payload.CompletePayload?
      && em.frames[|em.frames| - 1].payload.durationMs == e.ts - LastStart(events[..n - 1], e.event.node).GetOr(e.ts)
  {
    StartsAreLatest(events, n - 1, events[n - 1].event.node);
  }

  /**
   * The captured answer and citations are those of the latest answer-node
   * completion with an `output`, and "" and [] when there is none.
   */
  lemma {:induction false} AnswerIsLatest(events: seq<TimedEvent>, n: nat)
    requires n <= |events|
    requires EmitPrefix(events, n).failure.None?
    ensures var em := EmitPrefix(events, n);
      && (LastAnswer(events[..n]).AnswerFound? ==>
            em.finalAnswer == LastAnswer(events[..n]).finalAnswer && em.citations == LastAnswer(events[..n]).citations)
      && (LastAnswer(events[..n]).NoAnswer? ==> em.finalAnswer == JStr("") && em.citations == JArr([]))
  {
    if n > 0 {
      AnswerIsLatest(events, n - 1);
      assert events[..n][..n - 1] == events[..n - 1];
    }
  }

  /**
   * The whole stream: without an exception, one frame per tracked event and
   * then exactly one `complete` frame, numbered one past the others and
   * carrying the latest captured answer; after an exception, a single
   * data-only error frame ends the stream and no `complete` frame is sent.
   */
  lemma StreamShape(events: seq<TimedEvent>)
    ensures var frames := StreamFrames(events);
      var em := EmitPrefix(events, |events|);
      && |frames| >= 1
      && (forall i :: 0 <= i < |frames| - 1 ==> frames[i].id == Some(i) && !frames[i].payload.FinalPayload?)
      && (em.failure.None? ==>
            && |frames| == CountTracked(events) + 1
            && frames[|frames| - 1].id == Some(|frames| - 1)
            && frames[|frames| - 1].payload.FinalPayload?
            && (LastAnswer(events).AnswerFound? ==>
                  frames[|frames| - 1].payload == FinalPayload(LastAnswer(events).finalAnswer, LastAnswer(events).citations))
            && (LastAnswer(events).NoAnswer? ==> frames[|frames| - 1].payload == FinalPayload(JStr(""), JArr([]))))
      && (em.failure.Some? ==>
            frames[|frames| - 1].id.None? && frames[|frames| - 1].payload.ErrorPayload?)
  {
    FramesNumbered(events, |events|);
    assert events[..|events|] == events;
    if EmitPrefix(events, |events|).failure.None? {
      AnswerIsLatest(events, |events|);
    }
  }

  /** Once the generator has raised, later events change nothing. */
  lemma {:induction false} EmitFailureSticks(events: seq<TimedEvent>, i: nat, j: nat)
    requires i <= j <= |events|
    requires EmitPrefix(events, i).failure.Some?
    ensures EmitPrefix(events, j) == EmitPrefix(events, i)
    decreases j
  {
    if j > i {
      EmitFailureSticks(events, i, j - 1);
    }
  }

  /** The generator's `async for` loop, up to its end or an exception. */
  method EmitLoop(events: seq<TimedEvent>)
    returns (frames: seq<Frame>, eventCounter: nat, finalAnswer: Json, citations: Json, failure: Option<string>)
    ensures var em := EmitPrefix(events, |events|);
      && frames == em.frames && eventCounter == em.counter && finalAnswer == em.finalAnswer
      && citations == em.citations && failure == em.failure
  {
    eventCounter := 0;
    var nodeStartTimes: map<string, int> := map[];
    finalAnswer := JStr("");
    citations := JArr([]);
    failure := None;
    frames := [];
    var i := 0;
    while i < |events| && failure.None?
      invariant i <= |events|
      invariant Emitter(frames, eventCounter, nodeStartTimes, finalAnswer, citations, failure) == EmitPrefix(events, i)
    {
      ghost var before := Emitter(frames, eventCounter, nodeStartTimes, finalAnswer, citations, failure);
      assert EmitPrefix(events, i + 1) == Step(before, events[i]);
      var event := events[i].event;
      var ts := events[i].ts;
      var nodeName := event.NodeName();
      i := i + 1;
      if nodeName !in TrackedNodes {
        continue;
      }
      var payload: Payload;
      if event.NodeStart? {
        nodeStartTimes := nodeStartTimes[nodeName := ts];
        payload := StartPayload(nodeName, JObj([("message", JStr(event.message))]));
      } else if event.NodeComplete? {
        var startTs := if nodeName in nodeStartTimes then nodeStartTimes[nodeName] else ts;
        if nodeName == "answer_generation" {
          match CaptureAnswer(event.data)
          case CaptureRaised =>
            failure := Some(Nodes.AttributeErrorText);
            continue;
          case AnswerFound(answer, cited) =>
            finalAnswer := answer;
            citations := cited;
          case NoAnswer =>
        }
        payload := CompletePayload(nodeName, event.data, ts - startTs);
      } else {
        continue;
      }
      frames := frames + [Frame(Some(eventCounter), payload)];
      eventCounter := eventCounter + 1;
    }
    if failure.Some? {
      EmitFailureSticks(events, i, |events|);
    }
  }

  /** The events-mode `generate_stream()`, over the workflow's events and their timestamps. */
  method GenerateStream(events: seq<TimedEvent>) returns (frames: seq<Frame>)
    ensures frames == StreamFrames(events)
  {
    var eventCounter, finalAnswer, citations, failure;
    frames, eventCounter, finalAnswer, citations, failure := EmitLoop(events);
    if failure.Some? {
      frames := frames + [Frame(None, ErrorPayload(failure.value))];
    } else {
      frames := frames + [Frame(Some(eventCounter), FinalPayload(finalAnswer, citations))];
    }
  }

  // ---------------------------------------------------------------------------
  // Frame text

  /**
   * A frame as sent: `id: N\nevent: T\ndata: D\n\n`, or `data: D\n\n`
   * without an id; `data` is the payload's JSON text.
   */
  function FrameText(id: Option<nat>, eventType: string, data: string): string
  {
    if id.Some? then
      var idLine := "id: " + NatToString(id.value);
      var eventLine := "event: " + eventType;
      var dataLine := "data: " + data;
      idLine + "\n" + eventLine + "\n" + dataLine + "\n\n"
    else "data: " + data + "\n\n"
  }

  /** Three lines and two empty ones, joined by line breaks. */
  lemma JoinFrameLines(a: string, b: string, c: string)
    ensures Join([a, b, c, "", ""], "\n") == a + "\n" + b + "\n" + c + "\n\n"
  {
    var parts := [a, b, c, "", ""];
    assert Join(parts[3..], "\n") == "\n" by {
      assert parts[3..][1..] == [""];
    }
    assert Join(parts[2..], "\n") == c + "\n\n" by {
      assert parts[2..][1..] == parts[3..];
    }
    assert Join(parts[1..], "\n") == b + "\n" + (c + "\n\n") by {
      assert parts[1..][1..] == parts[2..];
    }
  }

  /**
   * A numbered frame has five lines (the last two empty), and its id can be
   * read back from the first: a client's `Last-Event-ID` is the counter.
   */
  lemma FrameIdReadBack(n: nat, eventType: string, data: string)
    requires '\n' !in eventType && '\n' !in data
    ensures var lines := Split(FrameText(Some(n), eventType, data), "\n");
      && lines == ["id: " + NatToString(n), "event: " + eventType, "data: " + data, "", ""]
      && lines[0][..4] == "id: "
      && (forall k :: 4 <= k < |lines[0]| ==> IsDigit(lines[0][k]))
      && DigitsValue(lines[0][4..]) == n
  {
    var parts := ["id: " + NatToString(n), "event: " + eventType, "data: " + data, "", ""];
    JoinFrameLines(parts[0], parts[1], parts[2]);
    SplitJoin(parts, '\n');
    assert parts[0][4..] == NatToString(n);
    DigitsValueOfNatToString(n);
  }

  // ---------------------------------------------------------------------------
  // research_stream_endpoint and run_thread

  /** `ResearchRequest.stream_mode` when the request does not set it. */
  const DefaultStreamMode: string := "values"

  /**
   * What a streaming response carries: the frames of the events mode, or
   * the stream of the state mode (any other `stream_mode`), which is not
   * modelled.
   */
  datatype StreamBody = EventFrames(frames: seq<Frame>) | StateModeStream

  /** The branch `generate_stream` takes on the request's `stream_mode`. */
  function StreamBodyFor(streamMode: string, events: seq<TimedEvent>): (b: StreamBody)
    ensures b.EventFrames? <==> streamMode == "events"
  {
    if streamMode == "events" then EventFrames(StreamFrames(events)) else StateModeStream
  }

  /**
   * `research_stream_endpoint` as written: the 400 it raises for a blank
   * question is caught by its own `except Exception` and re-raised as a 500
   * whose detail is the text of the first exception.
   */
  function StreamEndpointAsWritten(question: string, streamMode: string, events: seq<TimedEvent>): (r: HttpResult<StreamBody>)
    ensures r.HttpError? <==> !ValidQuestion(question)
    ensures r.HttpError? ==> r.status == 500
    ensures r.Ok? && streamMode == "events" ==> r.body == EventFrames(StreamFrames(events))
    ensures r.Ok? && streamMode != "events" ==> r.body == StateModeStream
  {
    if !ValidQuestion(question) then HttpError(500, HttpErrorText(400, EmptyQuestion))
    else Ok(StreamBodyFor(streamMode, events))
  }

  /** A whitespace-only question gets status 500 from the endpoint as written. */
  lemma BlankQuestionGets500(streamMode: string, events: seq<TimedEvent>)
    ensures StreamEndpointAsWritten(" ", streamMode, events) == HttpError(500, HttpErrorText(400, EmptyQuestion))
  {
    assert !ValidQuestion(" ") by {
      assert IsBlank(" ");
    }
  }

  /**
   * `research_stream_endpoint` with the evident intent: a blank question is
   * rejected with 400 "Question cannot be empty"; any other question gets
   * the stream of its mode.
   */
  function StreamEndpoint(question: string, streamMode: string, events: seq<TimedEvent>): (r: HttpResult<StreamBody>)
    ensures r.HttpError? <==> !ValidQuestion(question)
    ensures r.HttpError? ==> r == HttpError(400, EmptyQuestion)
    ensures r.Ok? && streamMode == "events" ==> r.body == EventFrames(StreamFrames(events))
    ensures r.Ok? && streamMode != "events" ==> r.body == StateModeStream
  {
    if !ValidQuestion(question) then HttpError(400, EmptyQuestion)
    else Ok(StreamBodyFor(streamMode, events))
  }

  /** How `run_thread` treats a payload: delegates a question, rejects it, or fails with an internal error. */
  datatype RunRequest = Delegate(question: string) | Reject(status: nat, detail: string) | ServerError(reason: string)

  /** The text of the validation error for a question that is not a string. */
  const ValidationErrorText := "ValidationError"

  /**
   * `run_thread(thread_id, payload)`'s checks: messages missing, not a list
   * or empty give 400; a first message without a truthy `content` gives 400;
   * a non-object `input` or first message, or a content that is not a
   * string, fails inside the handler.
   */
  function RunThread(payload: seq<(string, Json)>): (r: RunRequest)
    ensures r.Delegate? ==> r.question != ""
    ensures r.Reject? ==> r.status == 400
    ensures var input := Get(payload, "input").GetOr(JObj([]));
      input.JObj? ==>
        var messages := Get(input.fields, "messages").GetOr(JArr([]));
        && (!messages.JArr? || messages.items == [] ==> r == Reject(400, "Missing messages in request"))
        && (messages.JArr? && messages.items != [] && messages.items[0].JObj? ==>
              var content := Get(messages.items[0].fields, "content");
              && (content.None? || !Truthy(content.value) ==> r == Reject(400, "First message missing content"))
              && (content.Some? && content.value.JStr? && content.value.s != [] ==> r == Delegate(content.value.s)))
  {
    match Get(payload, "input").GetOr(JObj([]))
    case JObj(inputData) =>
      var messages := Get(inputData, "messages").GetOr(JArr([]));
      if !Truthy(messages) || !messages.JArr? then Reject(400, "Missing messages in request")
      else
        (match messages.items[0]
         case JObj(first) =>
           var question := Get(first, "content");
           if question.None? || !Truthy(question.value) then Reject(400, "First message missing content")
           else if question.value.JStr? then Delegate(question.value.s)
           else ServerError(ValidationErrorText)
         case _ => ServerError(Nodes.AttributeErrorText))
    case _ => ServerError(Nodes.AttributeErrorText)
  }

  /**
   * A run on a thread answers as the stream endpoint does for a request
   * holding the first message's content and the default `stream_mode`
   * ("values"): a state-mode stream, never the events-mode frames. A content
   * of only whitespace passes `run_thread`'s own check and meets the
   * endpoint's 500.
   */
  function RunThreadResponse(payload: seq<(string, Json)>, events: seq<TimedEvent>): (r: HttpResult<StreamBody>)
    ensures RunThread(payload).Delegate? && ValidQuestion(RunThread(payload).question) ==> r == Ok(StateModeStream)
    ensures RunThread(payload).Delegate? && !ValidQuestion(RunThread(payload).question) ==>
      r == HttpError(500, HttpErrorText(400, EmptyQuestion))
    ensures RunThread(payload).Reject? ==> r == HttpError(400, RunThread(payload).detail)
    ensures RunThread(payload).ServerError? ==> r == HttpError(500, "Internal Server Error")
    ensures r != Ok(EventFrames(StreamFrames(events)))
  {
    match RunThread(payload)
    case Delegate(question) => StreamEndpointAsWritten(question, DefaultStreamMode, events)
    case Reject(status, detail) => HttpError(status, detail)
    case ServerError(_) => HttpError(500, "Internal Server Error")
  }

  /** A first message whose content is a single space reaches the endpoint's blank-question 500. */
  lemma RunThreadBlankContentGets500(events: seq<TimedEvent>)
    ensures var payload := [("input", JObj([("messages", JArr([JObj([("content", JStr(" "))])]))]))];
      RunThreadResponse(payload, events) == HttpError(500, HttpErrorText(400, EmptyQuestion))
  {
    var payload := [("input", JObj([("messages", JArr([JObj([("content", JStr(" "))])]))]))];
    assert RunThread(payload) == Delegate(" ");
    assert !ValidQuestion(" ") by {
      assert IsBlank(" ");
    }
  }

  // ---------------------------------------------------------------------------
  // research_endpoint (/research)

  /** What `stream_research` yields: a state update, the completion with its data, or an error. */
  datatype StateStreamItem = StateUpdate | Completion(data: seq<(string, Json)>) | StreamFailure(error: string)

  /** The data of the last completion among `items`. */
  function LastCompletion(items: seq<StateStreamItem>): (r: Option<seq<(string, Json)>>)
    ensures r.Some? <==> exists i :: 0 <= i < |items| && items[i].Completion?
    ensures r.Some? ==> exists i :: 0 <= i < |items| && items[i] == Completion(r.value)
  {
    if items == [] then None
    else if items[|items| - 1].Completion? then Some(items[|items| - 1].data)
    else
      var r := LastCompletion(items[..|items| - 1]);
      assert forall i :: 0 <= i < |items| - 1 ==> items[..|items| - 1][i] == items[i];
      r
  }

  /** The collecting loop of `/research`: `final_result` ends as the data of the last completion. */
  method CollectFinalResult(items: seq<StateStreamItem>) returns (finalResult: Option<seq<(string, Json)>>)
    ensures finalResult == LastCompletion(items)
  {
    finalResult := None;
    for i := 0 to |items|
      invariant finalResult == LastCompletion(items[..i])
    {
      assert items[..i + 1][..i] == items[..i];
      if items[i].Completion? {
        finalResult := Some(items[i].data);
      }
    }
    assert items[..|items|] == items;
  }

  /** The body `/research` returns. `errors` is present only on success, `error` only on failure. */
  datatype ResearchResponse = ResearchResponse(
    success: bool,
    finalAnswer: Json,
    citations: Json,
    researchSummary: Json,
    errors: Option<Json>,
    error: Option<string>)

  /** The failure body, with the exception's text. */
  function FailureResponse(message: string): ResearchResponse
  {
    ResearchResponse(false, JStr("Error occurred during research process."), JArr([]),
                     JObj([("error", JStr(message))]), None, Some(message))
  }

  /**
   * `research_endpoint(request)`: success exactly when the question is not
   * blank and a completion arrives, with the last completion's fields (and
   * their defaults); otherwise the failure body, naming the cause.
   */
  function ResearchEndpoint(question: string, items: seq<StateStreamItem>): (r: ResearchResponse)
    ensures r.success <==> ValidQuestion(question) && exists i :: 0 <= i < |items| && items[i].Completion?
    ensures !ValidQuestion(question) ==> r == FailureResponse(HttpErrorText(400, EmptyQuestion))
    ensures ValidQuestion(question) && LastCompletion(items).None? ==>
      r == FailureResponse(HttpErrorText(500, "No final result received"))
    ensures r.success ==>
      var data := LastCompletion(items).value;
      && r.finalAnswer == Get(data, "final_answer").GetOr(JStr(""))
      && r.citations == Get(data, "citations").GetOr(JArr([]))
      && r.researchSummary == Get(data, "research_summary").GetOr(JObj([]))
      && r.errors == Some(Get(data, "errors").GetOr(JArr([])))
      && r.error.None?
  {
    if !ValidQuestion(question) then FailureResponse(HttpErrorText(400, EmptyQuestion))
    else
      match LastCompletion(items)
      case None => FailureResponse(HttpErrorText(500, "No final result received"))
      case Some(finalResult) =>
        ResearchResponse(true,
                         Get(finalResult, "final_answer").GetOr(JStr("")),
                         Get(finalResult, "citations").GetOr(JArr([])),
                         Get(finalResult, "research_summary").GetOr(JObj([])),
                         Some(Get(finalResult, "errors").GetOr(JArr([]))),
                         None)
  }
}
