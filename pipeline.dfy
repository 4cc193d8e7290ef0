/**
 * The value-level part of server.js: the records the server keeps and emits, the mapping of an
 * inference call's outcome to response text (`sendToLLaVAAPI`), the truncation of the prompt
 * stored with each entry, and one run of the capture pipeline (`captureAndProcess`) as a function
 * of the history, the prompt and what the camera and the inference endpoint delivered.
 */
module Pipeline {

  import opened Wrappers
  import Base64

  /** Ceiling on the base64 text of a frame (`MAX_IMAGE_SIZE`). */
  const MaxImageSize: nat := 800000
  const DefaultIntervalSeconds: int := 5
  const DefaultPrompt: string := "What is in this picture?"
  const NoCameraMessage: string := "Cámara no disponible. Verifique conexión USB."
  const TooLargeMessage: string := "Imagen muy grande para transmitir"
  const NoResponseMessage: string := "No response received"
  /** Length after which the stored prompt is cut, and the marker appended when it is. */
  const PromptLimit: nat := 50
  const Ellipsis: string := "..."

  /** One processed frame in the history. `fileName` and `filePath` are `undefined` when absent. */
  datatype ResponseEntry = ResponseEntry(
    id: int,
    timestamp: string,
    fileName: Option<string>,
    filePath: Option<string>,
    prompt: string,
    response: string,
    fullResponse: string)

  /** The plain copy of `serverState` sent in a `stateUpdate`. */
  datatype SessionSnapshot = SessionSnapshot(isCapturing: bool, intervalSeconds: int, prompt: string, connectedClients: nat)

  /** The events a subscriber can receive. */
  datatype Event =
    | StateUpdate(state: SessionSnapshot)
    | ResponsesHistory(entries: seq<ResponseEntry>)
    | LiveImage(image: string)
    | NewResponse(entry: ResponseEntry)
    | ErrorMessage(text: string)

  /** An event sent to the socket that issued the command (`socket.emit`) or to all (`io.emit`). */
  datatype Emission = ToRequester(event: Event) | ToAll(event: Event)

  /** The fields the pipeline destructures from the capture's resolved value. */
  datatype CaptureRecord = CaptureRecord(base64: Option<string>, fileName: Option<string>, filePath: Option<string>)

  /** What `response.json()` yields: an object with or without a `response` string, or a rejection. */
  datatype JsonBody = JsonObject(response: Option<string>) | JsonUnreadable(message: string)

  /**
   * The outcome of the `fetch` to the inference endpoint: the request rejected, or a reply with
   * its status and what its body yields when read as JSON and when read as text.
   */
  datatype HttpOutcome =
    | FetchFailed(message: string)
    | Replied(status: nat, json: JsonBody, text: Result<string, string>)

  /** What one pipeline run receives from outside: the settled capture, the reply, the clock. */
  datatype TickInput = TickInput(captured: Result<CaptureRecord, string>, reply: HttpOutcome, timestamp: string)

  /** The history after one run and the events the run broadcast, in order. */
  datatype TickResult = TickResult(responses: seq<ResponseEntry>, emitted: seq<Event>)

  /** The number a string of decimal digits denotes. */
  function DigitsValue(s: string): nat
    requires forall i :: 0 <= i < |s| ==> '0' <= s[i] <= '9'
    decreases |s|
  {
    if s == [] then 0 else DigitsValue(s[..|s| - 1]) * 10 + (s[|s| - 1] as int - 48)
  }

  /** Decimal digits of a status code, as a template literal prints it: no leading zero, value `n`. */
  function DecimalString(n: nat): (s: string)
    ensures |s| >= 1
    ensures forall i :: 0 <= i < |s| ==> '0' <= s[i] <= '9'
    ensures DigitsValue(s) == n
    ensures |s| == 1 || s[0] != '0'
    decreases n
  {
    var digit := (48 + n % 10) as char;
    if n < 10 then [digit] else DecimalString(n / 10) + [digit]
  }

  /** `fetch`'s `response.ok`. */
  predicate IsOk(status: nat) {
    200 <= status <= 299
  }

  /** The endpoint answered: a 2xx reply whose JSON holds a non-empty `response` string. */
  predicate Answered(o: HttpOutcome) {
    o.Replied? && IsOk(o.status) && o.json.JsonObject? && o.json.response.Some? && o.json.response.value != ""
  }

  /**
   * `sendToLLaVAAPI` never rejects: every outcome becomes text. The text is the model's answer
   * when there is one, and otherwise a placeholder or a message that starts with "Error ".
   */
  function LlavaReply(o: HttpOutcome): (r: string)
    ensures r != ""
    ensures Answered(o) ==> r == o.json.response.value
    ensures !Answered(o) ==> r == NoResponseMessage || "Error " <= r
    ensures o.Replied? && !IsOk(o.status) && o.text.Success? ==>
      r == "Error " + DecimalString(o.status) + ": " + o.text.value
    ensures o.FetchFailed? ==> r == "Error de conexión: " + o.message
    ensures o.Replied? && IsOk(o.status) && o.json.JsonObject? && !Answered(o) ==> r == NoResponseMessage
    ensures o.Replied? && IsOk(o.status) && o.json.JsonUnreadable? ==> r == "Error de conexión: " + o.json.message
    ensures o.Replied? && !IsOk(o.status) && o.text.Failure? ==> r == "Error de conexión: " + o.text.error
  {
    match o
    case FetchFailed(m) => "Error de conexión: " + m
    case Replied(status, json, text) =>
      if IsOk(status) then
        match json
        case JsonUnreadable(m) => "Error de conexión: " + m
        case JsonObject(field) =>
          if field.Some? && field.value != "" then field.value else NoResponseMessage
      else
        match text
        case Success(body) => "Error " + DecimalString(status) + ": " + body
        case Failure(m) => "Error de conexión: " + m
  }

  /** The status 500 prints as "500". */
  lemma DecimalFiveHundred()
    ensures DecimalString(500) == "500"
  {
    assert DecimalString(5) == "5";
    assert DecimalString(50) == "50";
  }

  /** A reply of 500 with body "server error" is recorded as "Error 500: server error". */
  lemma ServerErrorReply(json: JsonBody)
    ensures LlavaReply(Replied(500, json, Success("server error"))) == "Error 500: server error"
  {
    DecimalFiveHundred();
  }

  /**
   * The prompt stored with an entry: the first 50 characters, followed by "..." exactly when the
   * prompt is longer than that.
   */
  function TruncatePrompt(p: string): (r: string)
    ensures |r| <= PromptLimit + |Ellipsis|
    ensures |p| <= PromptLimit ==> r == p
    ensures |p| > PromptLimit <==> |r| == PromptLimit + |Ellipsis|
    ensures |p| > PromptLimit ==> r[..PromptLimit] == p[..PromptLimit] && r[PromptLimit..] == Ellipsis
  {
    if |p| > PromptLimit then p[..PromptLimit] + Ellipsis else p
  }

  /** The size guard: a present, non-empty base64 text of at most `MaxImageSize` characters. */
  predicate Fits(b64: Option<string>) {
    b64.Some? && b64.value != "" && |b64.value| <= MaxImageSize
  }

  /** The run gets past the capture and the size guard, and so records an entry. */
  predicate Admitted(input: TickInput) {
    input.captured.Success? && Fits(input.captured.value.base64)
  }

  /** History ids are 1, 2, ..., n in order. */
  predicate IdsSequential(rs: seq<ResponseEntry>) {
    forall i :: 0 <= i < |rs| ==> rs[i].id == i + 1
  }

  /**
   * One run of `captureAndProcess` (server.js:163-208). A rejected capture and a frame refused by
   * the size guard emit one error and leave the history as it was; an admitted frame is broadcast,
   * the reply becomes a new entry numbered after the current history, and the entry and the whole
   * history are broadcast.
   */
  function Tick(responses: seq<ResponseEntry>, prompt: string, input: TickInput): (t: TickResult)
    ensures |t.responses| == |responses| + (if Admitted(input) then 1 else 0)
    ensures t.responses[..|responses|] == responses
    ensures IdsSequential(responses) ==> IdsSequential(t.responses)
    ensures forall i :: 0 <= i < |t.emitted| && t.emitted[i].LiveImage? ==>
      0 < |t.emitted[i].image| <= MaxImageSize
  {
    match input.captured
    case Failure(m) => TickResult(responses, [ErrorMessage("Error: " + m)])
    case Success(rec) =>
      if !Fits(rec.base64) then TickResult(responses, [ErrorMessage(TooLargeMessage)])
      else
        var text := LlavaReply(input.reply);
        var entry := ResponseEntry(|responses| + 1, input.timestamp, rec.fileName, rec.filePath,
                                   TruncatePrompt(prompt), text, text);
        var history := responses + [entry];
        TickResult(history, [LiveImage(rec.base64.value), NewResponse(entry), ResponsesHistory(history)])
  }

  /** A run that is not admitted emits exactly one error, no image, and changes no history. */
  lemma RefusedTickReportsError(responses: seq<ResponseEntry>, prompt: string, input: TickInput)
    requires !Admitted(input)
    ensures Tick(responses, prompt, input).responses == responses
    ensures Tick(responses, prompt, input).emitted ==
      if input.captured.Failure? then [ErrorMessage("Error: " + input.captured.error)]
      else [ErrorMessage(TooLargeMessage)]
  {
  }

  /**
   * An admitted run appends one entry: its id follows the history, its prompt is the truncated
   * prompt, and both response fields hold the reply text.
   */
  lemma AdmittedTickAppends(responses: seq<ResponseEntry>, prompt: string, input: TickInput)
    requires Admitted(input)
    ensures var t := Tick(responses, prompt, input);
      && |t.responses| == |responses| + 1
      && var e := t.responses[|responses|];
      && e.id == |responses| + 1
      && e.prompt == TruncatePrompt(prompt)
      && e.response == e.fullResponse == LlavaReply(input.reply)
      && t.emitted == [LiveImage(input.captured.value.base64.value), NewResponse(e), ResponsesHistory(t.responses)]
  {
  }

  /** One run with its prompt, as the timer fires it. */
  datatype Step = Step(prompt: string, input: TickInput)

  /** The history after a series of runs. */
  function Ticks(responses: seq<ResponseEntry>, steps: seq<Step>): seq<ResponseEntry>
    decreases |steps|
  {
    if steps == [] then responses
    else Ticks(Tick(responses, steps[0].prompt, steps[0].input).responses, steps[1..])
  }

  /** How many of the runs are admitted. */
  function AdmittedCount(steps: seq<Step>): (n: nat)
    ensures n <= |steps|
    decreases |steps|
  {
    if steps == [] then 0
    else (if Admitted(steps[0].input) then 1 else 0) + AdmittedCount(steps[1..])
  }

  /**
   * Over any series of runs the history only grows, by one entry per admitted run, and its ids
   * stay 1..n in order.
   */
  lemma {:induction false} TicksNumberHistory(responses: seq<ResponseEntry>, steps: seq<Step>)
    requires IdsSequential(responses)
    ensures IdsSequential(Ticks(responses, steps))
    ensures |Ticks(responses, steps)| == |responses| + AdmittedCount(steps)
    ensures Ticks(responses, steps)[..|responses|] == responses
    decreases |steps|
  {
    if steps != [] {
      var next := Tick(responses, steps[0].prompt, steps[0].input).responses;
      TicksNumberHistory(next, steps[1..]);
      assert Ticks(responses, steps)[..|responses|] == Ticks(next, steps[1..])[..|next|][..|responses|];
    }
  }

  /** After a clear the history restarts: the runs that follow number their entries from 1. */
  lemma ClearedHistoryRestartsAtOne(steps: seq<Step>)
    ensures |Ticks([], steps)| == AdmittedCount(steps)
    ensures forall i :: 0 <= i < |Ticks([], steps)| ==> Ticks([], steps)[i].id == i + 1
  {
    TicksNumberHistory([], steps);
  }

  /**
   * What server.js:169 does with the capture's resolved value: the camera resolves a base64
   * string, and destructuring `base64`, `fileName` and `filePath` from a string yields
   * `undefined` for all three.
   */
  function AsWrittenSettle(captured: Result<string, string>): (r: Result<CaptureRecord, string>)
    ensures captured.Failure? ==> r == Failure(captured.error)
    ensures captured.Success? ==> r.Success?
    ensures r.Success? ==> r.value.base64.None?
  {
    match captured
    case Success(_) => Success(CaptureRecord(None, None, None))
    case Failure(m) => Failure(m)
  }

  /** As written, no frame is ever admitted: every successful capture reports "too large". */
  lemma AsWrittenRefusesEveryFrame(responses: seq<ResponseEntry>, prompt: string,
                                   captured: Result<string, string>, reply: HttpOutcome, timestamp: string)
    requires captured.Success?
    ensures var t := Tick(responses, prompt, TickInput(AsWrittenSettle(captured), reply, timestamp));
      t.responses == responses && t.emitted == [ErrorMessage(TooLargeMessage)]
  {
  }

  /**
   * The record the pipeline expects: the capture's base64 text together with the name and path
   * of the frame it came from.
   */
  function IntendedSettle(captured: Result<string, string>, fileName: string, filePath: string): Result<CaptureRecord, string>
  {
    match captured
    case Success(b64) => Success(CaptureRecord(Some(b64), Some(fileName), Some(filePath)))
    case Failure(m) => Failure(m)
  }

  /**
   * With the intended record, a captured JPEG is recorded exactly when it is non-empty and at most
   * 600000 bytes long: the base64 ceiling of 800000 characters is three quarters of that in bytes.
   */
  lemma IntendedAdmitsWithinCeiling(responses: seq<ResponseEntry>, prompt: string, jpeg: seq<Byte>,
                                    fileName: string, filePath: string, reply: HttpOutcome, timestamp: string)
    ensures var input := TickInput(IntendedSettle(Success(Base64.Encode(jpeg)), fileName, filePath), reply, timestamp);
      |Tick(responses, prompt, input).responses| == |responses| + 1 <==> 0 < |jpeg| <= 600000
  {
  }
}
