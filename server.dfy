/**
 * The process-wide state of server.js and the commands that change it: `serverState`, the
 * `responses` history and the `captureInterval` handle, the socket command handlers, the guarded
 * start and stop of the periodic capture, and one pipeline run. Node's table of live intervals
 * is the field `liveTimers`, so that a second `setInterval` would be visible as a second timer.
 * Emitted events are appended to `outbox` in the order the source emits them.
 */
module Server {

  import opened Wrappers
  import opened Pipeline

  /** An interval handle returned by `setInterval`, with its period in milliseconds. */
  datatype Timer = Timer(id: nat, periodMs: int)

  /** The payload of `startCapture`; a missing field is `None`. */
  datatype StartRequest = StartRequest(seconds: Option<int>, prompt: Option<string>)

  /** `data.seconds || 5`: a missing or zero interval falls back to the default. */
  function RequestedInterval(request: StartRequest): int {
    if request.seconds.None? || request.seconds.value == 0 then DefaultIntervalSeconds
    else request.seconds.value
  }

  /** `data.prompt || "What is in this picture?"`: a missing or empty prompt falls back to the default. */
  function RequestedPrompt(request: StartRequest): string {
    if request.prompt.None? || request.prompt.value == "" then DefaultPrompt
    else request.prompt.value
  }

  /** Events sent with `io.emit`, to every subscriber. */
  function ToEveryone(events: seq<Event>): (r: seq<Emission>)
    ensures |r| == |events|
    ensures forall i :: 0 <= i < |r| ==> r[i] == ToAll(events[i])
  {
    seq(|events|, i requires 0 <= i < |events| => ToAll(events[i]))
  }

  class CaptureServer {
    /** The module-level `camera` is non-null; it is set once at start-up. */
    const cameraReady: bool
    var isCapturing: bool
    var intervalSeconds: int
    var prompt: string
    var connectedClients: nat
    var responses: seq<ResponseEntry>
    var captureInterval: Option<Timer>
    var liveTimers: set<Timer>
    var nextTimerId: nat
    var outbox: seq<Emission>

    /**
     * A live periodic run exists exactly while capturing, it is the one the handle names, and
     * the history is numbered 1..n.
     */
    ghost predicate Valid()
      reads this
    {
      && (isCapturing <==> captureInterval.Some?)
      && liveTimers == (if captureInterval.Some? then {captureInterval.value} else {})
      && (captureInterval.Some? ==> captureInterval.value.id < nextTimerId)
      && (isCapturing ==> cameraReady)
      && IdsSequential(responses)
    }

    /** The plain copy of the session sent in `stateUpdate`. */
    function Snapshot(): SessionSnapshot
      reads this
    {
      SessionSnapshot(isCapturing, intervalSeconds, prompt, connectedClients)
    }

    /** The initial module state of server.js:32-41, with the camera as start-up left it. */
    constructor (cameraReady: bool)
      ensures Valid() && this.cameraReady == cameraReady
      ensures !isCapturing && intervalSeconds == DefaultIntervalSeconds && prompt == DefaultPrompt
      ensures connectedClients == 0 && responses == [] && captureInterval.None? && liveTimers == {}
      ensures outbox == []
    {
      this.cameraReady := cameraReady;
      isCapturing := false;
      intervalSeconds := DefaultIntervalSeconds;
      prompt := DefaultPrompt;
      connectedClients := 0;
      responses := [];
      captureInterval := None;
      liveTimers := {};
      nextTimerId := 0;
      outbox := [];
    }

    /** A subscriber connects: the count is refreshed and the newcomer gets the state and the history. */
    method Connect(clients: nat)
      requires Valid()
      modifies this`connectedClients, this`outbox
      ensures Valid() && connectedClients == clients
      ensures outbox == old(outbox) + [ToRequester(StateUpdate(Snapshot())), ToRequester(ResponsesHistory(responses))]
    {
      connectedClients := clients;
      outbox := outbox + [ToRequester(StateUpdate(Snapshot())), ToRequester(ResponsesHistory(responses))];
    }

    /** A subscriber leaves: only the count changes. */
    method Disconnect(clients: nat)
      requires Valid()
      modifies this`connectedClients
      ensures Valid() && connectedClients == clients
    {
      connectedClients := clients;
    }

    /**
     * One pipeline run: the history and the broadcast events are those of `Tick` for the current
     * prompt. The session fields and the timers are untouched, so a failed run never stops the
     * periodic capture. A run fired by the live interval keeps the invariant; the first run of a
     * start happens while the handle is not yet stored, so the invariant is not required here.
     */
    method CaptureAndProcess(input: TickInput)
      modifies this`responses, this`outbox
      ensures IdsSequential(old(responses)) ==> IdsSequential(responses)
      ensures old(Valid()) ==> Valid()
      ensures var t := Tick(old(responses), prompt, input);
        responses == t.responses && outbox == old(outbox) + ToEveryone(t.emitted)
    {
      match input.captured
      case Failure(m) =>
        outbox := outbox + [ToAll(ErrorMessage("Error: " + m))];
      case Success(rec) =>
        if !Fits(rec.base64) {
          outbox := outbox + [ToAll(ErrorMessage(TooLargeMessage))];
          return;
        }
        outbox := outbox + [ToAll(LiveImage(rec.base64.value))];
        var text := LlavaReply(input.reply);
        var entry := ResponseEntry(|responses| + 1, input.timestamp, rec.fileName, rec.filePath,
                                   TruncatePrompt(prompt), text, text);
        responses := responses + [entry];
        outbox := outbox + [ToAll(NewResponse(entry)), ToAll(ResponsesHistory(responses))];
    }

    /**
     * `startServerCapture`: a no-op when already capturing or without a camera; otherwise the
     * session becomes capturing, one run happens at once, and exactly one interval with period
     * `intervalSeconds * 1000` is created and stored.
     */
    method StartServerCapture(input: TickInput)
      requires Valid()
      modifies this`isCapturing, this`responses, this`outbox, this`captureInterval, this`liveTimers, this`nextTimerId
      ensures Valid()
      ensures old(isCapturing) || !cameraReady ==> unchanged(this)
      ensures !old(isCapturing) && cameraReady ==>
        && isCapturing
        && captureInterval == Some(Timer(old(nextTimerId), intervalSeconds * 1000))
        && liveTimers == {captureInterval.value}
        && var t := Tick(old(responses), prompt, input);
        && responses == t.responses && outbox == old(outbox) + ToEveryone(t.emitted)
    {
      if isCapturing {
        return;
      }
      if !cameraReady {
        return;
      }
      isCapturing := true;
      CaptureAndProcess(input);
      var timer := Timer(nextTimerId, intervalSeconds * 1000);
      liveTimers := liveTimers + {timer};
      captureInterval := Some(timer);
      nextTimerId := nextTimerId + 1;
    }

    /**
     * `stopServerCapture`: a no-op when idle; otherwise the session becomes idle and the stored
     * interval is cleared, so no timer is live afterwards.
     */
    method StopServerCapture()
      requires Valid()
      modifies this`isCapturing, this`captureInterval, this`liveTimers
      ensures Valid()
      ensures !isCapturing && captureInterval.None? && liveTimers == {}
      ensures !old(isCapturing) ==> unchanged(this)
    {
      if !isCapturing {
        return;
      }
      isCapturing := false;
      if captureInterval.Some? {
        liveTimers := liveTimers - {captureInterval.value};
        captureInterval := None;
      }
    }

    /**
     * The `startCapture` handler. Without a camera it answers the requester with an error and
     * changes nothing else. Otherwise it stores the requested interval and prompt (with their
     * defaults) before the idempotence guard, so a start while capturing changes the settings
     * but neither the timer nor the history; then it broadcasts the new state.
     */
    method StartCapture(request: StartRequest, input: TickInput)
      requires Valid()
      modifies this
      ensures Valid()
      ensures !cameraReady ==>
        && outbox == old(outbox) + [ToRequester(ErrorMessage(NoCameraMessage))]
        && isCapturing == old(isCapturing) && intervalSeconds == old(intervalSeconds) && prompt == old(prompt)
        && connectedClients == old(connectedClients) && responses == old(responses)
        && captureInterval == old(captureInterval) && liveTimers == old(liveTimers)
      ensures cameraReady ==>
        && isCapturing
        && intervalSeconds == RequestedInterval(request) && prompt == RequestedPrompt(request)
        && connectedClients == old(connectedClients)
      ensures cameraReady && old(isCapturing) ==>
        && captureInterval == old(captureInterval) && liveTimers == old(liveTimers)
        && responses == old(responses)
        && outbox == old(outbox) + [ToAll(StateUpdate(Snapshot()))]
      ensures cameraReady && !old(isCapturing) ==>
        && captureInterval == Some(Timer(old(nextTimerId), RequestedInterval(request) * 1000))
        && liveTimers == {captureInterval.value}
        && var t := Tick(old(responses), RequestedPrompt(request), input);
        && responses == t.responses
        && outbox == old(outbox) + ToEveryone(t.emitted) + [ToAll(StateUpdate(Snapshot()))]
    {
      if !cameraReady {
        outbox := outbox + [ToRequester(ErrorMessage(NoCameraMessage))];
        return;
      }
      intervalSeconds := RequestedInterval(request);
      prompt := RequestedPrompt(request);
      StartServerCapture(input);
      outbox := outbox + [ToAll(StateUpdate(Snapshot()))];
    }

    /** The `stopCapture` handler: stop, then broadcast the state. */
    method StopCapture()
      requires Valid()
      modifies this`isCapturing, this`captureInterval, this`liveTimers, this`outbox
      ensures Valid()
      ensures !isCapturing && captureInterval.None? && liveTimers == {}
      ensures outbox == old(outbox) + [ToAll(StateUpdate(Snapshot()))]
    {
      StopServerCapture();
      outbox := outbox + [ToAll(StateUpdate(Snapshot()))];
    }

    /**
     * The `updatePrompt` handler: only the prompt changes (the frame admits nothing else), and
     * the next run uses it.
     */
    method UpdatePrompt(newPrompt: string)
      requires Valid()
      modifies this`prompt, this`outbox
      ensures Valid() && prompt == newPrompt
      ensures outbox == old(outbox) + [ToAll(StateUpdate(Snapshot()))]
    {
      prompt := newPrompt;
      outbox := outbox + [ToAll(StateUpdate(Snapshot()))];
    }

    /** The `clearHistory` handler: empties the history whatever the capture state. */
    method ClearHistory()
      requires Valid()
      modifies this`responses, this`outbox
      ensures Valid() && responses == []
      ensures outbox == old(outbox) + [ToAll(ResponsesHistory([])), ToAll(StateUpdate(Snapshot()))]
    {
      responses := [];
      outbox := outbox + [ToAll(ResponsesHistory(responses)), ToAll(StateUpdate(Snapshot()))];
    }
  }

  /**
   * Two starts in a row leave exactly one live timer, with the period of the first start, while
   * the session shows the second start's settings; one stop then leaves none.
   */
  method RepeatedStartKeepsOneTimer(server: CaptureServer, first: StartRequest, second: StartRequest,
                                    input1: TickInput, input2: TickInput)
    requires server.Valid() && server.cameraReady && !server.isCapturing
    modifies server
    ensures server.Valid() && !server.isCapturing && server.liveTimers == {}
  {
    server.StartCapture(first, input1);
    server.StartCapture(second, input2);
    assert |server.liveTimers| == 1;
    assert server.captureInterval.value.periodMs == RequestedInterval(first) * 1000;
    assert server.intervalSeconds == RequestedInterval(second);
    server.StopCapture();
  }

  /** After a clear, the next admitted run records an entry with id 1, while capturing or not. */
  method ClearThenRunStartsAtOne(server: CaptureServer, input: TickInput)
    requires server.Valid() && Admitted(input)
    modifies server
    ensures server.Valid() && |server.responses| == 1 && server.responses[0].id == 1
    ensures server.responses[0].response == LlavaReply(input.reply)
  {
    server.ClearHistory();
    server.CaptureAndProcess(input);
  }
}
