# Camera capture server: session controller, pipeline run and capture skeleton

This project models the core of a camera server that periodically captures a frame from a USB
camera, normalises it to a 672x672 JPEG, sends it with a prompt to a vision-language inference
endpoint, and broadcasts the image and the answer to connected browsers.

Two pieces are modelled:

- **The capture session of `server.js`** (modules `Pipeline` and `Server`). The class
  `Server.CaptureServer` holds `serverState` (`isCapturing`, `intervalSeconds`, `prompt`,
  `connectedClients`), the `responses` history and the `captureInterval` handle. It also holds
  `liveTimers`, Node's table of live intervals, so that a second `setInterval` would be visible,
  and an `outbox` of emitted events standing for `socket.emit`/`io.emit`/`safeEmit`. Its methods
  are the socket command handlers, `startServerCapture`, `stopServerCapture` and
  `captureAndProcess`. Each method's contract ties the new state to the old one. The invariant
  `Valid()` has five parts: a live interval exists exactly while capturing, the live intervals
  are exactly the one the handle names, the handle's id was issued, capturing implies a camera,
  and the history ids are 1..n. One pipeline run is also the pure function
  `Pipeline.Tick` over the history, the prompt and what the camera and the endpoint delivered.
  The lemmas about runs (numbering, size guard, error paths) are stated on that function.
  `Pipeline.LlavaReply` is the total mapping of `sendToLLaVAAPI` from an HTTP outcome to text.
- **The capture skeleton of `camera/cameraCapture.js`** (modules `ImageFormat`, `Base64` and
  `Camera`). `ImageFormat.Classify` is the magic-byte dispatch of the main capture path.
  `ImageFormat.PreviewDecoder` is the weaker dispatch of the preview path. `Camera.Normalize` is
  the validate/sniff/decode/encode stage. `Camera.CameraCapture` keeps the device-handle flag and
  the temp directory as a map from path to bytes. Its methods model the capture, the start-up
  self-test and the two cleanups. The camera driver, `sharp`/`sharp-bmp` and the clock are
  inputs. `Base64.Encode` is the encoding of section 4 of RFC 4648 (`Buffer.toString('base64')`).
  It lets the server's 800000-character ceiling be restated as a 600000-byte ceiling on the JPEG.

Two behaviours of the code are worth stating because a reader might expect otherwise. First,
`intervalSeconds` is whatever truthy number the client sends, negative ones included, not
necessarily a positive integer. Second, the history is never trimmed, so it is not bounded.

## Model

| member | source | states |
|---|---|---|
| `Base64.Encode` | camera/cameraCapture.js:175 | the base64 text of n bytes has 4*ceil(n/3) characters, all from the alphabet or the padding character |
| `Base64.EncodeEmptyIff` | camera/cameraCapture.js:175 | the text is empty exactly when the buffer is, so only an empty JPEG meets the `!imageBase64` guard that way |
| `Base64.EncodedFits` | camera/cameraCapture.js:175 | a ceiling of 4k characters on the text holds exactly when the buffer has at most 3k bytes |
| `ImageFormat.DecoderFor` | camera/cameraCapture.js:130-160 | `sharp-bmp` is used exactly for the BMP format, `sharp` for JPEG, PNG and unknown data |
| `ImageFormat.Classify` | camera/cameraCapture.js:130-160 | JPEG exactly for at least 2 bytes starting `FF D8`; BMP exactly for at least 2 bytes starting `42 4D`; PNG exactly for at least 8 bytes starting `89 50 4E 47`; anything else is unknown, never a rejection |
| `ImageFormat.BmpDecoderIff` | camera/cameraCapture.js:135-147 | the BMP decoder is chosen exactly for buffers starting `42 4D` |
| `ImageFormat.ShortPngIsUnknown` | camera/cameraCapture.js:149-160 | a PNG signature in a buffer of 4 to 7 bytes is classified unknown and goes to the default decoder |
| `ImageFormat.ShortBufferIsUnknown` | camera/cameraCapture.js:156-160 | a buffer shorter than 2 bytes is unknown and still goes to the default decoder; classification never rejects |
| `ImageFormat.ClassifyDependsOnHead` | camera/cameraCapture.js:130-160 | two buffers with the same first four bytes that agree on the thresholds 2 and 8 are classified alike |
| `ImageFormat.PreviewDecoder` | camera/cameraCapture.js:218-227 | `sharp-bmp` exactly for buffers starting `42 4D`, and for every buffer, even one shorter than 2 bytes (out-of-range bytes read as `undefined`), the same decoder as the main path |
| `Camera.Normalize` | camera/cameraCapture.js:110-182 | a missing file and an empty file fail with their messages; a BMP that `sharp-bmp` cannot open fails with "Error procesando BMP: ..."; otherwise a non-empty file is rendered through the decoder its signature selects, succeeding with the base64 of the rendered JPEG exactly when the render succeeds and passing the render's message through when it fails |
| `Camera.CameraCapture.constructor` | camera/cameraCapture.js:8-46 | the device flag is whether the driver handle was created; the temp directory keeps its files |
| `Camera.CameraCapture.CleanupTempFile` | camera/cameraCapture.js:250-259 | the named file is gone afterwards and every other file is unchanged; a missing file is not an error |
| `Camera.CleanupTempFileTwice` | camera/cameraCapture.js:250-259 | two calls of `CleanupTempFile` on one path leave the directory as one call does: the second is a no-op |
| `Camera.CameraCapture.Cleanup` | camera/cameraCapture.js:261-271 | after the loop over the listing, the temp directory is empty |
| `Camera.CameraCapture.CaptureImage672x672` | camera/cameraCapture.js:88-191 | without a device it rejects "Cámara no inicializada" and touches no file; on a camera error it rejects "Error de cámara: ..." and leaves the file; after a good shot the temp file is removed on every exit and the result is the normalised frame or "Error de procesamiento: ..." |
| `Camera.CameraCapture.CaptureTestImage` | camera/cameraCapture.js:60-86 | a camera error rejects and leaves the file; a missing file rejects "Archivo de test no fue creado"; an existing file is removed and the test passes exactly when it was non-empty |
| `Pipeline.LlavaReply` | server.js:227-253 | never fails and never returns empty text; a 2xx reply with a non-empty `response` yields it, and one whose JSON lacks it (or has it empty) yields "No response received"; non-2xx yields "Error <status>: <body>"; a failed `fetch`, `json()` or `text()` yields "Error de conexión: <msg>"; so anything but an answer is the placeholder or starts "Error " |
| `Pipeline.ServerErrorReply` | server.js:245-248 | a reply of 500 with body "server error" becomes the text "Error 500: server error" |
| `Pipeline.TruncatePrompt` | server.js:190-191 | the stored prompt has at most 53 characters; it equals the prompt up to 50 characters; it ends in "..." after the prompt's first 50 characters exactly when the prompt is longer |
| `Pipeline.Tick` | server.js:163-208 | one run grows the history by one entry exactly when it is admitted and keeps the old entries as a prefix; it keeps ids 1..n; it broadcasts no live image outside 1..800000 characters |
| `Pipeline.RefusedTickReportsError` | server.js:171-207 | a rejected capture emits only "Error: <msg>", an absent, empty or oversized frame emits only "Imagen muy grande para transmitir", and the history stays the same |
| `Pipeline.AdmittedTickAppends` | server.js:178-200 | an admitted run appends an entry with id `responses.length + 1`, the truncated prompt, and the reply text in both response fields; it broadcasts the image, the entry and the new history, in that order |
| `Pipeline.TicksNumberHistory` | server.js:185-196 | over any series of runs the history keeps its prefix, grows by one per admitted run, and keeps ids 1..n |
| `Pipeline.ClearedHistoryRestartsAtOne` | server.js:185-196 | runs after a clear number their entries 1, 2, ... |
| `Pipeline.AsWrittenSettle` | server.js:168-169 | a resolved capture stays resolved but destructuring the camera's string yields no `base64`; a rejection passes through with its message |
| `Pipeline.AsWrittenRefusesEveryFrame` | server.js:168-176 | as written, every successful capture is reported as "Imagen muy grande para transmitir" and never recorded |
| `Pipeline.IntendedAdmitsWithinCeiling` | server.js:172-176 | with the intended record, a JPEG is recorded exactly when it has 1 to 600000 bytes |
| `Server.CaptureServer.constructor` | server.js:31-41 | idle, interval 5, the default prompt, no clients, empty history, no handle and no live timer |
| `Server.CaptureServer.Connect` | server.js:57-70 | the client count is refreshed and the newcomer alone receives the state and the full history |
| `Server.CaptureServer.Disconnect` | server.js:126-129 | only the client count changes |
| `Server.CaptureServer.CaptureAndProcess` | server.js:163-208 | the history and the broadcasts are those of one run for the current prompt; session fields and timers are untouched, so a failed run does not stop the periodic capture; a run from a valid state, as a timer firing is, keeps the invariant |
| `Server.CaptureServer.StartServerCapture` | server.js:133-150 | a no-op when already capturing or without a camera; otherwise capturing, one run done, and exactly one live interval with period `intervalSeconds*1000`, stored in the handle |
| `Server.CaptureServer.StopServerCapture` | server.js:152-161 | a no-op when idle; afterwards idle, the handle is cleared and no timer is live |
| `Server.CaptureServer.StartCapture` | server.js:73-90 | without a camera the requester alone gets "Cámara no disponible. Verifique conexión USB." and nothing else changes; otherwise interval (missing or 0 gives 5) and prompt (missing or empty gives the default) are stored before the guard, so a start while capturing changes the settings but not the timer or the history |
| `Server.CaptureServer.StopCapture` | server.js:92-101 | stops as above, then broadcasts the state |
| `Server.CaptureServer.UpdatePrompt` | server.js:103-112 | only the prompt changes (capture flag, interval, timers and history are outside the frame), then the state is broadcast |
| `Server.CaptureServer.ClearHistory` | server.js:114-124 | the history is empty whatever the capture state; the empty history and the state are broadcast |
| `Server.RepeatedStartKeepsOneTimer` | server.js:133-161 | two starts leave one live timer whose period is that of the first start, and one stop leaves none |
| `Server.ClearThenRunStartsAtOne` | server.js:114-196 | after a clear, the next admitted run records a single entry with id 1 |

## Findings

| source | as written | input that shows it | evidently intended | confidence | as-written member | corrected member |
|---|---|---|---|---|---|---|
| server.js:168-172 | `captureImage672x672` resolves a plain base64 string (camera/cameraCapture.js:182), but the pipeline destructures `base64`, `fileName` and `filePath` from it, so `imageBase64` is `undefined` and the size guard rejects every frame | any successful capture, e.g. a 10 KB JPEG: the run emits "Imagen muy grande para transmitir" and records nothing | the capture yields a record `{base64, fileName, filePath}` (the comment at server.js:167 says so); frames of 1 to 600000 JPEG bytes are broadcast and recorded | high; not executed | `Pipeline.AsWrittenRefusesEveryFrame` | `Pipeline.IntendedAdmitsWithinCeiling` |

`Pipeline.Tick` and `Server.CaptureServer.CaptureAndProcess` take the destructured record as input.
The rest of the model therefore covers both readings: `Pipeline.AsWrittenSettle` is the code as
written, and `Pipeline.IntendedSettle` is the corrected behaviour.

## Left out

- The browser client (public/js/client.js): DOM rendering, button state and socket wiring are user interface.
- Express, socket.io and CORS setup, `server.listen` and the interrupt handler (server.js:1-24, 256-274): process plumbing. The handler only calls `stopServerCapture` and `cleanup`, which are modelled.
- `node-webcam`, `sharp` and `sharp-bmp` are foreign libraries. Their effects are inputs: `Camera.Shot`, the `openBmp` failure and `Camera.Render`. The cover-resize geometry and JPEG quality are not modelled, so the "exactly 672x672" output is not proved.
- `fetch` to the inference endpoint is network I/O. Its outcome is the input `Pipeline.HttpOutcome`, and the request body is not modelled.
- `setInterval` timing and the asynchronous race. A start is atomic: the `await` of the first run (server.js:144) before the handle is stored (server.js:147) is not modelled, so a stop arriving during that await is not covered. A timer firing is a call of `CaptureAndProcess`. Node resets a delay below 1 ms or above 2147483647 ms to 1 ms; that is not modelled, and the stored period is `intervalSeconds * 1000` as requested.
- The `safeEmit` JSON deep copy and its "Error interno del servidor" fallback (server.js:211-225) are serialisation. An emission is appended to `outbox` unchanged.
- Clocks and counters are inputs: `Date.now()`/`toLocaleString` timestamps, temp file names and `io.sockets.sockets.size`. `listCameras` and all console output are left out.
- The capture and cleanup flow of `captureImageForPreview` (640x480, quality 70) is not part of this model; only its format dispatch is (`ImageFormat.PreviewDecoder`).
- Camera.CameraCapture.CleanupTempFile: an unlink failure, which the source logs and swallows, is not modelled; removal always succeeds. Likewise a failing directory listing in `cleanup` is not modelled.
- Camera.CameraCapture.CaptureTestImage: a null device handle (a `TypeError` inside the promise) is not modelled; its only caller runs it right after the handle is created. The source's constructor starts this self-test (camera/cameraCapture.js:12, 41, 51) without awaiting it; the Dafny constructor leaves it out, and the self-test is the separate method.
- Pipeline.TruncatePrompt: JavaScript's `substring` counts UTF-16 code units, while the model counts characters. The two differ only for prompts with characters outside the Basic Multilingual Plane.
- Loose JavaScript values are not modelled. `updatePrompt` may receive a non-string, `data.seconds` may be `NaN`, and `result.response` may be a truthy non-string. The model uses strings and integers, and `None` stands for absent or `NaN`.
- A null camera inside `captureAndProcess` is not modelled (it would be caught as a `TypeError`). Runs only start while the camera is present.
