# QR scanner controller — a Dafny model

This project models the scan-capture-submit controller of the `QRScanner`
screen of a React Native aid-tracking app. The screen reads a QR code with the
camera and checks that the text is a JSON object with string members
`senderId`, `recipientId` and `aidType`. It holds a valid scan while the user
types a private key. It then posts the key, the three members and the device
location to a storage endpoint and reports the result in an alert.

The model is a functional state machine:

- `Json` holds JSON values and the JavaScript semantics the screen relies on:
  member reads for the keys the screen reads (`null.x` throws, any other non-object gives `undefined`), `typeof` and
  truthiness.
- `ScanPayload` holds the payload format, `validateScannedData` evaluated the
  way JavaScript evaluates it, and the shape it accepts stated directly.
- `Submission` holds the request body as the screen builds it. `JSON.stringify`
  drops `undefined` members. The module also holds the clean request encoding
  and its decoder, the outcomes the environment can produce, and how each
  outcome settles an attempt.
- `Scanner` holds the controller state and one pure transition per handler:
  barcode detected, alert dismissed, AppState change, "Scan Again", key typed,
  "Save Entry" pressed, and an upload settling. It also has `Step`/`Run` over
  events and `Available`, which says which events the rendered screen can
  deliver.
- `ScannerProperties` holds the invariant and its preservation over every
  event. It also proves that the held scan can be read safely, that a request
  reads back to what it carries, that paused scanning can always resume, and
  that the rendered screen never has two uploads in flight.
- `Scenarios` holds the worked examples: valid capture, rejected text,
  location denied, and a reply that accepts or refuses.

`JSON.parse` is a parameter `parse: string -> Option<Json>` of every operation
(`None` means it threw). So every property holds for any deterministic parser,
and the real JSON grammar is never needed. Because `parse` is a function, the
three `JSON.parse(scannedData)` calls of the request body give one value. The
model applies it once.

An upload has two steps: `BeginUpload` is the button press and `FinishUpload`
is the settling of its promise. They are separate because the `await`s in `uploadData`
let other events run between them, such as "Scan Again", an AppState change or
a key edit. The `uploadData` closure captures the text and the key at press
time, so each in-flight `Job` records them. `Upload` is the two steps run back
to back.

Behaviour of the code worth noting:

- If location permission is refused, the code throws, so nothing is sent.
  A sent request always carries a location; no request goes out without one.
- The code has no timeout on the position fix. The model has none either.
- `uploadData` does not check `isUploading` itself. Only the disabled button
  guards against a second upload, so that guard lives in `Available`.
- After a successful upload the held scan is not cleared. Dismissing the
  success alert navigates back (`closed`).
- The guards use JavaScript truthiness, so an empty `scannedData` string counts
  as no scan, as `null` does.
- The rejection `message` of the reply is thrown and then dropped. The alert is
  always the generic "Failed to add Entry!".

## Model

| member | source | states |
|---|---|---|
| Json.GetMember | Frontend/app/QRScanner.jsx:61-63 | For a key no built-in prototype defines (the screen reads `senderId`, `recipientId`, `aidType`, `ok`), reading a member throws exactly when the parsed value is `null`. It yields the member for an object that has it and `undefined` otherwise. |
| Json.Truthy | Frontend/app/QRScanner.jsx:91 | A value is falsy exactly when it is `undefined`, `null`, `false`, `0` or the empty string. This is the meaning of `!scannedData`, `!privateKey` (lines 91, 201) and `!data.ok` (line 122). |
| ScanPayload.AllStringMembers | Frontend/app/QRScanner.jsx:60-64 | The left-to-right `typeof ... === "string" && ...` chain is true exactly when the value is an object and every listed member is a string. It throws only on `null`. |
| ScanPayload.ValidateScannedData | Frontend/app/QRScanner.jsx:57-68 | Validation is true iff the text parses to an object whose `senderId`, `recipientId` and `aidType` are strings. That is the same as the payload shape decoding. A parse failure or `null` gives false; no exception escapes. |
| ScanPayload.Decode | Frontend/app/QRScanner.jsx:60-64 | The accepted shape: a decoded payload carries exactly the three string members of the object. |
| ScanPayload.PayloadOf | Frontend/app/QRScanner.jsx:114-116 | For validated text, `JSON.parse(data)` succeeds and each of the reads `.senderId`, `.recipientId`, `.aidType` yields a string: the payload's field. |
| Submission.BuildBody | Frontend/app/QRScanner.jsx:112-118 | Building the body throws only when the text does not parse or parses to `null`. The body always carries the key and the location. For any text that parses to a non-null value, each of `senderID`, `recipientID`, `aidType` reads back exactly as `senderId`, `recipientId`, `aidType` read from the scan, so a member that was `undefined` is absent from the body. The body has no members beyond those and `privateKey`, `location`. For validated text it is exactly the request encoding of key, payload and location. |
| Submission.Member | Frontend/app/QRScanner.jsx:112-118 | In the object given to `JSON.stringify`, a member `key: x` reads back as `x`: as `undefined` when `x` was `undefined`, because the member is dropped, and as its value otherwise. It adds no other key. |
| Submission.RequestRoundTrip | Frontend/app/QRScanner.jsx:112-118 | Reading the posted body back gives the same key, payload and location. |
| Submission.Accepted | Frontend/app/QRScanner.jsx:122-124 | A reply counts as success iff it is an object whose `ok` member is truthy. An explicit `ok: false` is a failure. |
| Submission.Settle | Frontend/app/QRScanner.jsx:93-131 | Denied permission or a failed fix sends nothing and fails. A body is sent iff a location was obtained and the body could be built. Success iff a body was sent and the reply was accepted. For valid text the sent body is the request encoding. |
| Scanner.OnBarcodeScanned | Frontend/app/QRScanner.jsx:70-88 | No-op when scanning is disabled or the text repeats the held scan. A valid fresh scan is held, with key, uploads and scanning unchanged. An invalid one keeps the held scan, disables scanning and raises the invalid-format alert. The held text only ever becomes validated text. |
| Scanner.DismissAlert | Frontend/app/QRScanner.jsx:77-86 | Dismissing removes exactly that alert. Scanning is re-enabled iff it was the invalid-format alert. The screen is left iff it was the success alert (line 126). Scan, key and uploads are untouched. |
| Scanner.OnAppStateChange | Frontend/app/QRScanner.jsx:27-35 | The `"active"` signal drops the held scan and changes nothing else. Any other AppState value changes nothing. |
| Scanner.ScanAgain | Frontend/app/QRScanner.jsx:207-210 | "Scan Again" drops the held scan and changes nothing else. The key and the scanning flag are preserved. |
| Scanner.SetPrivateKey | Frontend/app/QRScanner.jsx:190-197 | Editing the key replaces the key and nothing else. |
| Scanner.BeginUpload | Frontend/app/QRScanner.jsx:90-92 | With no scan or an empty key the press is a complete no-op. Otherwise `uploading` becomes true and one upload of the current text and key starts. |
| Scanner.FinishUpload | Frontend/app/QRScanner.jsx:93-134 | On every outcome the held scan, the key and the scanning flag are unchanged, `uploading` is false, the job leaves the in-flight set, and exactly one alert is appended. The success alert appears iff a location was obtained, the body was built and the reply was accepted. |
| Scanner.Upload | Frontend/app/QRScanner.jsx:90-135 | An attempt taken as one step is a no-op without scan or key. Otherwise the scan and key survive every outcome and `uploading` ends false. Nothing is sent without a location. A valid scan is sent as key, payload and location. Success iff a body went out and the reply's `ok` is truthy. The state afterwards is the state before with `uploading` cleared and one alert added: the success alert on success, the error alert on every failure. Scanning, navigation and other uploads are unchanged. |
| Scanner.GuardsAreTruthiness | Frontend/app/QRScanner.jsx:91 | "A scan is held" is exactly the truthiness of `scannedData`, and "a key is typed" is exactly the truthiness of `privateKey`. |
| Scanner.RenderedScreen | Frontend/app/QRScanner.jsx:153-216 | While the screen is shown, it is the camera view or the result view, never both: a detection can be delivered exactly when "Scan Again" cannot. The key field belongs to the result view. "Save Entry" is enabled exactly in the result view with no upload running and a key typed. Nothing new is delivered after leaving. |
| ScannerProperties.StepPreservesInv | Frontend/app/QRScanner.jsx:71-74 | Every event preserves the invariant. The held text and every in-flight text are valid, every in-flight key is non-empty, and scanning is paused exactly while the single invalid-format alert is shown. |
| ScannerProperties.RunPreservesInv | Frontend/app/QRScanner.jsx:21-135 | The invariant holds after any sequence of events. |
| ScannerProperties.ReachableHoldsOnlyValidScans | Frontend/app/QRScanner.jsx:73-74 | From mount, whatever happens, a held scan passed validation. |
| ScannerProperties.HeldScanIsReadable | Frontend/app/QRScanner.jsx:176-189 | Under the invariant the held text parses, and reading each of its three members yields a string: the result view's and body's re-parses never throw or read `undefined`. |
| ScannerProperties.SettledUploadSendsRequest | Frontend/app/QRScanner.jsx:107-119 | An in-flight upload that obtains a location posts a body that reads back as its non-empty key, the scanned payload and the location. |
| ScannerProperties.PausedScanningCanResume | Frontend/app/QRScanner.jsx:76-84 | While scanning is paused an invalid-format alert is on screen, and dismissing it re-enables scanning. |
| ScannerProperties.ScanIsIdempotent | Frontend/app/QRScanner.jsx:71 | Delivering the same detection twice has the same effect as once, whether it is captured or rejected. |
| ScannerProperties.ScanAgainIsForegroundReset | Frontend/app/QRScanner.jsx:209 | "Scan Again" and the foreground signal have the same effect. |
| ScannerProperties.AvailableStepKeepsSingleFlight | Frontend/app/QRScanner.jsx:198-202 | Any event the rendered screen can deliver keeps at most one upload in flight, with `uploading` true iff one is. |
| ScannerProperties.GatedRunKeepsSingleFlight | Frontend/app/QRScanner.jsx:198-206 | Over any sequence of deliverable events, at most one upload is in flight. |
| ScannerProperties.ReachableSingleFlight | Frontend/app/QRScanner.jsx:201 | From mount, through the rendered screen, two uploads never run at once, and `uploading` says whether one runs. |
| Scenarios.RejectedThenResumed | Frontend/app/QRScanner.jsx:75-84 | Unparseable text pauses scanning behind one alert. Dismissing it resumes scanning with nothing held. |
| Scenarios.DeniedKeepsScan | Frontend/app/QRScanner.jsx:102-105 | With location refused nothing is sent, the error alert shows and the scan is kept. |
| Scenarios.AcceptedLeavesScreen | Frontend/app/QRScanner.jsx:122-127 | An accepted reply follows a request carrying key, payload and location. The success alert shows, and dismissing it leaves the screen. |
| Scenarios.RefusedKeepsScan | Frontend/app/QRScanner.jsx:122-124 | `ok: false` with a message gives the error alert and keeps the scan and key for a retry. |

## Left out

- Camera permission gating and rendering (Frontend/app/QRScanner.jsx:20, 42-55, 153-216), apart from which handlers are reachable (`Scanner.Available`). These are UI and platform-library behaviour.
- Location acquisition and the HTTP `fetch` (lines 95-97, 107-120) are foreign asynchronous I/O. They appear only as the `Outcome` of an upload. Latitude and longitude are floating-point values, modelled as reals. The endpoint URL and headers are not modelled.
- The JSON grammar: `JSON.parse` is the parameter `parse`. Text serialisation by `JSON.stringify` is not modelled; the body is the JSON value it serialises.
- The gallery picker (lines 137-151) is a stub that only shows an alert.
- `console.warn`/`console.log` calls and the texts of the alerts.
- Frontend/app/index.jsx reads stored history that the scanner never writes. Frontend/app/_layout.jsx is navigation configuration. Neither is part of this model.
- Concurrency: events are taken one at a time, and each handler sees the state the previous event left. Interleaving of an upload with other events is covered by the press/settle split, but not interleaving inside one handler.
- Stale render state: the handlers read `isScanningEnabled` and `scannedData` (line 71) and `isUploading` (line 201) as captured at the last render. The model assumes React has re-rendered between events. Without a re-render, two detections could both pass the line-71 guard and raise two "Invalid QR Code" alerts, and a second tap could start a second `uploadData`. So the invariant's "at most one invalid-format alert" (`ScannerProperties.StepPreservesInv`), `ScannerProperties.ScanIsIdempotent` and `ScannerProperties.ReachableSingleFlight` hold only under that assumption.
- The order in which the platform shows stacked alerts: any alert on screen may be dismissed.
