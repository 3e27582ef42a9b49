/** The scan-capture-submit controller of the `QRScanner` screen
    (Frontend/app/QRScanner.jsx): its state, one pure transition per
    handler, and which handlers the rendered screen can reach. Events are
    taken one at a time; an upload is split into the button press and the
    later settling of its promise, so other events may come in between. */
module Scanner {

  import opened Wrappers
  import opened Json
  import opened ScanPayload
  import opened Submission

  /** The modal alerts the screen raises. */
  datatype Alert =
    | InvalidFormat   // "Invalid QR Code"; its OK button re-enables scanning
    | EntryFailed     // "Failed to add Entry!"
    | EntryAdded      // "Entry added successfully!"; its OK button navigates back

  /** An upload whose promise has not settled yet, with the scanned text and
      the key that its `uploadData` closure captured. */
  datatype Job = Job(data: string, key: string)

  /** The screen's state hooks, the alerts on screen, the uploads in flight,
      and whether the screen has been left. */
  datatype State = State(
    scannedData: Option<string>,
    scanningEnabled: bool,
    privateKey: string,
    uploading: bool,
    inFlight: seq<Job>,
    alerts: seq<Alert>,
    closed: bool)

  /** The state on mount (lines 21-24). */
  const Init: State := State(None, true, "", false, [], [], false)

  /** `!!scannedData`: a scan is held. JavaScript treats the empty string
      like `null` here. */
  predicate HasScan(s: State) {
    s.scannedData.Some? && s.scannedData.value != ""
  }

  /** `xs` without its `i`-th element. */
  function RemoveAt<T>(xs: seq<T>, i: nat): (r: seq<T>)
    requires i < |xs|
    ensures |r| == |xs| - 1
    ensures multiset(r) == multiset(xs) - multiset{xs[i]}
    ensures forall x :: x in r ==> x in xs
  {
    assert xs == xs[..i] + [xs[i]] + xs[i + 1..];
    xs[..i] + xs[i + 1..]
  }

  /** `handleBarcodeScanned` (lines 70-88). */
  function OnBarcodeScanned(parse: Parser, s: State, data: string): (r: State)
    // a disabled scanner or a repeat of the held text changes nothing
    ensures !s.scanningEnabled || s.scannedData == Some(data) ==> r == s
    // a scan never touches the key, the uploads or the navigation
    ensures && r.privateKey == s.privateKey && r.uploading == s.uploading
            && r.inFlight == s.inFlight && r.closed == s.closed
    // the held text only ever becomes validated text
    ensures r.scannedData != s.scannedData ==>
              r.scannedData == Some(data) && ValidateScannedData(parse, data)
    // a fresh valid scan is captured and keeps scanning enabled, with no alert
    ensures s.scanningEnabled && s.scannedData != Some(data) && ValidateScannedData(parse, data) ==>
              r.scannedData == Some(data) && r.scanningEnabled && r.alerts == s.alerts
    // a fresh invalid scan keeps what was held, pauses scanning and raises the alert
    ensures s.scanningEnabled && s.scannedData != Some(data) && !ValidateScannedData(parse, data) ==>
              r.scannedData == s.scannedData && !r.scanningEnabled && r.alerts == s.alerts + [InvalidFormat]
  {
    if !s.scanningEnabled || s.scannedData == Some(data) then s
    else if ValidateScannedData(parse, data) then s.(scannedData := Some(data))
    else s.(scanningEnabled := false, alerts := s.alerts + [InvalidFormat])
  }

  /** Pressing OK on the `i`-th alert on screen: the invalid-format alert
      re-enables scanning (line 83), the success alert navigates back
      (line 126), the error alert only closes. */
  function DismissAlert(s: State, i: nat): (r: State)
    ensures i >= |s.alerts| ==> r == s
    ensures && r.scannedData == s.scannedData && r.privateKey == s.privateKey
            && r.uploading == s.uploading && r.inFlight == s.inFlight
    ensures i < |s.alerts| ==>
              && |r.alerts| == |s.alerts| - 1
              && multiset(r.alerts) == multiset(s.alerts) - multiset{s.alerts[i]}
    ensures i < |s.alerts| && s.alerts[i] == InvalidFormat ==> r.scanningEnabled
    ensures r.scanningEnabled != s.scanningEnabled ==> i < |s.alerts| && s.alerts[i] == InvalidFormat
    ensures r.closed <==> s.closed || (i < |s.alerts| && s.alerts[i] == EntryAdded)
  {
    if i >= |s.alerts| then s
    else
      var rest := RemoveAt(s.alerts, i);
      match s.alerts[i]
      case InvalidFormat => s.(alerts := rest, scanningEnabled := true)
      case EntryFailed => s.(alerts := rest)
      case EntryAdded => s.(alerts := rest, closed := true)
  }

  /** The AppState listener (lines 27-40): returning to the foreground drops
      the held scan and nothing else. */
  function OnAppStateChange(s: State, next: string): (r: State)
    ensures next == "active" ==> r.scannedData.None? && !HasScan(r)
    ensures next != "active" ==> r == s
    ensures r.(scannedData := s.scannedData) == s
  {
    if next == "active" then s.(scannedData := None) else s
  }

  /** The "Scan Again" button (line 209). */
  function ScanAgain(s: State): (r: State)
    ensures r.scannedData.None? && !HasScan(r)
    ensures r.(scannedData := s.scannedData) == s
  {
    s.(scannedData := None)
  }

  /** Typing in the private-key field (line 196). */
  function SetPrivateKey(s: State, text: string): (r: State)
    ensures r.privateKey == text
    ensures r.(privateKey := s.privateKey) == s
  {
    s.(privateKey := text)
  }

  /** `uploadData` up to its first `await` (lines 91-92): without a scan or
      a key nothing happens; otherwise `isUploading` is set and an upload
      of the current text and key starts. */
  function BeginUpload(s: State): (r: State)
    ensures !HasScan(s) || s.privateKey == "" ==> r == s
    ensures HasScan(s) && s.privateKey != "" ==>
              && r.uploading
              && r.inFlight == s.inFlight + [Job(s.scannedData.value, s.privateKey)]
              && r.(uploading := s.uploading, inFlight := s.inFlight) == s
  {
    if !HasScan(s) || s.privateKey == "" then s
    else s.(uploading := true, inFlight := s.inFlight + [Job(s.scannedData.value, s.privateKey)])
  }

  /** The settling of the `i`-th upload in flight (lines 93-134): one alert
      reports the result and the `finally` clears `isUploading`. The held
      scan and the key are left as they are on every outcome. */
  function FinishUpload(parse: Parser, s: State, i: nat, outcome: Outcome): (r: State)
    ensures i >= |s.inFlight| ==> r == s
    ensures && r.scannedData == s.scannedData && r.privateKey == s.privateKey
            && r.scanningEnabled == s.scanningEnabled && r.closed == s.closed
    ensures i < |s.inFlight| ==>
              && !r.uploading
              && multiset(r.inFlight) == multiset(s.inFlight) - multiset{s.inFlight[i]}
              && |r.alerts| == |s.alerts| + 1 && r.alerts[..|s.alerts|] == s.alerts
    ensures i < |s.inFlight| ==>
              var job := s.inFlight[i];
              (r.alerts[|s.alerts|] == EntryAdded <==>
                 && outcome.Located? && outcome.reply.Replied? && Accepted(outcome.reply.body)
                 && BuildBody(parse, job.data, job.key, outcome.location).Some?)
    ensures i < |s.inFlight| ==> r.alerts[|s.alerts|] != InvalidFormat
  {
    if i >= |s.inFlight| then s
    else
      var job := s.inFlight[i];
      var settled := Settle(parse, job.data, job.key, outcome);
      s.(uploading := false,
         inFlight := RemoveAt(s.inFlight, i),
         alerts := s.alerts + [if settled.added then EntryAdded else EntryFailed])
  }

  /** One upload taken as a single step: the press and its settling with
      nothing in between. `sent` is the body posted to the endpoint. */
  datatype Attempt = Attempt(after: State, sent: Option<Json>)

  function Upload(parse: Parser, s: State, outcome: Outcome): (r: Attempt)
    // no scan or no key: nothing happens at all
    ensures !HasScan(s) || s.privateKey == "" ==> r == Attempt(s, None)
    // on every outcome the scan and the key stay and `uploading` ends false
    ensures HasScan(s) && s.privateKey != "" ==>
              && r.after.scannedData == s.scannedData && r.after.privateKey == s.privateKey
              && !r.after.uploading && r.after.inFlight == s.inFlight
              && |r.after.alerts| == |s.alerts| + 1 && r.after.alerts[..|s.alerts|] == s.alerts
    // without a location nothing is sent
    ensures !outcome.Located? ==> r.sent.None?
    // a valid scan is sent with the key and the location
    ensures HasScan(s) && s.privateKey != "" && outcome.Located? && ValidateScannedData(parse, s.scannedData.value) ==>
              r.sent == Some(RequestJson(Request(s.privateKey, PayloadOf(parse, s.scannedData.value), outcome.location)))
    // success exactly when a body went out and the reply's `ok` is truthy
    ensures HasScan(s) && s.privateKey != "" ==>
              (r.after.alerts[|s.alerts|] == EntryAdded <==>
                 r.sent.Some? && outcome.reply.Replied? && Accepted(outcome.reply.body))
    // the one alert is the success alert or the error alert, and nothing
    // else about the screen changes: scanning, navigation and the uploads
    // of other presses stay as they were
    ensures HasScan(s) && s.privateKey != "" ==>
              r.after == s.(uploading := false,
                            alerts := s.alerts + [if r.sent.Some? && outcome.Located? && outcome.reply.Replied?
                                                     && Accepted(outcome.reply.body)
                                                  then EntryAdded else EntryFailed])
  {
    if !HasScan(s) || s.privateKey == "" then Attempt(s, None)
    else
      var started := BeginUpload(s);
      var job := Job(s.scannedData.value, s.privateKey);
      assert started.inFlight[|s.inFlight|] == job;
      assert RemoveAt(started.inFlight, |s.inFlight|) == s.inFlight;
      Attempt(FinishUpload(parse, started, |s.inFlight|, outcome), Settle(parse, job.data, job.key, outcome).sent)
  }

  /** Everything that can happen to the screen. */
  datatype Event =
    | Scanned(data: string)
    | Dismissed(alert: nat)
    | AppStateChanged(next: string)
    | ScanAgainPressed
    | KeyTyped(text: string)
    | SavePressed
    | UploadSettled(job: nat, outcome: Outcome)

  function Step(parse: Parser, s: State, e: Event): State {
    match e
    case Scanned(data) => OnBarcodeScanned(parse, s, data)
    case Dismissed(i) => DismissAlert(s, i)
    case AppStateChanged(next) => OnAppStateChange(s, next)
    case ScanAgainPressed => ScanAgain(s)
    case KeyTyped(text) => SetPrivateKey(s, text)
    case SavePressed => BeginUpload(s)
    case UploadSettled(i, outcome) => FinishUpload(parse, s, i, outcome)
  }

  /** Whether the rendered screen can deliver the event (lines 153-216):
      the camera is mounted only while no scan is held; the key field and
      the two buttons only while one is; "Save Entry" is disabled while
      uploading or without a key; nothing is delivered once the screen has
      been left, except the settling of earlier work. */
  predicate Available(s: State, e: Event) {
    match e
    case Scanned(_) => !s.closed && !HasScan(s)
    case Dismissed(i) => i < |s.alerts|
    case AppStateChanged(_) => !s.closed
    case ScanAgainPressed => !s.closed && HasScan(s)
    case KeyTyped(_) => !s.closed && HasScan(s)
    case SavePressed => !s.closed && HasScan(s) && !s.uploading && s.privateKey != ""
    case UploadSettled(i, _) => i < |s.inFlight|
  }

  /** The held text as the JavaScript value `scannedData`. */
  function ScanValue(s: State): JsValue {
    match s.scannedData
    case None => Defined(JNull)
    case Some(text) => Defined(JStr(text))
  }

  /** The screen's guards are JavaScript truthiness: `!scannedData` (lines
      91 and 155) and `!privateKey` (lines 91 and 201). */
  lemma GuardsAreTruthiness(s: State)
    ensures HasScan(s) <==> Truthy(ScanValue(s))
    ensures s.privateKey != "" <==> Truthy(Defined(JStr(s.privateKey)))
  {
  }

  /** What the rendered screen offers (lines 153-216). While the screen is
      shown, it is either the camera view or the result view, never both:
      a detection can be delivered exactly when "Scan Again" cannot. "Save
      Entry" sits in the result view and is enabled only without an upload
      running and with a key. */
  lemma RenderedScreen(s: State, data: string)
    ensures !s.closed ==> (Available(s, Scanned(data)) <==> !Available(s, ScanAgainPressed))
    ensures Available(s, ScanAgainPressed) <==> Available(s, KeyTyped(s.privateKey))
    ensures Available(s, SavePressed) <==>
              Available(s, ScanAgainPressed) && !s.uploading && Truthy(Defined(JStr(s.privateKey)))
    ensures s.closed ==> !Available(s, Scanned(data)) && !Available(s, SavePressed)
  {
  }

  /** The state after a sequence of events. */
  function Run(parse: Parser, s: State, events: seq<Event>): State
    decreases |events|
  {
    if events == [] then s else Run(parse, Step(parse, s, events[0]), events[1..])
  }

  /** Every event of the sequence is available when it happens. */
  predicate Gated(parse: Parser, s: State, events: seq<Event>)
    decreases |events|
  {
    events == [] || (Available(s, events[0]) && Gated(parse, Step(parse, s, events[0]), events[1..]))
  }
}
