/** Properties of the scanner controller over all events: the held scan is
    always valid (which is what makes the screen's repeated `JSON.parse`
    calls safe), scanning can always be resumed, and through the rendered
    screen at most one upload is ever in flight. */
module ScannerProperties {

  import opened Wrappers
  import opened Json
  import opened ScanPayload
  import opened Submission
  import opened Scanner

  /** The controller invariant. The held text and the text of every upload
      in flight passed `validateScannedData`, every upload carries a key,
      and scanning is paused exactly while the one invalid-format alert is
      on screen. */
  predicate Inv(parse: Parser, s: State) {
    && (s.scannedData.Some? ==> ValidateScannedData(parse, s.scannedData.value))
    && (forall j :: j in s.inFlight ==> ValidateScannedData(parse, j.data) && j.key != "")
    && multiset(s.alerts)[InvalidFormat] <= 1
    && (s.scanningEnabled <==> multiset(s.alerts)[InvalidFormat] == 0)
  }

  lemma StepPreservesInv(parse: Parser, s: State, e: Event)
    requires Inv(parse, s)
    ensures Inv(parse, Step(parse, s, e))
  {
  }

  lemma {:induction false} RunPreservesInv(parse: Parser, s: State, events: seq<Event>)
    requires Inv(parse, s)
    ensures Inv(parse, Run(parse, s, events))
    decreases |events|
  {
    if events != [] {
      StepPreservesInv(parse, s, events[0]);
      RunPreservesInv(parse, Step(parse, s, events[0]), events[1..]);
    }
  }

  /** Whatever happens after mount, a held scan is valid text. */
  lemma ReachableHoldsOnlyValidScans(parse: Parser, events: seq<Event>)
    ensures var s := Run(parse, Init, events);
            s.scannedData.Some? ==> ValidateScannedData(parse, s.scannedData.value)
  {
    RunPreservesInv(parse, Init, events);
  }

  /** Under the invariant the held text parses to an object whose three
      members are strings, so the `JSON.parse(scannedData).senderId` reads
      of the result view (lines 179-187) and of the request body
      (lines 114-116) neither throw nor give `undefined`. */
  lemma HeldScanIsReadable(parse: Parser, s: State)
    requires Inv(parse, s) && s.scannedData.Some?
    ensures parse(s.scannedData.value).Some?
    ensures var v := parse(s.scannedData.value).value;
            var p := PayloadOf(parse, s.scannedData.value);
            && GetMember(v, "senderId") == Some(Defined(JStr(p.senderId)))
            && GetMember(v, "recipientId") == Some(Defined(JStr(p.recipientId)))
            && GetMember(v, "aidType") == Some(Defined(JStr(p.aidType)))
  {
  }

  /** An upload in flight that obtains a location posts a body from which
      the endpoint reads back the non-empty key, the scanned payload and the
      location, whatever else happened to the screen in the meantime. */
  lemma SettledUploadSendsRequest(parse: Parser, s: State, i: nat, outcome: Outcome)
    requires Inv(parse, s) && i < |s.inFlight| && outcome.Located?
    ensures var job := s.inFlight[i];
            var sent := Settle(parse, job.data, job.key, outcome).sent;
            && job.key != ""
            && sent.Some?
            && DecodeRequest(sent.value) == Some(Request(job.key, PayloadOf(parse, job.data), outcome.location))
  {
  }

  /** Scanning is never paused for good: while it is paused, an alert on
      screen re-enables it when dismissed. */
  lemma PausedScanningCanResume(parse: Parser, s: State)
    requires Inv(parse, s) && !s.scanningEnabled
    ensures exists i :: 0 <= i < |s.alerts| && s.alerts[i] == InvalidFormat && DismissAlert(s, i).scanningEnabled
  {
  }

  /** Delivering the same detection twice has the effect of delivering it
      once, whether it is captured or rejected. */
  lemma ScanIsIdempotent(parse: Parser, s: State, data: string)
    ensures OnBarcodeScanned(parse, OnBarcodeScanned(parse, s, data), data) == OnBarcodeScanned(parse, s, data)
  {
  }

  /** "Scan Again" has exactly the effect of returning to the foreground. */
  lemma ScanAgainIsForegroundReset(s: State)
    ensures ScanAgain(s) == OnAppStateChange(s, "active")
  {
  }

  /** At most one upload is in flight, and `isUploading` says whether one is. */
  predicate SingleFlight(s: State) {
    |s.inFlight| <= 1 && (s.uploading <==> |s.inFlight| == 1)
  }

  lemma AvailableStepKeepsSingleFlight(parse: Parser, s: State, e: Event)
    requires SingleFlight(s) && Available(s, e)
    ensures SingleFlight(Step(parse, s, e))
  {
  }

  /** Through the rendered screen, where "Save Entry" is disabled while
      uploading, two uploads are never in flight at once. */
  lemma {:induction false} GatedRunKeepsSingleFlight(parse: Parser, s: State, events: seq<Event>)
    requires SingleFlight(s) && Gated(parse, s, events)
    ensures SingleFlight(Run(parse, s, events))
    decreases |events|
  {
    if events != [] {
      AvailableStepKeepsSingleFlight(parse, s, events[0]);
      GatedRunKeepsSingleFlight(parse, Step(parse, s, events[0]), events[1..]);
    }
  }

  lemma ReachableSingleFlight(parse: Parser, events: seq<Event>)
    requires Gated(parse, Init, events)
    ensures var s := Run(parse, Init, events);
            |s.inFlight| <= 1 && (s.uploading <==> s.inFlight != [])
  {
    GatedRunKeepsSingleFlight(parse, Init, events);
  }
}
