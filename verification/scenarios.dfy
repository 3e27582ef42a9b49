/** The worked examples of the scanner's behaviour, for a parser that reads
    the example texts the way `JSON.parse` does. */
module Scenarios {

  import opened Wrappers
  import opened Json
  import opened ScanPayload
  import opened Submission
  import opened Scanner

  const Example: string := "{\"senderId\":\"u1\",\"recipientId\":\"u2\",\"aidType\":\"water\"}"
  const ExampleJson: Json := JObj(map["senderId" := JStr("u1"), "recipientId" := JStr("u2"), "aidType" := JStr("water")])

  /** The example is captured from the initial state, and a key typed. */
  function Captured(parse: Parser): (s: State)
    requires parse(Example) == Some(ExampleJson)
    ensures s.scannedData == Some(Example) && HasScan(s) && s.privateKey == "k1"
    ensures s.scanningEnabled && !s.uploading && s.alerts == []
  {
    SetPrivateKey(OnBarcodeScanned(parse, Init, Example), "k1")
  }

  /** Text that does not parse pauses scanning behind an alert; dismissing
      it resumes scanning with nothing held. */
  lemma RejectedThenResumed(parse: Parser)
    requires parse("not json") == None
    ensures var s := OnBarcodeScanned(parse, Init, "not json");
            && !s.scanningEnabled && s.alerts == [InvalidFormat] && s.scannedData.None?
            && DismissAlert(s, 0).scanningEnabled && DismissAlert(s, 0).alerts == []
            && DismissAlert(s, 0).scannedData.None?
  {
  }

  /** Location refused: nothing is sent, the error alert shows, the scan is kept. */
  lemma DeniedKeepsScan(parse: Parser)
    requires parse(Example) == Some(ExampleJson)
    ensures var a := Upload(parse, Captured(parse), PermissionDenied);
            && a.sent.None? && a.after.alerts == [EntryFailed]
            && a.after.scannedData == Some(Example) && !a.after.uploading
  {
  }

  /** Accepted reply: the request goes out and the success alert, once
      dismissed, leaves the screen. */
  lemma AcceptedLeavesScreen(parse: Parser, loc: Location)
    requires parse(Example) == Some(ExampleJson)
    ensures var a := Upload(parse, Captured(parse), Located(loc, Replied(JObj(map["ok" := JBool(true)]))));
            && a.sent == Some(RequestJson(Request("k1", Payload("u1", "u2", "water"), loc)))
            && a.after.alerts == [EntryAdded]
            && DismissAlert(a.after, 0).closed
  {
    var a := Upload(parse, Captured(parse), Located(loc, Replied(JObj(map["ok" := JBool(true)]))));
    assert a.after.alerts[0] == EntryAdded;
  }

  /** Refused reply: the error alert shows and the scan is kept for a retry. */
  lemma RefusedKeepsScan(parse: Parser, loc: Location)
    requires parse(Example) == Some(ExampleJson)
    ensures var a := Upload(parse, Captured(parse),
                            Located(loc, Replied(JObj(map["ok" := JBool(false), "message" := JStr("duplicate")]))));
            && a.sent.Some? && a.after.alerts == [EntryFailed]
            && a.after.scannedData == Some(Example) && a.after.privateKey == "k1"
  {
  }
}
